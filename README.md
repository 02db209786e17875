# duct token-stream parser — a Dafny model

duct is an incremental JSON parser for PHP. This project models its grammar
layer, the token-stream parser. It sits between the lexer and the
value-building façade, and it:

- receives tokens: a token type plus a payload;
- checks them against the JSON grammar for values, arrays and objects
  (sections 3, 4 and 5 of RFC 8259);
- emits structural events in order: `value`, `array-open`, `array-close`,
  `object-open`, `object-key`, `object-close`;
- rejects an illegal token with `Unexpected token "<TYPE>" in state "<STATE>".`
  At top level the message is `Unexpected token "<TYPE>".`;
- fails `finalize()` with `Token stream ended unexpectedly.` while a container
  is still open.

A completed top-level value returns the parser to BEGIN. So one parser
accepts several top-level values in a row, and `finalize()` succeeds after
any number of them, including none.

The project has these parts:

- `parser_state.dfy` (module `ParserStates`): the nine grammar states of
  `ParserState`, with their integer values and labels, and facts about that
  value map.
- `tokens.dfy` (module `Tokens`):
  - the ten token types and the scalar payloads;
  - `CreateTokens`, the test helper that turns test literals into tokens.
- `grammar.dfy` (module `Grammar`): the parser as a pure transition function.
  - A configuration is the current state plus a stack of resume states. `[`
    and `{` push the state to resume once the container closes; the matching
    close pops it.
  - `Step` feeds one token. `Run` feeds a sequence and stops at the first
    rejected token. `Finalize` checks for unclosed containers.
  - `Message` gives the exception text.
- `token_stream_parser.dfy` (module `TokenStreamParsers`): the parser as an
  object.
  - Its fields are the current state, the stack and the event log (which
    stands in for `emit`).
  - `FeedToken` dispatches on the state. `Feed` loops over the tokens.
  - Each method is proved against the pure functions of `Grammar`.
- `nesting.dfy` (module `Nesting`): the events are structurally sound.
  Replaying them as a stack of open containers always matches the parser's
  own stack. So a stream that finalizes cleanly emitted balanced events, with
  keys only directly inside objects.
- `documents.dfy` (module `Documents`): completeness. The tokens of any JSON
  document, fed from any value position, are accepted. They emit exactly that
  document's events, and the parser resumes the enclosing container.
- `recognition.dfy` (module `Recognition`): soundness, the converse of
  completeness. Take a stream whose literal tokens carry payloads of their
  own type, which a fresh parser accepts and then finalizes without error.
  A punctuation token may carry any payload, since the parser reads only its
  type; the theorem normalises such payloads to the type's character. The
  stream is then a sequence of whole documents, one after the other, and the
  events emitted are exactly theirs. The proof reads the stream token by
  token. It tracks the documents already complete and the containers still
  open, with what each holds so far.
- `scenarios.dfy` (module `Scenarios`): the documented event sequences and
  error messages. They are stated over arbitrary payloads and keys rather
  than the particular literals of the test data.

## Model

| member | source | states |
|---|---|---|
| ParserStates.Value | src/Detail/ParserState.php:11-21 | every state's value is 1 or lies in 10-12 or 20-24, and the range it lies in gives the state's container kind |
| ParserStates.Label | src/Detail/ParserState.php:11-21 | a state's label is a non-empty constant name made of capitals and underscores |
| ParserStates.FromValue | src/Detail/ParserState.php:11-21 | the member looked up by value (the enumeration's `memberByValue`) has that value; when there is none, no member has that value |
| ParserStates.ExactlyNineStates | src/Detail/ParserState.php:11-21 | exactly nine members, every state is one of them, and their values are pairwise distinct |
| ParserStates.ValueInjective | src/Detail/ParserState.php:11-21 | equal values mean the same member |
| ParserStates.ValueRoundTrip | src/Detail/ParserState.php:11-21 | value then lookup gives the member back; a value names a member exactly when it is one of 1, 10, 11, 12, 20, 21, 22, 23, 24 |
| ParserStates.BeginIsOnlyTopLevel | src/Detail/ParserState.php:11 | BEGIN (value 1) is the one state outside every container |
| ParserStates.ScopeFromValue | src/Detail/ParserState.php:13-21 | the container kind is recovered from the value alone: array states are exactly 10-12, object states exactly 20-24 |
| ParserStates.LabelInjective | src/Detail/ParserState.php:11-21 | state labels (the constant names) are distinct |
| Tokens.TypeOfCharacter | test/suite/Detail/TokenStreamParserTest.php:19-20 | the token type found for a character has that character as its value and is not a literal type; when none is found, no type has that character |
| Tokens.LiteralType | test/suite/Detail/TokenStreamParserTest.php:21-28 | the type chosen for a scalar is always a literal type |
| Tokens.TokenFor | test/suite/Detail/TokenStreamParserTest.php:19-28 | the token carries the literal as its payload and is well-typed; a one-character string becomes the punctuation token of that character, and fails only when no type has that character; any other literal gets its literal type (number for int and float, boolean, null, string otherwise) |
| Tokens.CreateTokens | test/suite/Detail/TokenStreamParserTest.php:14-33 | succeeds exactly when every literal has a token; then yields one token per literal, in input order, each the token of its literal and well-typed |
| Tokens.CharacterRoundTrip | test/suite/Detail/TokenStreamParserTest.php:19-20 | the punctuation types are exactly the non-literal types, and each is found again from its own character |
| Tokens.Label | test/suite/Detail/TokenStreamParserTest.php:92 | a token type's label (its `memberByValue` name) is a non-empty name made of capitals and underscores, so it never holds a quote |
| Tokens.LabelInjective | test/suite/Detail/TokenStreamParserTest.php:92 | token-type labels are distinct |
| Grammar.Step | test/suite/Detail/TokenStreamParserTest.php:129-188 | an accepted token leads to a well-formed configuration: the stack is empty exactly at BEGIN, its bottom resumes BEGIN, and the other entries resume a separator state; it emits at most one event |
| Grammar.StepFollowsTable | test/suite/Detail/TokenStreamParserTest.php:53-104 | a token is accepted exactly when the grammar table allows it in the current state; a rejection names the token type and the reported state (none at top level, OBJECT_KEY just after `{`); an accepted token emits its event; an open pushes one resume state, a close pops exactly one, and any other token leaves the stack alone |
| Grammar.StepOutcome | test/suite/Detail/TokenStreamParserTest.php:109-127 | feeding one token keeps the configuration well-formed |
| Grammar.Run | test/suite/Detail/TokenStreamParserTest.php:109-127 | feeding a token sequence keeps the configuration well-formed |
| Grammar.RunBounds | test/suite/Detail/TokenStreamParserTest.php:109-127 | a run emits no more events than it has tokens; `feed` fails only with an unexpected-token error |
| Grammar.Finalize | test/suite/Detail/TokenStreamParserTest.php:35-51 | `finalize()` succeeds exactly in BEGIN (nothing open), and otherwise fails with the early-end error |
| Grammar.RunAppend | test/suite/Detail/TokenStreamParserTest.php:109-127 | feeding `a + b` equals feeding `a` and then, unless `a` failed, `b`: how the stream is split into `feed` calls does not matter |
| Grammar.RunSingle | test/suite/Detail/TokenStreamParserTest.php:88-94 | feeding one token is one step: on rejection the configuration is unchanged and nothing is emitted |
| Grammar.RunExtend | test/suite/Detail/TokenStreamParserTest.php:109-127 | feeding one more token continues the outcome of the prefix |
| Grammar.RunPrefixStep | test/suite/Detail/TokenStreamParserTest.php:109-127 | after an accepted prefix, one more token adds its step's events and state |
| Grammar.AcceptedPrefix | test/suite/Detail/TokenStreamParserTest.php:109-127 | if a stream is accepted, so is the stream without its last token |
| Grammar.AfterPrefix | test/suite/Detail/TokenStreamParserTest.php:109-127 | after an accepted prefix, the stream's outcome is one step on its last token: that step's state and error, and the prefix's events followed by the step's |
| Grammar.StepIgnoresPunctuationPayload | test/suite/Detail/TokenStreamParserTest.php:88-94 | a punctuation token is read by its type alone: replacing its payload with its own character changes nothing |
| Grammar.RunNormalised | test/suite/Detail/TokenStreamParserTest.php:109-127 | feeding a stream gives the same outcome as feeding it with every punctuation payload normalised |
| Grammar.RunStopsAtError | test/suite/Detail/TokenStreamParserTest.php:53-83 | once a token is rejected, the tokens after it change nothing |
| Grammar.EmitCallInjective | test/suite/Detail/TokenStreamParserTest.php:115-126 | the arguments of an `emit` call (the event name, then the value or key if any) identify the event, so checking the calls in order checks the events |
| Grammar.Message | test/suite/Detail/TokenStreamParserTest.php:35-104 | an unexpected-token message is `Unexpected token "`, the type label, a closing quote, then either `.` or ` in state "<STATE>".`; the early-end message holds no quote |
| Grammar.TailInjective | test/suite/Detail/TokenStreamParserTest.php:57-92 | the text after the token label shows whether a state is named, and which |
| Grammar.MessageInjective | test/suite/Detail/TokenStreamParserTest.php:35-104 | equal messages mean equal errors: the message identifies the token type and the state unambiguously |
| Nesting.StepReplays | test/suite/Detail/TokenStreamParserTest.php:139-186 | replaying the events of one accepted token on the parser's open containers gives the open containers after it |
| Nesting.RunReplays | test/suite/Detail/TokenStreamParserTest.php:139-186 | the same for any token sequence: the events always track the containers the parser has open |
| Nesting.BalancedDocument | test/suite/Detail/TokenStreamParserTest.php:109-186 | if a fresh parser accepts a stream and finalizes without error, its events are balanced: every close matches the latest unclosed open, keys appear only directly in objects, and nothing is left open |
| Documents.RunDocument | test/suite/Detail/TokenStreamParserTest.php:129-188 | the tokens of any document, fed at any value position, are accepted; they emit exactly the document's events and leave the state a completed value leads to, with the stack as before |
| Documents.OpenFrom | test/suite/Detail/TokenStreamParserTest.php:139-166 | `[` or `{` at a value position opens the container and pushes the state that follows the value |
| Documents.CloseTo | test/suite/Detail/TokenStreamParserTest.php:139-174 | `]` or `}` where the container may close pops back to its resume state |
| Documents.RunArray | test/suite/Detail/TokenStreamParserTest.php:139-166 | a whole array at a value position: `array-open`, the items' events in order, `array-close`, then the state after a value |
| Documents.RunObject | test/suite/Detail/TokenStreamParserTest.php:168-186 | a whole object at a value position: `object-open`, each key event then its value's events in order, `object-close`, then the state after a value |
| Documents.OpenArrayContents | test/suite/Detail/TokenStreamParserTest.php:147-156 | `[` and the elements leave the array open, in ARRAY_START when empty and ARRAY_VALUE_SEPARATOR otherwise |
| Documents.OpenObjectContents | test/suite/Detail/TokenStreamParserTest.php:176-186 | `{` and the members leave the object open, in OBJECT_START when empty and OBJECT_VALUE_SEPARATOR otherwise |
| Documents.RunItems | test/suite/Detail/TokenStreamParserTest.php:147-156 | the comma-separated elements of a just-opened array emit their events in order |
| Documents.RunCommaItem | test/suite/Detail/TokenStreamParserTest.php:147-156 | a comma and one element after an array value return to ARRAY_VALUE_SEPARATOR with that element's events |
| Documents.RunMoreItems | test/suite/Detail/TokenStreamParserTest.php:147-156 | any number of comma-prefixed elements return to ARRAY_VALUE_SEPARATOR with their events in order |
| Documents.RunKeyColon | test/suite/Detail/TokenStreamParserTest.php:176-186 | a key and its colon where a key is due emit `object-key` and lead to OBJECT_VALUE |
| Documents.RunMember | test/suite/Detail/TokenStreamParserTest.php:176-186 | one member emits its key and then its value's events, and leads to OBJECT_VALUE_SEPARATOR |
| Documents.RunMembers | test/suite/Detail/TokenStreamParserTest.php:176-186 | the comma-separated members of a just-opened object emit their events in order |
| Documents.RunCommaMember | test/suite/Detail/TokenStreamParserTest.php:176-186 | a comma and one member after an object value return to OBJECT_VALUE_SEPARATOR |
| Documents.RunMoreMembers | test/suite/Detail/TokenStreamParserTest.php:176-186 | any number of comma-prefixed members return to OBJECT_VALUE_SEPARATOR with their events in order |
| Documents.WholeDocument | test/suite/Detail/TokenStreamParserTest.php:109-188 | a fresh parser accepts any document, emits exactly its events, returns to BEGIN, and `finalize()` succeeds |
| Recognition.StepReading | test/suite/Detail/TokenStreamParserTest.php:109-188 | one more accepted token extends the documents and open containers read so far, and the events emitted are theirs |
| Recognition.ReadAccepted | test/suite/Detail/TokenStreamParserTest.php:109-188 | any stream of well-typed tokens (literals of their own type, punctuation carrying its character) that a fresh parser accepts is some complete documents followed by open containers; the parser's configuration and events are exactly those these determine |
| Recognition.AcceptedIsDocuments | test/suite/Detail/TokenStreamParserTest.php:109-188 | a stream whose literal tokens carry payloads of their own type, which a fresh parser accepts and finalizes without error, is a sequence of documents once its punctuation payloads are normalised, and the events emitted are theirs |
| Recognition.RunDocuments | test/suite/Detail/TokenStreamParserTest.php:109-188 | any sequence of documents, one after the other, is accepted from BEGIN; it emits their events in order and returns to BEGIN |
| Recognition.Recognises | test/suite/Detail/TokenStreamParserTest.php:109-188 | for streams whose literal tokens carry payloads of their own type, a fresh parser accepts the stream and finalizes without error exactly when the stream, its punctuation payloads normalised, is a sequence of documents; and for every such document sequence the run emits exactly its events and ends back in BEGIN with an empty stack |
| TokenStreamParsers.TokenStreamParser.constructor | test/suite/Detail/TokenStreamParserTest.php:9-12 | a new parser is in BEGIN with an empty stack and has emitted nothing |
| TokenStreamParsers.TokenStreamParser.Reset | test/suite/ParserTest.php:100-110 | back to BEGIN with an empty stack, whatever happened before; events already emitted stay emitted (the cited test shows only that `reset()` is called after a failed `feed`) |
| TokenStreamParsers.TokenStreamParser.Emit | test/suite/Detail/TokenStreamParserTest.php:115-126 | appends one event to the log and leaves the grammar state alone |
| TokenStreamParsers.TokenStreamParser.EndContainer | test/suite/Detail/TokenStreamParserTest.php:139-174 | pops the innermost resume state into the current state and emits the close event |
| TokenStreamParsers.TokenStreamParser.DoValue | test/suite/Detail/TokenStreamParserTest.php:129-166 | at a value position, the fields and the log change exactly as the pure value transition says; on rejection they are unchanged and the error is returned |
| TokenStreamParsers.TokenStreamParser.DoObjectKey | test/suite/Detail/TokenStreamParserTest.php:53-67 | where a key is due, a string becomes `object-key`; anything else is rejected in OBJECT_KEY and changes nothing |
| TokenStreamParsers.TokenStreamParser.FeedToken | test/suite/Detail/TokenStreamParserTest.php:53-127 | one token moves the fields and extends the log exactly as `StepOutcome` says, returning its error; the configuration stays well-formed |
| TokenStreamParsers.TokenStreamParser.Feed | test/suite/Detail/TokenStreamParserTest.php:109-127 | `feed(tokens)` leaves exactly the configuration, appended events and error of `Run` on the old configuration; it stays well-formed |
| TokenStreamParsers.TokenStreamParser.Finalize | test/suite/Detail/TokenStreamParserTest.php:35-51 | fails exactly when a container is still open, with the early-end error |
| Scenarios.HelperLiterals | test/suite/Detail/TokenStreamParserTest.php:14-33 | the test literal for a punctuation character, any string not one character long, and an integer become exactly the punctuation, string and number tokens the scenarios are written with |
| Scenarios.PayloadFreePunctuation | test/suite/Detail/TokenStreamParserTest.php:168-174 | `{ }` built from punctuation tokens with no payload emits `object-open, object-close` and returns to BEGIN |
| Scenarios.SingleScalar | test/suite/Detail/TokenStreamParserTest.php:132-137 | any scalar alone emits exactly `value` with its payload and returns to BEGIN, so `finalize()` succeeds |
| Scenarios.EmptyArray | test/suite/Detail/TokenStreamParserTest.php:139-145 | `[ ]` emits `array-open, array-close` and returns to BEGIN with an empty stack |
| Scenarios.EmptyObject | test/suite/Detail/TokenStreamParserTest.php:168-174 | `{ }` emits `object-open, object-close` and returns to BEGIN with an empty stack |
| Scenarios.ArrayOfNumbers | test/suite/Detail/TokenStreamParserTest.php:147-156 | `[x, y, z]` emits `array-open`, the three values in order, `array-close`, and returns to BEGIN |
| Scenarios.NestedInArray | test/suite/Detail/TokenStreamParserTest.php:158-166 | a document inside `[ ]` emits `array-open`, its events, `array-close`, and returns to BEGIN; for `[{}]` these are `array-open, object-open, object-close, array-close` |
| Scenarios.ObjectWithKeys | test/suite/Detail/TokenStreamParserTest.php:176-186 | `{k1: x, k2: y}` emits `object-open`, `object-key k1`, `value x`, `object-key k2`, `value y`, `object-close`, and returns to BEGIN |
| Scenarios.UnterminatedContainer | test/suite/Detail/TokenStreamParserTest.php:35-51 | `{` or `[` alone is accepted by `feed`, but `finalize()` fails with "Token stream ended unexpectedly." |
| Scenarios.Accept | test/suite/Detail/TokenStreamParserTest.php:109-127 | an accepted token after a prefix adds its events to the prefix's events |
| Scenarios.Reject | test/suite/Detail/TokenStreamParserTest.php:53-83 | a rejected token after a prefix keeps the prefix's events and state and reports the error |
| Scenarios.OpenObjectWithKey | test/suite/Detail/TokenStreamParserTest.php:63 | `{ key` emits `object-open, object-key` and awaits the colon |
| Scenarios.ObjectKeyAndColon | test/suite/Detail/TokenStreamParserTest.php:71 | `{ key :` awaits the member's value |
| Scenarios.ObjectMember | test/suite/Detail/TokenStreamParserTest.php:71 | `{ key : v` emits the key and the value and awaits a comma or `}` |
| Scenarios.OpenArrayWithValue | test/suite/Detail/TokenStreamParserTest.php:79 | `[ v` emits `array-open, value` and awaits a comma or `]` |
| Scenarios.NonStringKey | test/suite/Detail/TokenStreamParserTest.php:53-59 | `{` and then any non-string literal fails in state OBJECT_KEY; for a number the message is `Unexpected token "NUMBER_LITERAL" in state "OBJECT_KEY".` |
| Scenarios.CommaAfterObjectKey | test/suite/Detail/TokenStreamParserTest.php:61-67 | `{ key ,` fails with `Unexpected token "COMMA" in state "OBJECT_KEY_SEPARATOR".` |
| Scenarios.ColonAfterObjectValue | test/suite/Detail/TokenStreamParserTest.php:69-75 | `{ key : v :` fails with `Unexpected token "COLON" in state "OBJECT_VALUE_SEPARATOR".` |
| Scenarios.ColonAfterArrayValue | test/suite/Detail/TokenStreamParserTest.php:77-83 | `[ v :` fails with `Unexpected token "COLON" in state "ARRAY_VALUE_SEPARATOR".` |
| Scenarios.InvalidStartingToken | test/suite/Detail/TokenStreamParserTest.php:88-104 | any token that cannot start a value (`}`, `]`, `:`, `,`) fails at top level; nothing is emitted, the state stays BEGIN, and the message `Unexpected token "<TYPE>".` names no state |
| Scenarios.TrailingCommaInArray | src/Detail/ParserState.php:13-15 | `[v,]` fails with `]` rejected in ARRAY_VALUE |
| Scenarios.TrailingCommaInObject | src/Detail/ParserState.php:17-21 | `{key: v,}` fails with `}` rejected in OBJECT_KEY |
| Scenarios.ResetAfterFailure | test/suite/ParserTest.php:100-110 | a parser whose `feed` failed on `[ 1 :` is reset and fed a whole document: that second `feed` succeeds, the events from before the failure stay, the document's events follow, and `finalize()` succeeds |

## Left out

- `TokenStreamParser.php` is not part of this model. The transitions follow the
  `ParserState` enumeration and the behaviour that
  `test/suite/Detail/TokenStreamParserTest.php` fixes. Where those are silent,
  two choices are inferences:
  - a rejected token right after `[` is reported in ARRAY_VALUE, mirroring
    OBJECT_KEY after `{` (test line 57);
  - trailing commas are rejected, because ARRAY_VALUE and OBJECT_KEY exist
    apart from ARRAY_START and OBJECT_START.
- The state after a rejected token: the model leaves the configuration
  unchanged. The implementation's state after an exception is unspecified, and
  callers reset before reuse.
- The lexer, splitting text into chunks, and the text-level `parse` façade of
  `test/suite/ParserTest.php`: no lexer source is part of this model.
- The value-building façade (`values()` and `produceAssociativeArrays()` in
  `test/suite/ParserTest.php`): it builds PHP arrays and objects from the
  events and sits on top of the lexer; neither its source nor PHP's value
  representation is part of this model.
- The evented façade and its listener registry
  (`test/suite/Icecave/Duct/EventedParserTest.php`): they only delegate to an
  event-emitter library. `emit` is modelled as appending to the event log.
- Numeric semantics: payloads are opaque. A float is kept as its text, and
  the model never does arithmetic on numbers.
- The integer values of the `TokenType` constants are not part of this model.
  Only the punctuation types' character values are modelled, because the
  tests rely on them (`new Token($token, $token)`).
- Tokens.CreateTokens: a one-character string that names no token type yields
  None for the whole list. The helper would instead build a token with an
  unknown type.
- Tokens.TokenFor: PHP's `strlen` counts bytes; the model counts characters.
- ParserStates.FromValue: returns None for a value that names no state, where
  the enumeration library's `memberByValue` throws an exception.
- Recognition: soundness assumes that each literal token carries a payload of
  its own type (a number in a NUMBER_LITERAL, and so on). The parser passes a
  literal's payload through unchecked, so `Token(STRING_LITERAL, Int(1))` is
  accepted although no document has it among its tokens. Punctuation payloads
  are unconstrained.
- Scenarios: the lemmas are stated for arbitrary payloads and keys rather than
  the particular literals of the test data (`1`, `1.1`, `"foo"`, `"k1"`), which
  they include as instances.
- Phake partial mocks, PHPUnit exception matching and the enumeration
  library's internals are left out; they are test and library plumbing.
