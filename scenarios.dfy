/**
 * The documented token-stream scenarios: the exact event sequence for
 * scalars, arrays, objects and nesting, and the exact failure for each
 * illegal token and for a stream that ends inside a container.
 */
module Scenarios {
  import opened Wrappers
  import opened ParserStates
  import opened Tokens
  import opened Grammar
  import opened Documents
  import opened TokenStreamParsers

  /**
   * Short names for the tokens the test builds from literals, so that a
   * scenario reads like its token list: `P` is `Punctuation`, `N` an integer
   * `LiteralToken` and `S` a string `LiteralToken` (the same token as
   * `KeyToken` when it stands in key position).
   */
  function P(k: TokenType): Token
    requires Character(k).Some?
  {
    Punctuation(k)
  }

  function N(i: int): Token
  {
    LiteralToken(Int(i))
  }

  function S(s: string): Token
  {
    LiteralToken(Str(s))
  }

  /**
   * The test literals the helpers above stand for: a one-character string
   * naming a punctuation type, any other string, an integer.
   */
  lemma HelperLiterals(k: TokenType, s: string, i: int)
    requires Character(k).Some?
    ensures TokenFor(Str([Character(k).value])) == Some(P(k))
    ensures |s| != 1 ==> TokenFor(Str(s)) == Some(S(s))
    ensures TokenFor(Int(i)) == Some(N(i))
  {
  }

  /** Punctuation tokens without a payload are read as those carrying their character: `{ }`. */
  lemma PayloadFreePunctuation()
    ensures Run(Initial, [Token(BRACE_OPEN, Null), Token(BRACE_CLOSE, Null)])
         == Outcome(Initial, [ObjectOpen, ObjectClose], None)
  {
    var ts := [Token(BRACE_OPEN, Null), Token(BRACE_CLOSE, Null)];
    RunNormalised(Initial, ts);
    assert NormaliseAll(ts) == [P(BRACE_OPEN), P(BRACE_CLOSE)];
    EmptyObject();
  }

  /** A single scalar of any kind emits exactly one value event with its payload, then finalizes. */
  lemma SingleScalar(v: Scalar)
    ensures Run(Initial, [LiteralToken(v)]) == Outcome(Initial, [Value(v)], None)
    ensures Finalize(Initial).None?
  {
    WholeDocument(Scalar(v));
  }

  lemma EmptyArray()
    ensures Run(Initial, [P(BRACKET_OPEN), P(BRACKET_CLOSE)]) == Outcome(Initial, [ArrayOpen, ArrayClose], None)
  {
    WholeDocument(Array([]));
  }

  lemma EmptyObject()
    ensures Run(Initial, [P(BRACE_OPEN), P(BRACE_CLOSE)]) == Outcome(Initial, [ObjectOpen, ObjectClose], None)
  {
    WholeDocument(Object([]));
  }

  /** `[x, y, z]`: the array events with each element's payload, in order. */
  lemma ArrayOfNumbers(x: Scalar, y: Scalar, z: Scalar)
    ensures Run(Initial, [P(BRACKET_OPEN), LiteralToken(x), P(COMMA), LiteralToken(y), P(COMMA), LiteralToken(z), P(BRACKET_CLOSE)])
         == Outcome(Initial, [ArrayOpen, Value(x), Value(y), Value(z), ArrayClose], None)
  {
    var three: seq<Json> := [Json.Scalar(z)];
    var two := [Json.Scalar(y)] + three;
    var items := [Json.Scalar(x)] + two;
    assert items[1..] == two && two[1..] == three && three[1..] == [];
    assert MoreItemsTokens(three) == [P(COMMA), LiteralToken(z)];
    assert MoreItemsTokens(two) == [P(COMMA), LiteralToken(y), P(COMMA), LiteralToken(z)];
    assert ItemsTokens(items) == [LiteralToken(x), P(COMMA), LiteralToken(y), P(COMMA), LiteralToken(z)];
    assert ItemsEvents(three) == [Value(z)];
    assert ItemsEvents(two) == [Value(y), Value(z)];
    assert ItemsEvents(items) == [Value(x), Value(y), Value(z)];
    assert TokensOf(Array(items))
        == [P(BRACKET_OPEN), LiteralToken(x), P(COMMA), LiteralToken(y), P(COMMA), LiteralToken(z), P(BRACKET_CLOSE)];
    assert EventsOf(Array(items)) == [ArrayOpen, Value(x), Value(y), Value(z), ArrayClose];
    WholeDocument(Array(items));
  }

  /**
   * Any document nested in an array: its events sit between the array's
   * open and close; for `[{}]`, the object's open and close.
   */
  lemma NestedInArray(j: Json)
    ensures Run(Initial, [P(BRACKET_OPEN)] + TokensOf(j) + [P(BRACKET_CLOSE)])
         == Outcome(Initial, [ArrayOpen] + EventsOf(j) + [ArrayClose], None)
    ensures TokensOf(Object([])) == [P(BRACE_OPEN), P(BRACE_CLOSE)]
    ensures EventsOf(Object([])) == [ObjectOpen, ObjectClose]
  {
    assert [j][1..] == [];
    assert ItemsTokens([j]) == TokensOf(j);
    assert ItemsEvents([j]) == EventsOf(j);
    RunArray(Initial, [j]);
  }

  /** `{k1: x, k2: y}`: a key event before each value, members in order. */
  lemma ObjectWithKeys(k1: string, x: Scalar, k2: string, y: Scalar)
    ensures Run(Initial, [P(BRACE_OPEN), S(k1), P(COLON), LiteralToken(x), P(COMMA), S(k2), P(COLON), LiteralToken(y), P(BRACE_CLOSE)])
         == Outcome(Initial, [ObjectOpen, ObjectKey(Str(k1)), Value(x), ObjectKey(Str(k2)), Value(y), ObjectClose], None)
  {
    var second := [Member(k2, Json.Scalar(y))];
    var ms := [Member(k1, Json.Scalar(x))] + second;
    assert ms[1..] == second && second[1..] == [];
    assert MemberTokens(ms[0]) == [S(k1), P(COLON), LiteralToken(x)];
    assert MemberTokens(second[0]) == [S(k2), P(COLON), LiteralToken(y)];
    assert MoreMembersTokens(second) == [P(COMMA), S(k2), P(COLON), LiteralToken(y)];
    assert MembersTokens(ms) == [S(k1), P(COLON), LiteralToken(x), P(COMMA), S(k2), P(COLON), LiteralToken(y)];
    assert MembersEvents(second) == [ObjectKey(Str(k2)), Value(y)];
    assert MembersEvents(ms) == [ObjectKey(Str(k1)), Value(x), ObjectKey(Str(k2)), Value(y)];
    assert TokensOf(Object(ms))
        == [P(BRACE_OPEN), S(k1), P(COLON), LiteralToken(x), P(COMMA), S(k2), P(COLON), LiteralToken(y), P(BRACE_CLOSE)];
    assert EventsOf(Object(ms)) == [ObjectOpen, ObjectKey(Str(k1)), Value(x), ObjectKey(Str(k2)), Value(y), ObjectClose];
    WholeDocument(Object(ms));
  }

  /** A stream that stops inside `{` or `[` is accepted by feed but rejected by finalize. */
  lemma UnterminatedContainer(k: TokenType)
    requires k == BRACE_OPEN || k == BRACKET_OPEN
    ensures Run(Initial, [P(k)]).error.None?
    ensures Finalize(Run(Initial, [P(k)]).final) == Some(StreamEndedUnexpectedly)
    ensures Message(StreamEndedUnexpectedly) == "Token stream ended unexpectedly."
  {
    RunSingle(Initial, P(k));
  }

  /** Feeding one more accepted token after a prefix fed from the start. */
  lemma Accept(prefix: seq<Token>, c: Config, evs: seq<Event>, t: Token, next: Config, emitted: seq<Event>)
    requires WellFormed(c) && Run(Initial, prefix) == Outcome(c, evs, None)
    requires Step(c, t) == Ok(Transition(next, emitted))
    ensures Run(Initial, prefix + [t]) == Outcome(next, evs + emitted, None)
  {
    RunAppend(Initial, prefix, [t]);
    RunSingle(c, t);
  }

  /** Feeding a rejected token after a prefix fed from the start: the prefix's events stand, the state does not move. */
  lemma Reject(prefix: seq<Token>, c: Config, evs: seq<Event>, t: Token, err: ParserError)
    requires WellFormed(c) && Run(Initial, prefix) == Outcome(c, evs, None)
    requires Step(c, t) == Err(err)
    ensures Run(Initial, prefix + [t]) == Outcome(c, evs, Some(err))
  {
    RunAppend(Initial, prefix, [t]);
    RunSingle(c, t);
  }

  /** `{ key`: the object is open and its first key read. */
  lemma OpenObjectWithKey(key: string)
    ensures Run(Initial, [P(BRACE_OPEN), S(key)])
         == Outcome(Config(OBJECT_KEY_SEPARATOR, [BEGIN]), [ObjectOpen, ObjectKey(Str(key))], None)
  {
    RunSingle(Initial, P(BRACE_OPEN));
    Accept([P(BRACE_OPEN)], Config(OBJECT_START, [BEGIN]), [ObjectOpen], S(key),
           Config(OBJECT_KEY_SEPARATOR, [BEGIN]), [ObjectKey(Str(key))]);
  }

  /** `{ key :`: the colon moves the parser to the member's value. */
  lemma ObjectKeyAndColon(key: string)
    ensures Run(Initial, [P(BRACE_OPEN), S(key), P(COLON)])
         == Outcome(Config(OBJECT_VALUE, [BEGIN]), [ObjectOpen, ObjectKey(Str(key))], None)
  {
    var p2 := [P(BRACE_OPEN), S(key)];
    OpenObjectWithKey(key);
    Accept(p2, Config(OBJECT_KEY_SEPARATOR, [BEGIN]), [ObjectOpen, ObjectKey(Str(key))], P(COLON),
           Config(OBJECT_VALUE, [BEGIN]), []);
    assert p2 + [P(COLON)] == [P(BRACE_OPEN), S(key), P(COLON)];
  }

  /** `{ key : v`: the first member is complete and a comma or `}` is due. */
  lemma ObjectMember(key: string, v: Scalar)
    ensures Run(Initial, [P(BRACE_OPEN), S(key), P(COLON), LiteralToken(v)])
         == Outcome(Config(OBJECT_VALUE_SEPARATOR, [BEGIN]), [ObjectOpen, ObjectKey(Str(key)), Value(v)], None)
  {
    var p3 := [P(BRACE_OPEN), S(key), P(COLON)];
    ObjectKeyAndColon(key);
    Accept(p3, Config(OBJECT_VALUE, [BEGIN]), [ObjectOpen, ObjectKey(Str(key))], LiteralToken(v),
           Config(OBJECT_VALUE_SEPARATOR, [BEGIN]), [Value(v)]);
    assert p3 + [LiteralToken(v)] == [P(BRACE_OPEN), S(key), P(COLON), LiteralToken(v)];
  }

  /** `[ v`: the array is open and its first element read. */
  lemma OpenArrayWithValue(v: Scalar)
    ensures Run(Initial, [P(BRACKET_OPEN), LiteralToken(v)])
         == Outcome(Config(ARRAY_VALUE_SEPARATOR, [BEGIN]), [ArrayOpen, Value(v)], None)
  {
    RunSingle(Initial, P(BRACKET_OPEN));
    Accept([P(BRACKET_OPEN)], Config(ARRAY_START, [BEGIN]), [ArrayOpen], LiteralToken(v),
           Config(ARRAY_VALUE_SEPARATOR, [BEGIN]), [Value(v)]);
  }

  /** `{` then any non-string literal: the key position rejects it, reported in OBJECT_KEY. */
  lemma NonStringKey(v: Scalar)
    requires !v.Str?
    ensures Run(Initial, [P(BRACE_OPEN), LiteralToken(v)]).error == Some(UnexpectedToken(LiteralType(v), Some(OBJECT_KEY)))
    ensures Message(UnexpectedToken(NUMBER_LITERAL, Some(OBJECT_KEY)))
         == "Unexpected token \"" + "NUMBER_LITERAL" + "\" in state \"" + "OBJECT_KEY" + "\"."
  {
    var c := Config(OBJECT_START, [BEGIN]);
    assert LiteralType(v) != STRING_LITERAL;
    assert Step(c, LiteralToken(v)) == Err(UnexpectedToken(LiteralType(v), Some(OBJECT_KEY)));
    RunSingle(Initial, P(BRACE_OPEN));
    Reject([P(BRACE_OPEN)], c, [ObjectOpen], LiteralToken(v),
           UnexpectedToken(LiteralType(v), Some(OBJECT_KEY)));
  }

  /** `{ key ,`: a comma where the colon belongs. */
  lemma CommaAfterObjectKey(key: string)
    ensures Run(Initial, [P(BRACE_OPEN), S(key), P(COMMA)]).error
         == Some(UnexpectedToken(COMMA, Some(OBJECT_KEY_SEPARATOR)))
    ensures Message(UnexpectedToken(COMMA, Some(OBJECT_KEY_SEPARATOR)))
         == "Unexpected token \"" + "COMMA" + "\" in state \"" + "OBJECT_KEY_SEPARATOR" + "\"."
  {
    OpenObjectWithKey(key);
    Reject([P(BRACE_OPEN), S(key)], Config(OBJECT_KEY_SEPARATOR, [BEGIN]), [ObjectOpen, ObjectKey(Str(key))],
           P(COMMA), UnexpectedToken(COMMA, Some(OBJECT_KEY_SEPARATOR)));
    assert [P(BRACE_OPEN), S(key)] + [P(COMMA)] == [P(BRACE_OPEN), S(key), P(COMMA)];
  }

  /** `{ key : v :`: a colon where a comma or `}` belongs. */
  lemma ColonAfterObjectValue(key: string, v: Scalar)
    ensures Run(Initial, [P(BRACE_OPEN), S(key), P(COLON), LiteralToken(v), P(COLON)]).error
         == Some(UnexpectedToken(COLON, Some(OBJECT_VALUE_SEPARATOR)))
    ensures Message(UnexpectedToken(COLON, Some(OBJECT_VALUE_SEPARATOR)))
         == "Unexpected token \"" + "COLON" + "\" in state \"" + "OBJECT_VALUE_SEPARATOR" + "\"."
  {
    ObjectMember(key, v);
    Reject([P(BRACE_OPEN), S(key), P(COLON), LiteralToken(v)], Config(OBJECT_VALUE_SEPARATOR, [BEGIN]),
           [ObjectOpen, ObjectKey(Str(key)), Value(v)], P(COLON), UnexpectedToken(COLON, Some(OBJECT_VALUE_SEPARATOR)));
    assert [P(BRACE_OPEN), S(key), P(COLON), LiteralToken(v)] + [P(COLON)]
        == [P(BRACE_OPEN), S(key), P(COLON), LiteralToken(v), P(COLON)];
  }

  /** `[ v :`: a colon inside an array. */
  lemma ColonAfterArrayValue(v: Scalar)
    ensures Run(Initial, [P(BRACKET_OPEN), LiteralToken(v), P(COLON)])
         == Outcome(Config(ARRAY_VALUE_SEPARATOR, [BEGIN]), [ArrayOpen, Value(v)],
                    Some(UnexpectedToken(COLON, Some(ARRAY_VALUE_SEPARATOR))))
    ensures Message(UnexpectedToken(COLON, Some(ARRAY_VALUE_SEPARATOR)))
         == "Unexpected token \"" + "COLON" + "\" in state \"" + "ARRAY_VALUE_SEPARATOR" + "\"."
  {
    OpenArrayWithValue(v);
    Reject([P(BRACKET_OPEN), LiteralToken(v)], Config(ARRAY_VALUE_SEPARATOR, [BEGIN]), [ArrayOpen, Value(v)],
           P(COLON), UnexpectedToken(COLON, Some(ARRAY_VALUE_SEPARATOR)));
    assert [P(BRACKET_OPEN), LiteralToken(v)] + [P(COLON)] == [P(BRACKET_OPEN), LiteralToken(v), P(COLON)];
  }

  /** A token that cannot start a value fails at top level with a message that names no state. */
  lemma InvalidStartingToken(t: Token)
    requires !StartsValue(t.kind)
    ensures Run(Initial, [t]) == Outcome(Initial, [], Some(UnexpectedToken(t.kind, None)))
    ensures Message(UnexpectedToken(t.kind, None)) == "Unexpected token \"" + Tokens.Label(t.kind) + "\"."
  {
    RunSingle(Initial, t);
  }

  /** Trailing commas are rejected: `[v,]` fails in ARRAY_VALUE. */
  lemma TrailingCommaInArray(v: Scalar)
    ensures Run(Initial, [P(BRACKET_OPEN), LiteralToken(v), P(COMMA), P(BRACKET_CLOSE)]).error
         == Some(UnexpectedToken(BRACKET_CLOSE, Some(ARRAY_VALUE)))
  {
    var p2 := [P(BRACKET_OPEN), LiteralToken(v)];
    var e2 := [ArrayOpen, Value(v)];
    OpenArrayWithValue(v);
    Accept(p2, Config(ARRAY_VALUE_SEPARATOR, [BEGIN]), e2, P(COMMA), Config(ARRAY_VALUE, [BEGIN]), []);
    Reject(p2 + [P(COMMA)], Config(ARRAY_VALUE, [BEGIN]), e2, P(BRACKET_CLOSE),
           UnexpectedToken(BRACKET_CLOSE, Some(ARRAY_VALUE)));
    assert p2 + [P(COMMA)] + [P(BRACKET_CLOSE)] == [P(BRACKET_OPEN), LiteralToken(v), P(COMMA), P(BRACKET_CLOSE)];
  }

  /** Trailing commas are rejected: `{key: v,}` fails in OBJECT_KEY. */
  lemma TrailingCommaInObject(key: string, v: Scalar)
    ensures Run(Initial, [P(BRACE_OPEN), S(key), P(COLON), LiteralToken(v), P(COMMA), P(BRACE_CLOSE)]).error
         == Some(UnexpectedToken(BRACE_CLOSE, Some(OBJECT_KEY)))
  {
    var p4 := [P(BRACE_OPEN), S(key), P(COLON), LiteralToken(v)];
    var e4 := [ObjectOpen, ObjectKey(Str(key)), Value(v)];
    ObjectMember(key, v);
    Accept(p4, Config(OBJECT_VALUE_SEPARATOR, [BEGIN]), e4, P(COMMA), Config(OBJECT_KEY, [BEGIN]), []);
    Reject(p4 + [P(COMMA)], Config(OBJECT_KEY, [BEGIN]), e4, P(BRACE_CLOSE),
           UnexpectedToken(BRACE_CLOSE, Some(OBJECT_KEY)));
    assert p4 + [P(COMMA)] + [P(BRACE_CLOSE)] == [P(BRACE_OPEN), S(key), P(COLON), LiteralToken(v), P(COMMA), P(BRACE_CLOSE)];
  }

  /**
   * A parser that failed is reset and fed a whole document: the events
   * logged before the failure stay, the document's events follow them,
   * and the parser finalizes without error.
   */
  method ResetAfterFailure(j: Json) returns (failure: Option<ParserError>, again: Option<ParserError>, log: seq<Event>, fin: Option<ParserError>)
    ensures failure == Some(UnexpectedToken(COLON, Some(ARRAY_VALUE_SEPARATOR)))
    ensures again.None?
    ensures log == [ArrayOpen, Value(Int(1))] + EventsOf(j)
    ensures fin.None?
  {
    var p := new TokenStreamParser();
    ColonAfterArrayValue(Int(1));
    failure := p.Feed([P(BRACKET_OPEN), N(1), P(COLON)]);
    p.Reset();
    WholeDocument(j);
    again := p.Feed(TokensOf(j));
    fin := p.Finalize();
    log := p.events;
  }
}
