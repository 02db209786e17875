/**
 * The token-stream parser as an object: a current grammar state, a stack
 * of resume states, and the log of events passed to `emit`, in order.
 * `Feed` loops over the tokens; each token either changes the state and
 * emits at most one event or is rejected with a parser error.
 */
module TokenStreamParsers {
  import opened Wrappers
  import opened ParserStates
  import opened Tokens
  import opened Grammar

  class TokenStreamParser {
    var state: ParserState
    var stack: seq<ParserState>
    /** Every event emitted so far, oldest first. */
    var events: seq<Event>

    ghost predicate Valid()
      reads this
    {
      WellFormed(Current())
    }

    /** The grammar configuration held in the fields. */
    function Current(): Config
      reads this
    {
      Config(state, stack)
    }

    constructor ()
      ensures Valid() && Current() == Initial && events == []
    {
      state := BEGIN;
      stack := [];
      events := [];
    }

    /** Back to the initial state for a new stream; events already emitted stay emitted. */
    method Reset()
      modifies this
      ensures Valid() && Current() == Initial && events == old(events)
    {
      state := BEGIN;
      stack := [];
    }

    method Emit(e: Event)
      modifies this
      ensures events == old(events) + [e] && Current() == old(Current())
    {
      events := events + [e];
    }

    /** Leaves the innermost container: its resume state becomes current. */
    method EndContainer(e: Event)
      requires stack != []
      modifies this
      ensures Current() == Close(old(stack), e).next && events == old(events) + [e]
    {
      state := stack[|stack| - 1];
      stack := stack[..|stack| - 1];
      Emit(e);
    }

    /** A token where a value may start; `at` is the position named in an error. */
    method DoValue(t: Token, at: ParserState) returns (err: Option<ParserError>)
      modifies this
      ensures StartValue(old(stack), at, t).Ok? ==>
                err.None? && Current() == StartValue(old(stack), at, t).value.next
                && events == old(events) + StartValue(old(stack), at, t).value.emitted
      ensures StartValue(old(stack), at, t).Err? ==>
                err == Some(StartValue(old(stack), at, t).error) && Current() == old(Current()) && events == old(events)
    {
      err := None;
      match t.kind {
        case BRACKET_OPEN =>
          stack := stack + [AfterValue(at)];
          state := ARRAY_START;
          Emit(ArrayOpen);
        case BRACE_OPEN =>
          stack := stack + [AfterValue(at)];
          state := OBJECT_START;
          Emit(ObjectOpen);
        case STRING_LITERAL =>
          state := AfterValue(at);
          Emit(Value(t.value));
        case NUMBER_LITERAL =>
          state := AfterValue(at);
          Emit(Value(t.value));
        case BOOLEAN_LITERAL =>
          state := AfterValue(at);
          Emit(Value(t.value));
        case NULL_LITERAL =>
          state := AfterValue(at);
          Emit(Value(t.value));
        case _ =>
          err := Some(UnexpectedToken(t.kind, if at == BEGIN then None else Some(at)));
      }
    }

    /** A token where an object key is expected. */
    method DoObjectKey(t: Token) returns (err: Option<ParserError>)
      modifies this
      ensures ReadKey(old(stack), t).Ok? ==>
                err.None? && Current() == ReadKey(old(stack), t).value.next
                && events == old(events) + ReadKey(old(stack), t).value.emitted
      ensures ReadKey(old(stack), t).Err? ==>
                err == Some(ReadKey(old(stack), t).error) && Current() == old(Current()) && events == old(events)
    {
      if t.kind == STRING_LITERAL {
        state := OBJECT_KEY_SEPARATOR;
        Emit(ObjectKey(t.value));
        err := None;
      } else {
        err := Some(UnexpectedToken(t.kind, Some(OBJECT_KEY)));
      }
    }

    /** One token, dispatched on the current state. */
    method FeedToken(t: Token) returns (err: Option<ParserError>)
      requires Valid()
      modifies this
      ensures Valid()
      ensures err == StepOutcome(old(Current()), t).error
      ensures Current() == StepOutcome(old(Current()), t).final
      ensures events == old(events) + StepOutcome(old(Current()), t).events
    {
      err := None;
      match state {
        case BEGIN =>
          err := DoValue(t, BEGIN);
        case ARRAY_START =>
          if t.kind == BRACKET_CLOSE {
            EndContainer(ArrayClose);
          } else {
            err := DoValue(t, ARRAY_VALUE);
          }
        case ARRAY_VALUE =>
          err := DoValue(t, ARRAY_VALUE);
        case ARRAY_VALUE_SEPARATOR =>
          if t.kind == COMMA {
            state := ARRAY_VALUE;
          } else if t.kind == BRACKET_CLOSE {
            EndContainer(ArrayClose);
          } else {
            err := Some(UnexpectedToken(t.kind, Some(ARRAY_VALUE_SEPARATOR)));
          }
        case OBJECT_START =>
          if t.kind == BRACE_CLOSE {
            EndContainer(ObjectClose);
          } else {
            err := DoObjectKey(t);
          }
        case OBJECT_KEY =>
          err := DoObjectKey(t);
        case OBJECT_KEY_SEPARATOR =>
          if t.kind == COLON {
            state := OBJECT_VALUE;
          } else {
            err := Some(UnexpectedToken(t.kind, Some(OBJECT_KEY_SEPARATOR)));
          }
        case OBJECT_VALUE =>
          err := DoValue(t, OBJECT_VALUE);
        case OBJECT_VALUE_SEPARATOR =>
          if t.kind == COMMA {
            state := OBJECT_KEY;
          } else if t.kind == BRACE_CLOSE {
            EndContainer(ObjectClose);
          } else {
            err := Some(UnexpectedToken(t.kind, Some(OBJECT_VALUE_SEPARATOR)));
          }
      }
    }

    /**
     * `feed(tokens)`: feeds each token in order, stopping at the first one
     * rejected; the new state and the emitted events are those of `Run`.
     */
    method Feed(tokens: seq<Token>) returns (err: Option<ParserError>)
      requires Valid()
      modifies this
      ensures Valid()
      ensures err == Run(old(Current()), tokens).error
      ensures Current() == Run(old(Current()), tokens).final
      ensures events == old(events) + Run(old(Current()), tokens).events
    {
      ghost var start := Current();
      ghost var emitted: seq<Event> := [];
      err := None;
      var i := 0;
      while i < |tokens|
        invariant 0 <= i <= |tokens|
        invariant Valid() && err.None?
        invariant events == old(events) + emitted
        invariant Run(start, tokens[..i]) == Outcome(Current(), emitted, None)
      {
        ghost var before := Current();
        RunPrefixStep(start, tokens, i, before, emitted);
        err := FeedToken(tokens[i]);
        emitted := emitted + StepOutcome(before, tokens[i]).events;
        if err.Some? {
          RunStopsAtError(start, tokens[..i + 1], tokens[i + 1..]);
          assert tokens[..i + 1] + tokens[i + 1..] == tokens;
          return;
        }
        i := i + 1;
      }
      assert tokens[..i] == tokens;
    }

    /** `finalize()`: fails when a container is still open, and changes nothing. */
    method Finalize() returns (err: Option<ParserError>)
      requires Valid()
      ensures err == Grammar.Finalize(Current())
      ensures err.None? <==> state == BEGIN && stack == []
    {
      if stack != [] {
        err := Some(StreamEndedUnexpectedly);
      } else {
        err := None;
      }
    }
  }
}
