/**
 * The grammar of the token-stream parser as a transition function.
 *
 * A configuration is the current grammar state plus a stack of resume
 * states: opening `[` or `{` pushes the state to return to once that
 * container closes, and the matching close pops it back into the current
 * state. Each accepted token emits at most one structural event.
 */
module Grammar {
  import opened Wrappers
  import opened ParserStates
  import opened Tokens

  /** The events passed to `emit`: value, array-open, array-close, object-open, object-key, object-close. */
  datatype Event =
    | Value(v: Scalar)
    | ArrayOpen
    | ArrayClose
    | ObjectOpen
    | ObjectKey(key: Scalar)
    | ObjectClose

  /** The event name given as the first argument of `emit`. */
  function EventName(e: Event): string
  {
    match e
    case Value(_) => "value"
    case ArrayOpen => "array-open"
    case ArrayClose => "array-close"
    case ObjectOpen => "object-open"
    case ObjectKey(_) => "object-key"
    case ObjectClose => "object-close"
  }

  /** The arguments passed to `emit` after the event name: the payload of a value or key, nothing otherwise. */
  function EmitArguments(e: Event): seq<Scalar>
  {
    match e
    case Value(v) => [v]
    case ObjectKey(k) => [k]
    case _ => []
  }

  /**
   * An `emit` call, name and arguments, identifies its event, so checking
   * the calls made in order is checking the events in order.
   */
  lemma EmitCallInjective(e: Event, e': Event)
    requires EventName(e) == EventName(e') && EmitArguments(e) == EmitArguments(e')
    ensures e == e'
  {
    if e.Value? || e.ObjectKey? {
      assert EmitArguments(e)[0] == EmitArguments(e')[0];
    }
  }

  /** A parser exception: a token illegal in a state (no state at top level), or an early end of stream. */
  datatype ParserError =
    | UnexpectedToken(token: TokenType, state: Option<ParserState>)
    | StreamEndedUnexpectedly

  /**
   * The exception message. An unexpected-token message is the prefix
   * `Unexpected token "`, the token type's label, a closing quote, and
   * the tail that names the state, if any.
   */
  function Message(e: ParserError): (r: string)
    ensures e.UnexpectedToken? ==>
              r == "Unexpected token \"" + (Tokens.Label(e.token) + ['"'] + TailAfterToken(e.state))
    ensures e.StreamEndedUnexpectedly? ==> '"' !in r
  {
    match e
    case UnexpectedToken(k, None) =>
      var p, l := "Unexpected token \"", Tokens.Label(k);
      assert "\"." == ['"'] + ".";
      assert p + l + (['"'] + ".") == p + (l + ['"'] + ".");
      p + l + "\"."
    case UnexpectedToken(k, Some(s)) =>
      var p, l, n := "Unexpected token \"", Tokens.Label(k), ParserStates.Label(s);
      var q, z := " in state \"", "\".";
      assert "\" in state \"" == ['"'] + q;
      Regroup(p, l, q, n, z);
      p + l + "\" in state \"" + n + "\"."
    case StreamEndedUnexpectedly =>
      "Token stream ended unexpectedly."
  }

  datatype Config = Config(state: ParserState, stack: seq<ParserState>)

  /** A fresh (or reset) parser. */
  const Initial := Config(BEGIN, [])

  /**
   * The configurations the parser can reach: the stack is empty exactly at
   * top level, its bottom resumes BEGIN, and every other entry resumes the
   * separator state of an enclosing array or object.
   */
  predicate WellFormed(c: Config)
  {
    (c.stack == [] <==> c.state == BEGIN)
    && (c.stack != [] ==> c.stack[0] == BEGIN)
    && forall i :: 1 <= i < |c.stack| ==>
         c.stack[i] == ARRAY_VALUE_SEPARATOR || c.stack[i] == OBJECT_VALUE_SEPARATOR
  }

  /** The state reached once a value completes at a position of scope `ScopeOf(s)`. */
  function AfterValue(s: ParserState): ParserState
  {
    match ScopeOf(s)
    case TopLevel => BEGIN
    case InArray => ARRAY_VALUE_SEPARATOR
    case InObject => OBJECT_VALUE_SEPARATOR
  }

  /** Token types that begin a value. */
  predicate StartsValue(k: TokenType)
  {
    k == BRACKET_OPEN || k == BRACE_OPEN || IsLiteral(k)
  }

  /** The grammar table: which token types each state accepts. */
  predicate Accepts(s: ParserState, k: TokenType)
  {
    match s
    case BEGIN => StartsValue(k)
    case ARRAY_START => StartsValue(k) || k == BRACKET_CLOSE
    case ARRAY_VALUE => StartsValue(k)
    case ARRAY_VALUE_SEPARATOR => k == COMMA || k == BRACKET_CLOSE
    case OBJECT_START => k == STRING_LITERAL || k == BRACE_CLOSE
    case OBJECT_KEY => k == STRING_LITERAL
    case OBJECT_KEY_SEPARATOR => k == COLON
    case OBJECT_VALUE => StartsValue(k)
    case OBJECT_VALUE_SEPARATOR => k == COMMA || k == BRACE_CLOSE
  }

  /**
   * The state an error message names: none at top level, OBJECT_KEY for a
   * bad token just after `{`, ARRAY_VALUE for one just after `[`, and the
   * current state otherwise.
   */
  function ReportedState(s: ParserState): Option<ParserState>
  {
    match s
    case BEGIN => None
    case ARRAY_START => Some(ARRAY_VALUE)
    case OBJECT_START => Some(OBJECT_KEY)
    case _ => Some(s)
  }

  /** The events an accepted token emits in state `s`. */
  function EventsFor(s: ParserState, t: Token): seq<Event>
  {
    match t.kind
    case BRACKET_OPEN => [ArrayOpen]
    case BRACE_OPEN => [ObjectOpen]
    case BRACKET_CLOSE => [ArrayClose]
    case BRACE_CLOSE => [ObjectClose]
    case COLON => []
    case COMMA => []
    case _ => if s == OBJECT_START || s == OBJECT_KEY then [ObjectKey(t.value)] else [Value(t.value)]
  }

  datatype Transition = Transition(next: Config, emitted: seq<Event>)

  /** A token in a value position `at`, inside the containers recorded by `stack`. */
  function StartValue(stack: seq<ParserState>, at: ParserState, t: Token): Result<Transition, ParserError>
  {
    match t.kind
    case BRACKET_OPEN => Ok(Transition(Config(ARRAY_START, stack + [AfterValue(at)]), [ArrayOpen]))
    case BRACE_OPEN => Ok(Transition(Config(OBJECT_START, stack + [AfterValue(at)]), [ObjectOpen]))
    case STRING_LITERAL => Ok(Transition(Config(AfterValue(at), stack), [Value(t.value)]))
    case NUMBER_LITERAL => Ok(Transition(Config(AfterValue(at), stack), [Value(t.value)]))
    case BOOLEAN_LITERAL => Ok(Transition(Config(AfterValue(at), stack), [Value(t.value)]))
    case NULL_LITERAL => Ok(Transition(Config(AfterValue(at), stack), [Value(t.value)]))
    case _ => Err(UnexpectedToken(t.kind, if at == BEGIN then None else Some(at)))
  }

  /** A token where an object key is expected. */
  function ReadKey(stack: seq<ParserState>, t: Token): Result<Transition, ParserError>
  {
    if t.kind == STRING_LITERAL then Ok(Transition(Config(OBJECT_KEY_SEPARATOR, stack), [ObjectKey(t.value)]))
    else Err(UnexpectedToken(t.kind, Some(OBJECT_KEY)))
  }

  /** Closing the innermost container: pop its resume state and emit `e`. */
  function Close(stack: seq<ParserState>, e: Event): Transition
    requires stack != []
  {
    Transition(Config(stack[|stack| - 1], stack[..|stack| - 1]), [e])
  }

  /** One token fed to the parser in configuration `c`. */
  function Step(c: Config, t: Token): (r: Result<Transition, ParserError>)
    requires WellFormed(c)
    ensures r.Ok? ==> WellFormed(r.value.next)
    ensures r.Ok? ==> |r.value.emitted| <= 1
  {
    match c.state
    case BEGIN => StartValue(c.stack, BEGIN, t)
    case ARRAY_START =>
      if t.kind == BRACKET_CLOSE then Ok(Close(c.stack, ArrayClose))
      else StartValue(c.stack, ARRAY_VALUE, t)
    case ARRAY_VALUE => StartValue(c.stack, ARRAY_VALUE, t)
    case ARRAY_VALUE_SEPARATOR =>
      if t.kind == COMMA then Ok(Transition(Config(ARRAY_VALUE, c.stack), []))
      else if t.kind == BRACKET_CLOSE then Ok(Close(c.stack, ArrayClose))
      else Err(UnexpectedToken(t.kind, Some(ARRAY_VALUE_SEPARATOR)))
    case OBJECT_START =>
      if t.kind == BRACE_CLOSE then Ok(Close(c.stack, ObjectClose))
      else ReadKey(c.stack, t)
    case OBJECT_KEY => ReadKey(c.stack, t)
    case OBJECT_KEY_SEPARATOR =>
      if t.kind == COLON then Ok(Transition(Config(OBJECT_VALUE, c.stack), []))
      else Err(UnexpectedToken(t.kind, Some(OBJECT_KEY_SEPARATOR)))
    case OBJECT_VALUE => StartValue(c.stack, OBJECT_VALUE, t)
    case OBJECT_VALUE_SEPARATOR =>
      if t.kind == COMMA then Ok(Transition(Config(OBJECT_KEY, c.stack), []))
      else if t.kind == BRACE_CLOSE then Ok(Close(c.stack, ObjectClose))
      else Err(UnexpectedToken(t.kind, Some(OBJECT_VALUE_SEPARATOR)))
  }

  /**
   * The transition function follows the grammar table: it accepts exactly
   * the tokens `Accepts` lists, names the state `ReportedState` gives when
   * it rejects one, emits the token's event, pushes one resume state per
   * open and pops one per close, and leaves the stack alone otherwise.
   */
  lemma StepFollowsTable(c: Config, t: Token)
    requires WellFormed(c)
    ensures Step(c, t).Ok? <==> Accepts(c.state, t.kind)
    ensures Step(c, t).Err? ==> Step(c, t).error == UnexpectedToken(t.kind, ReportedState(c.state))
    ensures Step(c, t).Ok? ==> Step(c, t).value.emitted == EventsFor(c.state, t)
    ensures Step(c, t).Ok? && (t.kind == BRACKET_OPEN || t.kind == BRACE_OPEN) ==>
              Step(c, t).value.next.stack == c.stack + [AfterValue(c.state)]
    ensures Step(c, t).Ok? && (t.kind == BRACKET_CLOSE || t.kind == BRACE_CLOSE) ==>
              |c.stack| > 0 && Step(c, t).value.next == Config(c.stack[|c.stack| - 1], c.stack[..|c.stack| - 1])
    ensures Step(c, t).Ok? && !(t.kind in {BRACKET_OPEN, BRACE_OPEN, BRACKET_CLOSE, BRACE_CLOSE}) ==>
              Step(c, t).value.next.stack == c.stack
  {
  }

  /** What feeding a token sequence produces: the last configuration, the events, and the error if one stopped it. */
  datatype Outcome = Outcome(final: Config, events: seq<Event>, error: Option<ParserError>)

  /**
   * Feeding one token in configuration `c`: the next configuration and the
   * events it emits, or the error rejecting it, with `c` left as it was.
   */
  function StepOutcome(c: Config, t: Token): (o: Outcome)
    requires WellFormed(c)
    ensures WellFormed(o.final)
  {
    match Step(c, t)
    case Err(e) => Outcome(c, [], Some(e))
    case Ok(tr) => Outcome(tr.next, tr.emitted, None)
  }

  /**
   * Feeding tokens one by one from `c`; the first rejected token stops the
   * run, leaving the configuration in which it was rejected.
   */
  function Run(c: Config, ts: seq<Token>): (o: Outcome)
    requires WellFormed(c)
    ensures WellFormed(o.final)
    decreases |ts|, 1
  {
    if ts == [] then Outcome(c, [], None) else RunFrom(c, ts[0], ts[1..])
  }

  /** Feeding `t` and then, unless it was rejected, the tokens in `rest`. */
  function RunFrom(c: Config, t: Token, rest: seq<Token>): (o: Outcome)
    requires WellFormed(c)
    ensures WellFormed(o.final)
    decreases |rest| + 1, 0
  {
    var first := StepOutcome(c, t);
    if first.error.Some? then first
    else
      var more := Run(first.final, rest);
      Outcome(more.final, first.events + more.events, more.error)
  }

  /**
   * Each token emits at most one event, and feeding tokens can only fail
   * with an unexpected-token error (an early end is reported by `Finalize`).
   */
  lemma {:induction false} RunBounds(c: Config, ts: seq<Token>)
    requires WellFormed(c)
    ensures |Run(c, ts).events| <= |ts|
    ensures Run(c, ts).error.Some? ==> Run(c, ts).error.value.UnexpectedToken?
    decreases |ts|
  {
    if ts != [] {
      StepFollowsTable(c, ts[0]);
      match Step(c, ts[0])
      case Err(_) =>
      case Ok(tr) => RunBounds(tr.next, ts[1..]);
    }
  }

  /** `finalize()`: it fails exactly when a container is still open. */
  function Finalize(c: Config): (r: Option<ParserError>)
    requires WellFormed(c)
    ensures r.None? <==> c.state == BEGIN
    ensures r.Some? ==> r.value == StreamEndedUnexpectedly
  {
    if c.stack == [] then None else Some(StreamEndedUnexpectedly)
  }

  /** Continuing an outcome with more tokens, unless it already failed. */
  function Then(o: Outcome, ts: seq<Token>): Outcome
    requires WellFormed(o.final)
  {
    if o.error.Some? then o
    else
      var p := Run(o.final, ts);
      Outcome(p.final, o.events + p.events, p.error)
  }

  /** Feeding `a` then `b` is feeding `a + b`: chunking the token stream does not change the result. */
  lemma {:induction false} RunAppend(c: Config, a: seq<Token>, b: seq<Token>)
    requires WellFormed(c)
    ensures Run(c, a + b) == Then(Run(c, a), b)
    decreases |a|
  {
    if a == [] {
      assert a + b == b;
      assert [] + Run(c, b).events == Run(c, b).events;
    } else {
      assert (a + b)[0] == a[0];
      assert (a + b)[1..] == a[1..] + b;
      var first := StepOutcome(c, a[0]);
      if first.error.None? {
        RunAppend(first.final, a[1..], b);
        var o := Run(first.final, a[1..]);
        if o.error.None? {
          var p := Run(o.final, b);
          assert first.events + (o.events + p.events) == (first.events + o.events) + p.events;
        }
      }
    }
  }

  /** Feeding `a` and then `b`, when feeding `a` succeeds. */
  lemma RunConcat(c: Config, a: seq<Token>, b: seq<Token>, mid: Config, e1: seq<Event>, o: Outcome)
    requires WellFormed(c) && WellFormed(mid)
    requires Run(c, a) == Outcome(mid, e1, None) && Run(mid, b) == o
    ensures Run(c, a + b) == Outcome(o.final, e1 + o.events, o.error)
  {
    RunAppend(c, a, b);
  }

  /** Feeding a single token. */
  lemma RunSingle(c: Config, t: Token)
    requires WellFormed(c)
    ensures Step(c, t).Err? ==> Run(c, [t]) == Outcome(c, [], Some(Step(c, t).error))
    ensures Step(c, t).Ok? ==> Run(c, [t]) == Outcome(Step(c, t).value.next, Step(c, t).value.emitted, None)
    ensures Run(c, [t]) == StepOutcome(c, t)
  {
    assert [t][0] == t && [t][1..] == [];
    var first := StepOutcome(c, t);
    assert Run(c, [t]) == RunFrom(c, t, []);
    if first.error.None? {
      assert first.events + [] == first.events;
    }
  }

  /**
   * Feeding one more token after a prefix that was accepted, stated on the
   * slices `ts[..i]` that the loop in `Feed` advances over.
   */
  lemma RunExtend(c: Config, ts: seq<Token>, i: nat)
    requires WellFormed(c) && i < |ts|
    ensures Run(c, ts[..i + 1]) == Then(Run(c, ts[..i]), [ts[i]])
  {
    var p, q := ts[..i], ts[..i + 1];
    assert p + [ts[i]] == q;
    RunAppend(c, p, [ts[i]]);
  }

  /** Feeding one more token after an accepted prefix whose outcome is known. */
  lemma RunPrefixStep(c: Config, ts: seq<Token>, i: nat, mid: Config, evs: seq<Event>)
    requires WellFormed(c) && WellFormed(mid) && i < |ts|
    requires Run(c, ts[..i]) == Outcome(mid, evs, None)
    ensures var o := StepOutcome(mid, ts[i]);
            Run(c, ts[..i + 1]) == Outcome(o.final, evs + o.events, o.error)
  {
    RunExtend(c, ts, i);
    RunSingle(mid, ts[i]);
  }

  /**
   * A stream that is accepted has its prefix one token shorter accepted too.
   * This lemma and the next are stated on `pre + [t]` rather than on slices,
   * for induction that takes a stream apart from its end.
   */
  lemma AcceptedPrefix(c: Config, pre: seq<Token>, t: Token)
    requires WellFormed(c) && Run(c, pre + [t]).error.None?
    ensures Run(c, pre).error.None?
  {
    RunAppend(c, pre, [t]);
  }

  /** The outcome of a stream is that of its prefix followed by one step on the last token. */
  lemma AfterPrefix(c: Config, pre: seq<Token>, t: Token, mid: Config, evs: seq<Event>)
    requires WellFormed(c) && WellFormed(mid)
    requires Run(c, pre) == Outcome(mid, evs, None)
    ensures var o := StepOutcome(mid, t);
            Run(c, pre + [t]) == Outcome(o.final, evs + o.events, o.error)
  {
    RunAppend(c, pre, [t]);
    RunSingle(mid, t);
  }

  /** The parser reads a punctuation token's type and never its payload. */
  lemma StepIgnoresPunctuationPayload(c: Config, t: Token)
    requires WellFormed(c)
    ensures Step(c, t) == Step(c, Normalise(t))
  {
  }

  /** Feeding a stream is feeding it with every punctuation payload normalised. */
  lemma {:induction false} RunNormalised(c: Config, ts: seq<Token>)
    requires WellFormed(c)
    ensures Run(c, NormaliseAll(ts)) == Run(c, ts)
    decreases |ts|
  {
    if ts != [] {
      var n := NormaliseAll(ts);
      assert n[0] == Normalise(ts[0]);
      assert n[1..] == NormaliseAll(ts[1..]);
      StepIgnoresPunctuationPayload(c, ts[0]);
      if Step(c, ts[0]).Ok? {
        RunNormalised(Step(c, ts[0]).value.next, ts[1..]);
      }
    }
  }

  /** Once a token is rejected, the tokens after it make no difference. */
  lemma RunStopsAtError(c: Config, a: seq<Token>, b: seq<Token>)
    requires WellFormed(c) && Run(c, a).error.Some?
    ensures Run(c, a + b) == Run(c, a)
  {
    RunAppend(c, a, b);
  }

  /** The index of the first quote character in a string (its length when there is none). */
  function FirstQuote(w: string): (n: nat)
    ensures n <= |w|
  {
    if w == [] || w[0] == '"' then 0 else 1 + FirstQuote(w[1..])
  }

  lemma {:induction false} FirstQuoteAfter(x: string, y: string)
    requires '"' !in x
    ensures FirstQuote(x + ['"'] + y) == |x|
    decreases |x|
  {
    var w := x + ['"'] + y;
    if x != [] {
      assert w[1..] == x[1..] + ['"'] + y;
      FirstQuoteAfter(x[1..], y);
    }
  }

  /** Two strings each cut at their first quote character cut the same way. */
  lemma SplitAtQuote(x: string, y: string, x': string, y': string)
    requires '"' !in x && '"' !in x'
    requires x + ['"'] + y == x' + ['"'] + y'
    ensures x == x' && y == y'
  {
    var w := x + ['"'] + y;
    FirstQuoteAfter(x, y);
    FirstQuoteAfter(x', y');
    assert x == w[..|x|] && x' == w[..|x|];
    assert y == w[|x| + 1..] && y' == w[|x| + 1..];
  }

  /** Dropping a common prefix. */
  lemma DropPrefix(p: string, a: string, b: string)
    requires p + a == p + b
    ensures a == b
  {
    assert a == (p + a)[|p|..] && b == (p + b)[|p|..];
  }

  /** The message's text after the token label and its closing quote. */
  function TailAfterToken(st: Option<ParserState>): string
  {
    match st
    case None => "."
    case Some(s) => " in state \"" + ParserStates.Label(s) + "\"."
  }

  /** Moving the parentheses in a five-part message. */
  lemma Regroup(p: string, l: string, q: string, r: string, z: string)
    ensures p + l + (['"'] + q) + r + z == p + (l + ['"'] + (q + r + z))
  {
  }

  /** The tail tells whether a state is named, and which. */
  lemma {:induction false} TailInjective(st: Option<ParserState>, st': Option<ParserState>)
    requires TailAfterToken(st) == TailAfterToken(st')
    ensures st == st'
  {
    assert TailAfterToken(st)[0] == TailAfterToken(st')[0];
    assert st.None? == st'.None?;
    if st.Some? {
      var s, s' := st.value, st'.value;
      var q := " in state \"";
      assert TailAfterToken(st) == q + (ParserStates.Label(s) + ['"'] + ".");
      assert TailAfterToken(st') == q + (ParserStates.Label(s') + ['"'] + ".");
      DropPrefix(q, ParserStates.Label(s) + ['"'] + ".", ParserStates.Label(s') + ['"'] + ".");
      SplitAtQuote(ParserStates.Label(s), ".", ParserStates.Label(s'), ".");
      ParserStates.LabelInjective(s, s');
    }
  }

  /**
   * The message determines the error: distinct token types, distinct states,
   * and the presence or absence of a state all read differently.
   */
  lemma {:induction false} MessageInjective(e: ParserError, e': ParserError)
    requires Message(e) == Message(e')
    ensures e == e'
  {
    assert Message(e)[0] == Message(e')[0];
    assert e.StreamEndedUnexpectedly? == e'.StreamEndedUnexpectedly?;
    if e.UnexpectedToken? {
      var k, st, k', st' := e.token, e.state, e'.token, e'.state;
      DropPrefix("Unexpected token \"", Tokens.Label(k) + ['"'] + TailAfterToken(st), Tokens.Label(k') + ['"'] + TailAfterToken(st'));
      SplitAtQuote(Tokens.Label(k), TailAfterToken(st), Tokens.Label(k'), TailAfterToken(st'));
      TailInjective(st, st');
      Tokens.LabelInjective(k, k');
    }
  }
}
