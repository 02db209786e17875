/**
 * Structural soundness of the emitted events: replaying them as a stack
 * of open containers never closes the wrong kind of container, emits a
 * key only directly inside an object, and ends with exactly the
 * containers the parser still has open.
 */
module Nesting {
  import opened Wrappers
  import opened ParserStates
  import opened Tokens
  import opened Grammar

  /** One event applied to the stack of open container kinds; None when it does not fit. */
  function ReplayOne(open: seq<Scope>, e: Event): Option<seq<Scope>>
  {
    match e
    case ArrayOpen => Some(open + [InArray])
    case ObjectOpen => Some(open + [InObject])
    case ArrayClose =>
      if open != [] && open[|open| - 1] == InArray then Some(open[..|open| - 1]) else None
    case ObjectClose =>
      if open != [] && open[|open| - 1] == InObject then Some(open[..|open| - 1]) else None
    case ObjectKey(_) =>
      if open != [] && open[|open| - 1] == InObject then Some(open) else None
    case Value(_) => Some(open)
  }

  /** A whole event sequence replayed from the open containers `open`. */
  function Replay(open: seq<Scope>, evs: seq<Event>): Option<seq<Scope>>
    decreases |evs|
  {
    if evs == [] then Some(open)
    else
      match ReplayOne(open, evs[0])
      case None => None
      case Some(o) => Replay(o, evs[1..])
  }

  /**
   * The containers open in a configuration, outermost first: the kind of
   * each enclosing container is that of the state it resumes, and the
   * innermost is that of the current state.
   */
  function OpenContainers(c: Config): seq<Scope>
  {
    seq(|c.stack|, i requires 0 <= i < |c.stack| =>
      ScopeOf(if i + 1 < |c.stack| then c.stack[i + 1] else c.state))
  }

  lemma {:induction false} ReplayAppend(open: seq<Scope>, a: seq<Event>, b: seq<Event>)
    ensures Replay(open, a + b) == match Replay(open, a) case None => None case Some(o) => Replay(o, b)
    decreases |a|
  {
    if a == [] {
      assert a + b == b;
    } else {
      assert (a + b)[0] == a[0];
      assert (a + b)[1..] == a[1..] + b;
      match ReplayOne(open, a[0])
      case None =>
      case Some(o) => ReplayAppend(o, a[1..], b);
    }
  }

  /** A single accepted token keeps the events in step with the parser's open containers. */
  lemma StepReplays(c: Config, t: Token)
    requires WellFormed(c) && Step(c, t).Ok?
    ensures Replay(OpenContainers(c), Step(c, t).value.emitted) == Some(OpenContainers(Step(c, t).value.next))
  {
    StepFollowsTable(c, t);
    var tr := Step(c, t).value;
    var open, open' := OpenContainers(c), OpenContainers(tr.next);
    var n := |c.stack|;
    assert tr.emitted == [] || tr.emitted[1..] == [];
    if t.kind == BRACKET_OPEN || t.kind == BRACE_OPEN {
      assert ScopeOf(tr.next.state) == (if t.kind == BRACKET_OPEN then InArray else InObject);
      if n > 0 {
        assert ScopeOf(AfterValue(c.state)) == ScopeOf(c.state);
      }
      assert open' == open + [ScopeOf(tr.next.state)];
    } else if t.kind == BRACKET_CLOSE || t.kind == BRACE_CLOSE {
      assert open[n - 1] == ScopeOf(c.state) == (if t.kind == BRACKET_CLOSE then InArray else InObject);
      assert open' == open[..n - 1];
      assert ReplayOne(open, tr.emitted[0]) == Some(open');
    } else {
      assert ScopeOf(tr.next.state) == ScopeOf(c.state);
      assert open' == open;
    }
  }

  /** Every run keeps the events in step with the open containers. */
  lemma {:induction false} RunReplays(c: Config, ts: seq<Token>)
    requires WellFormed(c)
    ensures Replay(OpenContainers(c), Run(c, ts).events) == Some(OpenContainers(Run(c, ts).final))
    decreases |ts|
  {
    if ts != [] {
      match Step(c, ts[0])
      case Err(_) =>
      case Ok(tr) =>
        StepReplays(c, ts[0]);
        RunReplays(tr.next, ts[1..]);
        ReplayAppend(OpenContainers(c), tr.emitted, Run(tr.next, ts[1..]).events);
    }
  }

  /**
   * A token stream fed to a fresh parser that then finalizes without error
   * emitted balanced events: every close matches the kind of the latest
   * unclosed open, keys occur only directly inside objects, and nothing is
   * left open.
   */
  lemma BalancedDocument(ts: seq<Token>)
    requires Run(Initial, ts).error.None? && Finalize(Run(Initial, ts).final).None?
    ensures Replay([], Run(Initial, ts).events) == Some([])
  {
    RunReplays(Initial, ts);
    assert OpenContainers(Initial) == [];
    assert OpenContainers(Run(Initial, ts).final) == [];
  }
}
