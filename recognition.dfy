/**
 * Soundness of the parser against the JSON grammar: a stream that a
 * fresh parser accepts and then finalizes without error is, with its
 * punctuation payloads normalised, a sequence of complete documents, one
 * after the other, and the events emitted are theirs. Literal tokens must
 * carry payloads of their own type.
 *
 * The proof reads the stream token by token while tracking the documents
 * already complete and the containers still open: each open container
 * holds its completed elements and whatever of the next element has been
 * read so far (a comma, a key, a key and its colon).
 */
module Recognition {
  import opened Wrappers
  import opened ParserStates
  import opened Tokens
  import opened Grammar
  import opened Documents

  /** What an open object has read after its completed members. */
  datatype Pending = NoKey | Comma | Key(name: string) | KeyColon(name: string)

  /** A container that is still open. */
  datatype Frame =
    | OpenArray(items: seq<Json>, comma: bool)
    | OpenObject(members: seq<Member>, pending: Pending)

  /** A comma comes only after a completed element. */
  predicate FrameOk(f: Frame)
  {
    match f
    case OpenArray(items, comma) => comma ==> items != []
    case OpenObject(ms, p) => p.Comma? ==> ms != []
  }

  /** The grammar state in which the parser reads on inside an open container. */
  function StateOf(f: Frame): ParserState
  {
    match f
    case OpenArray(items, comma) =>
      if comma then ARRAY_VALUE else if items == [] then ARRAY_START else ARRAY_VALUE_SEPARATOR
    case OpenObject(ms, p) =>
      match p
      case NoKey => if ms == [] then OBJECT_START else OBJECT_VALUE_SEPARATOR
      case Comma => OBJECT_KEY
      case Key(_) => OBJECT_KEY_SEPARATOR
      case KeyColon(_) => OBJECT_VALUE
  }

  /** The state pushed for a container when another opens inside it. */
  function ResumeOf(f: Frame): ParserState
  {
    if f.OpenArray? then ARRAY_VALUE_SEPARATOR else OBJECT_VALUE_SEPARATOR
  }

  /** A container in which an element is due: only those can enclose another open container. */
  predicate AwaitsValue(f: Frame)
  {
    FrameOk(f) && ValuePosition(StateOf(f))
  }

  /** The open containers, innermost on top. */
  datatype Nest = Outside | Inside(outer: Nest, inner: Frame)

  /** The resume states of the containers of a nest, outermost first. */
  function Resumes(n: Nest): (r: seq<ParserState>)
    ensures forall i :: 0 <= i < |r| ==> r[i] == ARRAY_VALUE_SEPARATOR || r[i] == OBJECT_VALUE_SEPARATOR
  {
    match n
    case Outside => []
    case Inside(outer, f) => Resumes(outer) + [ResumeOf(f)]
  }

  /** Open containers that each await an element. */
  predicate Parents(n: Nest)
  {
    match n
    case Outside => true
    case Inside(outer, f) => Parents(outer) && AwaitsValue(f)
  }

  /** A nest as the parser builds it: the innermost container may be anywhere in its grammar. */
  predicate Building(n: Nest)
  {
    match n
    case Outside => true
    case Inside(outer, f) => Parents(outer) && FrameOk(f)
  }

  /** The parser configuration that corresponds to a nest of open containers. */
  function ConfigOf(n: Nest): (c: Config)
    ensures WellFormed(c)
  {
    match n
    case Outside => Initial
    case Inside(outer, f) =>
      var stack := [BEGIN] + Resumes(outer);
      assert forall i :: 1 <= i < |stack| ==> stack[i] == Resumes(outer)[i - 1];
      Config(StateOf(f), stack)
  }

  function Separator(ms: seq<Member>): seq<Token>
  {
    if ms == [] then [] else [Punctuation(COMMA)]
  }

  /** The tokens read of an object's unfinished member. */
  function PendingTokens(ms: seq<Member>, p: Pending): seq<Token>
  {
    match p
    case NoKey => []
    case Comma => [Punctuation(COMMA)]
    case Key(k) => Separator(ms) + [KeyToken(k)]
    case KeyColon(k) => Separator(ms) + [KeyToken(k), Punctuation(COLON)]
  }

  /** The tokens read of an open container. */
  function FrameTokens(f: Frame): seq<Token>
  {
    match f
    case OpenArray(items, comma) =>
      [Punctuation(BRACKET_OPEN)] + ItemsTokens(items) + (if comma then [Punctuation(COMMA)] else [])
    case OpenObject(ms, p) =>
      [Punctuation(BRACE_OPEN)] + MembersTokens(ms) + PendingTokens(ms, p)
  }

  /** The events emitted so far for an open container. */
  function FrameEvents(f: Frame): seq<Event>
  {
    match f
    case OpenArray(items, _) => [ArrayOpen] + ItemsEvents(items)
    case OpenObject(ms, p) =>
      [ObjectOpen] + MembersEvents(ms) + (if p.Key? || p.KeyColon? then [ObjectKey(Str(p.name))] else [])
  }

  function NestTokens(n: Nest): seq<Token>
  {
    match n
    case Outside => []
    case Inside(outer, f) => NestTokens(outer) + FrameTokens(f)
  }

  function NestEvents(n: Nest): seq<Event>
  {
    match n
    case Outside => []
    case Inside(outer, f) => NestEvents(outer) + FrameEvents(f)
  }

  /** The tokens of documents one after the other. */
  function DocumentsTokens(js: seq<Json>): seq<Token>
    decreases |js|
  {
    if js == [] then [] else DocumentsTokens(js[..|js| - 1]) + TokensOf(js[|js| - 1])
  }

  /** The events of documents one after the other. */
  function DocumentsEvents(js: seq<Json>): seq<Event>
    decreases |js|
  {
    if js == [] then [] else DocumentsEvents(js[..|js| - 1]) + EventsOf(js[|js| - 1])
  }

  /** How far a stream has been read: the complete documents, then the containers still open. */
  datatype Reading = Reading(done: seq<Json>, open: Nest)

  function TokensRead(r: Reading): seq<Token>
  {
    DocumentsTokens(r.done) + NestTokens(r.open)
  }

  function EventsRead(r: Reading): seq<Event>
  {
    DocumentsEvents(r.done) + NestEvents(r.open)
  }

  lemma PushDocument(js: seq<Json>, j: Json)
    ensures DocumentsTokens(js + [j]) == DocumentsTokens(js) + TokensOf(j)
    ensures DocumentsEvents(js + [j]) == DocumentsEvents(js) + EventsOf(j)
  {
    assert (js + [j])[..|js|] == js;
  }

  /** Moving the parentheses in a three-part concatenation extended at its end. */
  lemma Regroup3<T>(a: seq<T>, b: seq<T>, c: seq<T>, d: seq<T>)
    ensures a + (b + (c + d)) == a + (b + c) + d
  {
  }

  /** Flattening a concatenation nested on the right. */
  lemma Shift<T>(a: seq<T>, b: seq<T>, c: seq<T>, d: seq<T>)
    ensures a + (b + c + d) == a + b + c + d
    ensures a + (b + c + d) + [] == a + b + c + d
  {
  }

  /** The regrouping that completing an object member needs. */
  lemma Shift5<T>(a: seq<T>, b: seq<T>, c: seq<T>, d: seq<T>, e: seq<T>)
    ensures a + (b + c + (d + e)) + [] == a + b + (c + d) + e
  {
  }

  /** Completing the innermost part of a three-part concatenation extends the whole by the same tokens. */
  lemma Rejoin<T>(a: seq<T>, b: seq<T>, c: seq<T>, d: seq<T>, before: seq<T>, after: seq<T>)
    requires before == a + (b + c) && after == a + b + (c + d)
    ensures after == before + d
  {
  }

  /** The state pushed for a container is the one a completed element leads to in it. */
  lemma ResumeAfterValue(f: Frame)
    ensures ResumeOf(f) == AfterValue(StateOf(f))
  {
  }

  /** The configuration inside the enclosing containers, seen from the innermost one. */
  lemma Enclosing(n: Nest, f: Frame)
    ensures var c := ConfigOf(Inside(n, f));
            c.stack != [] && c.stack[|c.stack| - 1] == AfterValue(ConfigOf(n).state)
            && c.stack[..|c.stack| - 1] == ConfigOf(n).stack
  {
    match n
    case Outside =>
      assert ConfigOf(Inside(n, f)).stack == [BEGIN];
    case Inside(outer, g) =>
      ResumeAfterValue(g);
      assert ConfigOf(Inside(n, f)).stack == ([BEGIN] + Resumes(outer)) + [ResumeOf(g)];
  }

  /** An element appended to an array. */
  lemma AppendItem(items: seq<Json>, j: Json)
    ensures ItemsTokens(items + [j])
         == ItemsTokens(items) + (if items == [] then [] else [Punctuation(COMMA)]) + TokensOf(j)
    ensures ItemsEvents(items + [j]) == ItemsEvents(items) + EventsOf(j)
  {
    AppendItemTokens(items, j);
    AppendItemEvents(items, j);
  }

  lemma AppendItemTokens(items: seq<Json>, j: Json)
    ensures ItemsTokens(items + [j])
         == ItemsTokens(items) + (if items == [] then [] else [Punctuation(COMMA)]) + TokensOf(j)
  {
    if items == [] {
      assert [j][0] == j && [j][1..] == [];
    } else {
      var rest := items[1..];
      assert (items + [j])[0] == items[0] && (items + [j])[1..] == rest + [j];
      AppendMoreItem(rest, j);
      Shift(TokensOf(items[0]), MoreItemsTokens(rest), [Punctuation(COMMA)], TokensOf(j));
    }
  }

  lemma {:induction false} AppendMoreItem(items: seq<Json>, j: Json)
    ensures MoreItemsTokens(items + [j]) == MoreItemsTokens(items) + [Punctuation(COMMA)] + TokensOf(j)
    decreases |items|
  {
    if items == [] {
      assert [j][0] == j && [j][1..] == [];
    } else {
      var rest := items[1..];
      assert (items + [j])[0] == items[0] && (items + [j])[1..] == rest + [j];
      AppendMoreItem(rest, j);
      Shift([Punctuation(COMMA)] + TokensOf(items[0]), MoreItemsTokens(rest), [Punctuation(COMMA)], TokensOf(j));
    }
  }

  lemma {:induction false} AppendItemEvents(items: seq<Json>, j: Json)
    ensures ItemsEvents(items + [j]) == ItemsEvents(items) + EventsOf(j)
    decreases |items|
  {
    if items == [] {
      assert [j][1..] == [];
    } else {
      assert (items + [j])[1..] == items[1..] + [j];
      AppendItemEvents(items[1..], j);
    }
  }

  /** A member appended to an object. */
  lemma AppendMember(ms: seq<Member>, m: Member)
    ensures MembersTokens(ms + [m]) == MembersTokens(ms) + Separator(ms) + MemberTokens(m)
    ensures MembersEvents(ms + [m]) == MembersEvents(ms) + [ObjectKey(Str(m.key))] + EventsOf(m.val)
  {
    AppendMemberTokens(ms, m);
    AppendMemberEvents(ms, m);
  }

  lemma AppendMemberTokens(ms: seq<Member>, m: Member)
    ensures MembersTokens(ms + [m]) == MembersTokens(ms) + Separator(ms) + MemberTokens(m)
  {
    if ms == [] {
      assert [m][0] == m && [m][1..] == [];
    } else {
      var rest := ms[1..];
      assert (ms + [m])[0] == ms[0] && (ms + [m])[1..] == rest + [m];
      AppendMoreMember(rest, m);
      Shift(MemberTokens(ms[0]), MoreMembersTokens(rest), [Punctuation(COMMA)], MemberTokens(m));
    }
  }

  lemma {:induction false} AppendMemberEvents(ms: seq<Member>, m: Member)
    ensures MembersEvents(ms + [m]) == MembersEvents(ms) + [ObjectKey(Str(m.key))] + EventsOf(m.val)
    decreases |ms|
  {
    if ms == [] {
      assert [m][1..] == [];
    } else {
      assert (ms + [m])[1..] == ms[1..] + [m];
      AppendMemberEvents(ms[1..], m);
    }
  }

  lemma {:induction false} AppendMoreMember(ms: seq<Member>, m: Member)
    ensures MoreMembersTokens(ms + [m]) == MoreMembersTokens(ms) + [Punctuation(COMMA)] + MemberTokens(m)
    decreases |ms|
  {
    if ms == [] {
      assert [m][0] == m && [m][1..] == [];
    } else {
      var rest := ms[1..];
      assert (ms + [m])[0] == ms[0] && (ms + [m])[1..] == rest + [m];
      AppendMoreMember(rest, m);
      Shift([Punctuation(COMMA)] + MemberTokens(ms[0]), MoreMembersTokens(rest), [Punctuation(COMMA)], MemberTokens(m));
    }
  }

  /** A completed element placed where it belongs: in the innermost container, or after the complete documents. */
  function Complete(r: Reading, j: Json): Reading
    requires r.open.Inside? ==> AwaitsValue(r.open.inner)
  {
    match r.open
    case Outside => Reading(r.done + [j], Outside)
    case Inside(outer, f) =>
      match f
      case OpenArray(items, _) => Reading(r.done, Inside(outer, OpenArray(items + [j], false)))
      case OpenObject(ms, p) => Reading(r.done, Inside(outer, OpenObject(ms + [Member(p.name, j)], NoKey)))
  }

  /** Completing an element leaves the state a completed value leads to. */
  lemma CompleteMoves(r: Reading, j: Json)
    requires Building(r.open) && (r.open.Inside? ==> AwaitsValue(r.open.inner))
    ensures Building(Complete(r, j).open)
    ensures ConfigOf(Complete(r, j).open) == Config(AfterValue(ConfigOf(r.open).state), ConfigOf(r.open).stack)
  {
  }

  /** Completing an element reads its tokens and emits its events. */
  lemma CompleteReads(r: Reading, j: Json)
    requires Building(r.open) && (r.open.Inside? ==> AwaitsValue(r.open.inner))
    ensures TokensRead(Complete(r, j)) == TokensRead(r) + TokensOf(j)
    ensures EventsRead(Complete(r, j)) == EventsRead(r) + EventsOf(j)
  {
    match r.open
    case Outside =>
      PushDocument(r.done, j);
    case Inside(outer, f) =>
      var f' := Complete(r, j).open.inner;
      assert Complete(r, j) == Reading(r.done, Inside(outer, f'));
      assert TokensRead(Complete(r, j)) == TokensRead(r) + TokensOf(j) by {
        CompleteFrame(f, j);
        Regroup3(DocumentsTokens(r.done), NestTokens(outer), FrameTokens(f), TokensOf(j));
      }
      assert EventsRead(Complete(r, j)) == EventsRead(r) + EventsOf(j) by {
        CompleteFrame(f, j);
        Regroup3(DocumentsEvents(r.done), NestEvents(outer), FrameEvents(f), EventsOf(j));
      }
  }

  /** An element completed inside a container. */
  lemma CompleteFrame(f: Frame, j: Json)
    requires AwaitsValue(f)
    ensures var f' := Complete(Reading([], Inside(Outside, f)), j).open.inner;
            FrameTokens(f') == FrameTokens(f) + TokensOf(j) && FrameEvents(f') == FrameEvents(f) + EventsOf(j)
  {
    match f
    case OpenArray(items, comma) =>
      CompleteArray(items, comma, j);
    case OpenObject(ms, p) =>
      CompleteObject(ms, p.name, j);
  }

  /** An array awaiting an element takes `j` as its last one. */
  lemma CompleteArray(items: seq<Json>, comma: bool, j: Json)
    requires comma <==> items != []
    ensures FrameTokens(OpenArray(items + [j], false)) == FrameTokens(OpenArray(items, comma)) + TokensOf(j)
    ensures FrameEvents(OpenArray(items + [j], false)) == FrameEvents(OpenArray(items, comma)) + EventsOf(j)
  {
    CompleteArrayTokens(items, comma, j);
    AppendItemEvents(items, j);
  }

  lemma CompleteArrayTokens(items: seq<Json>, comma: bool, j: Json)
    requires comma <==> items != []
    ensures FrameTokens(OpenArray(items + [j], false)) == FrameTokens(OpenArray(items, comma)) + TokensOf(j)
  {
    var open := [Punctuation(BRACKET_OPEN)];
    AppendItemTokens(items, j);
    if comma {
      Shift(open, ItemsTokens(items), [Punctuation(COMMA)], TokensOf(j));
    } else {
      Shift(open, ItemsTokens(items), [], TokensOf(j));
    }
  }

  /** An object whose key and colon are read takes `j` as that member's value. */
  lemma CompleteObject(ms: seq<Member>, key: string, j: Json)
    ensures FrameTokens(OpenObject(ms + [Member(key, j)], NoKey))
         == FrameTokens(OpenObject(ms, KeyColon(key))) + TokensOf(j)
    ensures FrameEvents(OpenObject(ms + [Member(key, j)], NoKey))
         == FrameEvents(OpenObject(ms, KeyColon(key))) + EventsOf(j)
  {
    var m := Member(key, j);
    assert FrameTokens(OpenObject(ms + [m], NoKey)) == FrameTokens(OpenObject(ms, KeyColon(key))) + TokensOf(j) by {
      AppendMemberTokens(ms, m);
      Shift5([Punctuation(BRACE_OPEN)], MembersTokens(ms), Separator(ms), [KeyToken(key), Punctuation(COLON)], TokensOf(j));
    }
    assert FrameEvents(OpenObject(ms + [m], NoKey)) == FrameEvents(OpenObject(ms, KeyColon(key))) + EventsOf(j) by {
      AppendMemberEvents(ms, m);
      Shift([ObjectOpen], MembersEvents(ms), [ObjectKey(Str(key))], EventsOf(j));
    }
  }

  /** The innermost container reads one more token without completing anything. */
  lemma Advance(r: Reading, f': Frame, t: Token, e: seq<Event>)
    requires Building(r.open) && r.open.Inside? && FrameOk(f')
    requires FrameTokens(f') == FrameTokens(r.open.inner) + [t]
    requires FrameEvents(f') == FrameEvents(r.open.inner) + e
    ensures var r' := Reading(r.done, Inside(r.open.outer, f'));
            Building(r'.open)
            && TokensRead(r') == TokensRead(r) + [t]
            && EventsRead(r') == EventsRead(r) + e
            && ConfigOf(r'.open) == Config(StateOf(f'), ConfigOf(r.open).stack)
  {
    var outer, f := r.open.outer, r.open.inner;
    Regroup3(DocumentsTokens(r.done), NestTokens(outer), FrameTokens(f), [t]);
    Regroup3(DocumentsEvents(r.done), NestEvents(outer), FrameEvents(f), e);
  }

  /** A token that starts a value, where a value is due. */
  lemma StartAt(r: Reading, t: Token) returns (r': Reading)
    requires Building(r.open) && WellTyped(t)
    requires ValuePosition(ConfigOf(r.open).state) && StartsValue(t.kind)
    ensures Step(ConfigOf(r.open), t).Ok?
    ensures Building(r'.open)
    ensures TokensRead(r') == TokensRead(r) + [t]
    ensures EventsRead(r') == EventsRead(r) + Step(ConfigOf(r.open), t).value.emitted
    ensures ConfigOf(r'.open) == Step(ConfigOf(r.open), t).value.next
  {
    var c := ConfigOf(r.open);
    ValueStep(c, t);
    if IsLiteral(t.kind) {
      r' := ScalarAt(r, t);
    } else {
      r' := OpenAt(r, t);
    }
  }

  /** A literal where a value is due completes a scalar. */
  lemma ScalarAt(r: Reading, t: Token) returns (r': Reading)
    requires Building(r.open) && WellTyped(t)
    requires ValuePosition(ConfigOf(r.open).state) && IsLiteral(t.kind)
    ensures Building(r'.open)
    ensures TokensRead(r') == TokensRead(r) + [t]
    ensures EventsRead(r') == EventsRead(r) + [Value(t.value)]
    ensures ConfigOf(r'.open) == Config(AfterValue(ConfigOf(r.open).state), ConfigOf(r.open).stack)
  {
    WellTypedForms(t);
    var j := Scalar(t.value);
    assert TokensOf(j) == [t];
    CompleteMoves(r, j);
    CompleteReads(r, j);
    r' := Complete(r, j);
  }

  /** `[` or `{` where a value is due opens a container. */
  lemma OpenAt(r: Reading, t: Token) returns (r': Reading)
    requires Building(r.open) && WellTyped(t)
    requires ValuePosition(ConfigOf(r.open).state) && (t.kind == BRACKET_OPEN || t.kind == BRACE_OPEN)
    ensures Building(r'.open)
    ensures TokensRead(r') == TokensRead(r) + [t]
    ensures EventsRead(r') == EventsRead(r) + [if t.kind == BRACKET_OPEN then ArrayOpen else ObjectOpen]
    ensures ConfigOf(r'.open)
         == Config(if t.kind == BRACKET_OPEN then ARRAY_START else OBJECT_START,
                   ConfigOf(r.open).stack + [AfterValue(ConfigOf(r.open).state)])
  {
    var f := if t.kind == BRACKET_OPEN then OpenArray([], false) else OpenObject([], NoKey);
    r' := Reading(r.done, Inside(r.open, f));
    OpenReads(r, t, f);
    OpenMoves(r, f);
  }

  /** The tokens and events of a container just opened. */
  lemma OpenReads(r: Reading, t: Token, f: Frame)
    requires WellTyped(t) && (t.kind == BRACKET_OPEN || t.kind == BRACE_OPEN)
    requires f == if t.kind == BRACKET_OPEN then OpenArray([], false) else OpenObject([], NoKey)
    ensures TokensRead(Reading(r.done, Inside(r.open, f))) == TokensRead(r) + [t]
    ensures EventsRead(Reading(r.done, Inside(r.open, f)))
         == EventsRead(r) + [if t.kind == BRACKET_OPEN then ArrayOpen else ObjectOpen]
  {
    WellTypedForms(t);
    assert FrameTokens(f) == [t];
    assert TokensRead(Reading(r.done, Inside(r.open, f))) == DocumentsTokens(r.done) + (NestTokens(r.open) + [t]);
  }

  /** A container opened where a value is due pushes the state that follows the value. */
  lemma OpenMoves(r: Reading, f: Frame)
    requires Building(r.open) && ValuePosition(ConfigOf(r.open).state)
    requires f == OpenArray([], false) || f == OpenObject([], NoKey)
    ensures Building(Inside(r.open, f))
    ensures ConfigOf(Inside(r.open, f))
         == Config(StateOf(f), ConfigOf(r.open).stack + [AfterValue(ConfigOf(r.open).state)])
  {
    Enclosing(r.open, f);
    var stack := ConfigOf(Inside(r.open, f)).stack;
    assert stack == stack[..|stack| - 1] + [stack[|stack| - 1]];
  }

  /** A token that closes the innermost container. */
  lemma CloseAt(r: Reading, t: Token) returns (r': Reading)
    requires Building(r.open) && WellTyped(t)
    requires t.kind == BRACKET_CLOSE || t.kind == BRACE_CLOSE
    requires Accepts(ConfigOf(r.open).state, t.kind)
    ensures Step(ConfigOf(r.open), t).Ok?
    ensures Building(r'.open)
    ensures TokensRead(r') == TokensRead(r) + [t]
    ensures EventsRead(r') == EventsRead(r) + Step(ConfigOf(r.open), t).value.emitted
    ensures ConfigOf(r'.open) == Step(ConfigOf(r.open), t).value.next
  {
    var e := if t.kind == BRACKET_CLOSE then ArrayClose else ObjectClose;
    CloseStep(ConfigOf(r.open), t, e);
    r' := PopAt(r, t, e);
  }

  /** Closing the innermost container completes it as an element of the one around it. */
  lemma PopAt(r: Reading, t: Token, e: Event) returns (r': Reading)
    requires Building(r.open) && r.open.Inside? && WellTyped(t)
    requires (t.kind == BRACKET_CLOSE && e == ArrayClose
              && (StateOf(r.open.inner) == ARRAY_START || StateOf(r.open.inner) == ARRAY_VALUE_SEPARATOR))
          || (t.kind == BRACE_CLOSE && e == ObjectClose
              && (StateOf(r.open.inner) == OBJECT_START || StateOf(r.open.inner) == OBJECT_VALUE_SEPARATOR))
    ensures Building(r'.open)
    ensures TokensRead(r') == TokensRead(r) + [t]
    ensures EventsRead(r') == EventsRead(r) + [e]
    ensures ConfigOf(r.open).stack != [] && ConfigOf(r'.open) == Close(ConfigOf(r.open).stack, e).next
  {
    var j := CloseFrame(r.open.inner, t);
    r' := Complete(Reading(r.done, r.open.outer), j);
    PopMoves(r, t, e, j);
    PopReads(r, t, e, j);
  }

  /** The configuration after a close is the enclosing container's, one element further on. */
  lemma PopMoves(r: Reading, t: Token, e: Event, j: Json)
    requires Building(r.open) && r.open.Inside? && WellTyped(t)
    requires (t.kind == BRACKET_CLOSE && e == ArrayClose
              && (StateOf(r.open.inner) == ARRAY_START || StateOf(r.open.inner) == ARRAY_VALUE_SEPARATOR))
          || (t.kind == BRACE_CLOSE && e == ObjectClose
              && (StateOf(r.open.inner) == OBJECT_START || StateOf(r.open.inner) == OBJECT_VALUE_SEPARATOR))
    ensures Building(Complete(Reading(r.done, r.open.outer), j).open)
    ensures ConfigOf(r.open).stack != []
    ensures ConfigOf(Complete(Reading(r.done, r.open.outer), j).open) == Close(ConfigOf(r.open).stack, e).next
  {
    Enclosing(r.open.outer, r.open.inner);
    CompleteMoves(Reading(r.done, r.open.outer), j);
  }

  /** The closed container's tokens and events become those of the completed element. */
  lemma PopReads(r: Reading, t: Token, e: Event, j: Json)
    requires Building(r.open) && r.open.Inside? && WellTyped(t)
    requires (t.kind == BRACKET_CLOSE && e == ArrayClose
              && (StateOf(r.open.inner) == ARRAY_START || StateOf(r.open.inner) == ARRAY_VALUE_SEPARATOR))
          || (t.kind == BRACE_CLOSE && e == ObjectClose
              && (StateOf(r.open.inner) == OBJECT_START || StateOf(r.open.inner) == OBJECT_VALUE_SEPARATOR))
    requires TokensOf(j) == FrameTokens(r.open.inner) + [t]
    requires EventsOf(j) == FrameEvents(r.open.inner) + [e]
    ensures TokensRead(Complete(Reading(r.done, r.open.outer), j)) == TokensRead(r) + [t]
    ensures EventsRead(Complete(Reading(r.done, r.open.outer), j)) == EventsRead(r) + [e]
  {
    var outer, f := r.open.outer, r.open.inner;
    var r' := Complete(Reading(r.done, outer), j);
    CompleteReads(Reading(r.done, outer), j);
    Rejoin(DocumentsTokens(r.done), NestTokens(outer), FrameTokens(f), [t], TokensRead(r), TokensRead(r'));
    Rejoin(DocumentsEvents(r.done), NestEvents(outer), FrameEvents(f), [e], EventsRead(r), EventsRead(r'));
  }

  /** A close token, where it is accepted, pops the innermost container. */
  lemma CloseStep(c: Config, t: Token, e: Event)
    requires WellFormed(c) && (t.kind == BRACKET_CLOSE || t.kind == BRACE_CLOSE) && Accepts(c.state, t.kind)
    requires e == if t.kind == BRACKET_CLOSE then ArrayClose else ObjectClose
    ensures c.stack != [] && Step(c, t) == Ok(Close(c.stack, e))
  {
  }

  /** The document a container becomes when its close token is read. */
  lemma CloseFrame(f: Frame, t: Token) returns (j: Json)
    requires FrameOk(f) && WellTyped(t)
    requires (t.kind == BRACKET_CLOSE && (StateOf(f) == ARRAY_START || StateOf(f) == ARRAY_VALUE_SEPARATOR))
          || (t.kind == BRACE_CLOSE && (StateOf(f) == OBJECT_START || StateOf(f) == OBJECT_VALUE_SEPARATOR))
    ensures TokensOf(j) == FrameTokens(f) + [t]
    ensures EventsOf(j) == FrameEvents(f) + [if t.kind == BRACKET_CLOSE then ArrayClose else ObjectClose]
  {
    WellTypedForms(t);
    j := if t.kind == BRACKET_CLOSE then Array(f.items) else Object(f.members);
  }

  /** A comma, a key or a colon inside the innermost container. */
  lemma ContinueAt(r: Reading, t: Token) returns (r': Reading)
    requires Building(r.open) && WellTyped(t)
    requires t.kind == COMMA || t.kind == COLON || (t.kind == STRING_LITERAL && !ValuePosition(ConfigOf(r.open).state))
    requires Accepts(ConfigOf(r.open).state, t.kind)
    ensures Step(ConfigOf(r.open), t).Ok?
    ensures Building(r'.open)
    ensures TokensRead(r') == TokensRead(r) + [t]
    ensures EventsRead(r') == EventsRead(r) + Step(ConfigOf(r.open), t).value.emitted
    ensures ConfigOf(r'.open) == Step(ConfigOf(r.open), t).value.next
  {
    var c := ConfigOf(r.open);
    WellTypedForms(t);
    var f := r.open.inner;
    var f': Frame;
    var e: seq<Event> := [];
    match f {
      case OpenArray(items, comma) =>
        f' := OpenArray(items, true);
      case OpenObject(ms, p) =>
        if t.kind == COMMA {
          f' := OpenObject(ms, Comma);
        } else if t.kind == COLON {
          f' := OpenObject(ms, KeyColon(p.name));
        } else {
          f' := OpenObject(ms, Key(t.value.s));
          e := [ObjectKey(t.value)];
        }
    }
    assert FrameTokens(f') == FrameTokens(f) + [t];
    assert Step(c, t) == Ok(Transition(Config(StateOf(f'), c.stack), e));
    Advance(r, f', t, e);
    r' := Reading(r.done, Inside(r.open.outer, f'));
  }

  /** One accepted token extends the reading by exactly that token and its events. */
  lemma StepReading(r: Reading, t: Token) returns (r': Reading)
    requires Building(r.open) && WellTyped(t) && Step(ConfigOf(r.open), t).Ok?
    ensures Building(r'.open)
    ensures TokensRead(r') == TokensRead(r) + [t]
    ensures EventsRead(r') == EventsRead(r) + Step(ConfigOf(r.open), t).value.emitted
    ensures ConfigOf(r'.open) == Step(ConfigOf(r.open), t).value.next
  {
    var c := ConfigOf(r.open);
    StepFollowsTable(c, t);
    if ValuePosition(c.state) && StartsValue(t.kind) {
      r' := StartAt(r, t);
    } else if t.kind == BRACKET_CLOSE || t.kind == BRACE_CLOSE {
      r' := CloseAt(r, t);
    } else {
      r' := ContinueAt(r, t);
    }
  }

  /**
   * Any stream a fresh parser accepts reads as complete documents followed
   * by the containers still open, and the parser's configuration and
   * events are those of that reading.
   */
  lemma {:induction false} ReadAccepted(ts: seq<Token>) returns (r: Reading)
    requires forall i :: 0 <= i < |ts| ==> WellTyped(ts[i])
    requires Run(Initial, ts).error.None?
    ensures Building(r.open) && TokensRead(r) == ts
    ensures Run(Initial, ts) == Outcome(ConfigOf(r.open), EventsRead(r), None)
    decreases |ts|
  {
    if ts == [] {
      r := Reading([], Outside);
      return;
    }
    var n := |ts| - 1;
    var pre, t := ts[..n], ts[n];
    assert ts == pre + [t];
    AcceptedPrefix(Initial, pre, t);
    assert forall i :: 0 <= i < |pre| ==> WellTyped(pre[i]) by {
      forall i | 0 <= i < |pre| ensures WellTyped(pre[i]) {
        assert pre[i] == ts[i];
      }
    }
    var r0 := ReadAccepted(pre);
    var c := ConfigOf(r0.open);
    AfterPrefix(Initial, pre, t, c, EventsRead(r0));
    assert Step(c, t).Ok?;
    r := StepReading(r0, t);
  }

  /**
   * An accepted and finalized stream is, once its punctuation payloads are
   * normalised, a sequence of documents, and the events emitted are theirs.
   */
  lemma AcceptedIsDocuments(ts: seq<Token>) returns (js: seq<Json>)
    requires forall i :: 0 <= i < |ts| ==> LiteralTyped(ts[i])
    requires Run(Initial, ts).error.None? && Finalize(Run(Initial, ts).final).None?
    ensures NormaliseAll(ts) == DocumentsTokens(js) && Run(Initial, ts).events == DocumentsEvents(js)
  {
    RunNormalised(Initial, ts);
    var r := ReadAccepted(NormaliseAll(ts));
    assert r.open == Outside;
    js := r.done;
  }

  /** A sequence of documents is read from the initial configuration back to it, emitting their events. */
  lemma {:induction false} RunDocuments(js: seq<Json>)
    ensures Run(Initial, DocumentsTokens(js)) == Outcome(Initial, DocumentsEvents(js), None)
    decreases |js|
  {
    if js != [] {
      var pre, last := js[..|js| - 1], js[|js| - 1];
      RunDocuments(pre);
      RunDocument(Initial, last);
      RunConcat(Initial, DocumentsTokens(pre), TokensOf(last), Initial, DocumentsEvents(pre), Run(Initial, TokensOf(last)));
    }
  }

  /**
   * A fresh parser accepts a stream whose literal tokens carry payloads of
   * their own type, and then finalizes without error, exactly when the
   * stream with its punctuation payloads normalised is a sequence of
   * documents, one after the other; the events are then theirs.
   */
  lemma Recognises(ts: seq<Token>)
    requires forall i :: 0 <= i < |ts| ==> LiteralTyped(ts[i])
    ensures (Run(Initial, ts).error.None? && Finalize(Run(Initial, ts).final).None?)
        <==> exists js :: NormaliseAll(ts) == DocumentsTokens(js)
    ensures forall js :: NormaliseAll(ts) == DocumentsTokens(js) ==>
        Run(Initial, ts) == Outcome(Initial, DocumentsEvents(js), None)
  {
    if Run(Initial, ts).error.None? && Finalize(Run(Initial, ts).final).None? {
      var js := AcceptedIsDocuments(ts);
    }
    forall js | NormaliseAll(ts) == DocumentsTokens(js)
      ensures Run(Initial, ts) == Outcome(Initial, DocumentsEvents(js), None)
    {
      RunDocuments(js);
      RunNormalised(Initial, ts);
    }
  }
}
