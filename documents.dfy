/**
 * Completeness against the JSON grammar for values, arrays and objects:
 * the token sequence of any well-formed document is accepted from any
 * value position, emits the document's events in order, and resumes the
 * enclosing container afterwards.
 */
module Documents {
  import opened Wrappers
  import opened ParserStates
  import opened Tokens
  import opened Grammar

  /** A JSON document: a scalar, an array of values, or an object of key/value members in order. */
  datatype Json =
    | Scalar(v: Scalar)
    | Array(items: seq<Json>)
    | Object(members: seq<Member>)

  datatype Member = Member(key: string, val: Json)

  function KeyToken(key: string): Token
  {
    Token(STRING_LITERAL, Str(key))
  }

  /** The tokens of a document. */
  function TokensOf(j: Json): seq<Token>
    decreases j, 2
  {
    match j
    case Scalar(v) => [LiteralToken(v)]
    case Array(items) => [Punctuation(BRACKET_OPEN)] + ItemsTokens(items) + [Punctuation(BRACKET_CLOSE)]
    case Object(ms) => [Punctuation(BRACE_OPEN)] + MembersTokens(ms) + [Punctuation(BRACE_CLOSE)]
  }

  /** Array elements, separated by commas. */
  function ItemsTokens(items: seq<Json>): seq<Token>
    decreases items, 1
  {
    if items == [] then [] else TokensOf(items[0]) + MoreItemsTokens(items[1..])
  }

  /** Array elements each preceded by a comma. */
  function MoreItemsTokens(items: seq<Json>): seq<Token>
    decreases items, 0
  {
    if items == [] then [] else [Punctuation(COMMA)] + TokensOf(items[0]) + MoreItemsTokens(items[1..])
  }

  function MemberTokens(m: Member): seq<Token>
    decreases m, 2
  {
    [KeyToken(m.key), Punctuation(COLON)] + TokensOf(m.val)
  }

  /** Object members, separated by commas. */
  function MembersTokens(ms: seq<Member>): seq<Token>
    decreases ms, 1
  {
    if ms == [] then [] else MemberTokens(ms[0]) + MoreMembersTokens(ms[1..])
  }

  /** Object members each preceded by a comma. */
  function MoreMembersTokens(ms: seq<Member>): seq<Token>
    decreases ms, 0
  {
    if ms == [] then [] else [Punctuation(COMMA)] + MemberTokens(ms[0]) + MoreMembersTokens(ms[1..])
  }

  /** The events a document is meant to produce. */
  function EventsOf(j: Json): seq<Event>
    decreases j, 1
  {
    match j
    case Scalar(v) => [Value(v)]
    case Array(items) => [ArrayOpen] + ItemsEvents(items) + [ArrayClose]
    case Object(ms) => [ObjectOpen] + MembersEvents(ms) + [ObjectClose]
  }

  function ItemsEvents(items: seq<Json>): seq<Event>
    decreases items, 0
  {
    if items == [] then [] else EventsOf(items[0]) + ItemsEvents(items[1..])
  }

  function MembersEvents(ms: seq<Member>): seq<Event>
    decreases ms, 0
  {
    if ms == [] then []
    else [ObjectKey(Str(ms[0].key))] + EventsOf(ms[0].val) + MembersEvents(ms[1..])
  }

  /** The positions where a whole value may start. */
  predicate ValuePosition(s: ParserState)
  {
    s == BEGIN || s == ARRAY_START || s == ARRAY_VALUE || s == OBJECT_VALUE
  }

  /**
   * Any document is accepted from any value position: it emits exactly its
   * events and leaves the parser where a completed value leaves it, with
   * the stack as it was.
   */
  lemma {:induction false} RunDocument(c: Config, j: Json)
    requires WellFormed(c) && ValuePosition(c.state)
    ensures Run(c, TokensOf(j)) == Outcome(Config(AfterValue(c.state), c.stack), EventsOf(j), None)
    decreases j, 2
  {
    match j
    case Scalar(v) =>
      RunSingle(c, LiteralToken(v));
    case Array(items) =>
      RunArray(c, items);
    case Object(ms) =>
      RunObject(c, ms);
  }

  /** At a value position, a token that starts a value is read as it would be in that position proper. */
  lemma ValueStep(c: Config, t: Token)
    requires WellFormed(c) && ValuePosition(c.state) && StartsValue(t.kind)
    ensures var at := if c.state == ARRAY_START then ARRAY_VALUE else c.state;
            Step(c, t) == StartValue(c.stack, at, t) && AfterValue(at) == AfterValue(c.state)
  {
  }

  /** Opening a container from a value position pushes the state that follows the value. */
  lemma OpenFrom(c: Config, k: TokenType)
    requires WellFormed(c) && ValuePosition(c.state) && (k == BRACKET_OPEN || k == BRACE_OPEN)
    ensures Run(c, [Punctuation(k)])
         == Outcome(Config(if k == BRACKET_OPEN then ARRAY_START else OBJECT_START, c.stack + [AfterValue(c.state)]),
                    [if k == BRACKET_OPEN then ArrayOpen else ObjectOpen], None)
  {
    var t := Punctuation(k);
    var at := if c.state == ARRAY_START then ARRAY_VALUE else c.state;
    assert AfterValue(at) == AfterValue(c.state);
    assert Step(c, t) == StartValue(c.stack, at, t);
    RunSingle(c, t);
  }

  /** Closing a container pops back to the state that follows it. */
  lemma CloseTo(c: Config, k: TokenType, resume: ParserState)
    requires WellFormed(c) && c.stack != [] && c.stack[|c.stack| - 1] == resume
    requires (k == BRACKET_CLOSE && (c.state == ARRAY_START || c.state == ARRAY_VALUE_SEPARATOR))
          || (k == BRACE_CLOSE && (c.state == OBJECT_START || c.state == OBJECT_VALUE_SEPARATOR))
    ensures Run(c, [Punctuation(k)])
         == Outcome(Config(resume, c.stack[..|c.stack| - 1]), [if k == BRACKET_CLOSE then ArrayClose else ObjectClose], None)
  {
    var t := Punctuation(k);
    assert Step(c, t) == Ok(Close(c.stack, if k == BRACKET_CLOSE then ArrayClose else ObjectClose));
    RunSingle(c, t);
  }

  /** An array from a value position. */
  lemma {:induction false} RunArray(c: Config, items: seq<Json>)
    requires WellFormed(c) && ValuePosition(c.state)
    ensures Run(c, [Punctuation(BRACKET_OPEN)] + ItemsTokens(items) + [Punctuation(BRACKET_CLOSE)])
         == Outcome(Config(AfterValue(c.state), c.stack), [ArrayOpen] + ItemsEvents(items) + [ArrayClose], None)
    decreases items, 3
  {
    var open, close := Punctuation(BRACKET_OPEN), Punctuation(BRACKET_CLOSE);
    var inner := ItemsTokens(items);
    var c1 := Config(ARRAY_START, c.stack + [AfterValue(c.state)]);
    var c2 := Config(if items == [] then ARRAY_START else ARRAY_VALUE_SEPARATOR, c1.stack);
    OpenArrayContents(c, items);
    assert c1.stack[..|c1.stack| - 1] == c.stack;
    CloseTo(c2, BRACKET_CLOSE, AfterValue(c.state));
    RunConcat(c, [open] + inner, [close], c2, [ArrayOpen] + ItemsEvents(items), Run(c2, [close]));
  }

  /** An object from a value position. */
  lemma {:induction false} RunObject(c: Config, ms: seq<Member>)
    requires WellFormed(c) && ValuePosition(c.state)
    ensures Run(c, [Punctuation(BRACE_OPEN)] + MembersTokens(ms) + [Punctuation(BRACE_CLOSE)])
         == Outcome(Config(AfterValue(c.state), c.stack), [ObjectOpen] + MembersEvents(ms) + [ObjectClose], None)
    decreases ms, 3
  {
    var open, close := Punctuation(BRACE_OPEN), Punctuation(BRACE_CLOSE);
    var inner := MembersTokens(ms);
    var stack := c.stack + [AfterValue(c.state)];
    var c2 := Config(if ms == [] then OBJECT_START else OBJECT_VALUE_SEPARATOR, stack);
    var evs := [ObjectOpen] + MembersEvents(ms);
    OpenObjectContents(c, ms);
    assert Run(c, [open] + inner) == Outcome(c2, evs, None);
    assert stack[..|stack| - 1] == c.stack;
    CloseTo(c2, BRACE_CLOSE, AfterValue(c.state));
    assert Run(c2, [close]) == Outcome(Config(AfterValue(c.state), c.stack), [ObjectClose], None);
    RunConcat(c, [open] + inner, [close], c2, evs, Run(c2, [close]));
  }

  /** `[` and the elements, from a value position: the array is still open. */
  lemma {:induction false} OpenArrayContents(c: Config, items: seq<Json>)
    requires WellFormed(c) && ValuePosition(c.state)
    ensures Run(c, [Punctuation(BRACKET_OPEN)] + ItemsTokens(items))
         == Outcome(Config(if items == [] then ARRAY_START else ARRAY_VALUE_SEPARATOR, c.stack + [AfterValue(c.state)]),
                    [ArrayOpen] + ItemsEvents(items), None)
    decreases items, 2
  {
    var c1 := Config(ARRAY_START, c.stack + [AfterValue(c.state)]);
    OpenFrom(c, BRACKET_OPEN);
    RunItems(c1, items);
    RunConcat(c, [Punctuation(BRACKET_OPEN)], ItemsTokens(items), c1, [ArrayOpen], Run(c1, ItemsTokens(items)));
  }

  /** `{` and the members, from a value position: the object is still open. */
  lemma {:induction false} OpenObjectContents(c: Config, ms: seq<Member>)
    requires WellFormed(c) && ValuePosition(c.state)
    ensures Run(c, [Punctuation(BRACE_OPEN)] + MembersTokens(ms))
         == Outcome(Config(if ms == [] then OBJECT_START else OBJECT_VALUE_SEPARATOR, c.stack + [AfterValue(c.state)]),
                    [ObjectOpen] + MembersEvents(ms), None)
    decreases ms, 2
  {
    var c1 := Config(OBJECT_START, c.stack + [AfterValue(c.state)]);
    OpenFrom(c, BRACE_OPEN);
    RunMembers(c1, ms);
    RunConcat(c, [Punctuation(BRACE_OPEN)], MembersTokens(ms), c1, [ObjectOpen], Run(c1, MembersTokens(ms)));
  }

  /** The elements of a just-opened array. */
  lemma {:induction false} RunItems(c: Config, items: seq<Json>)
    requires WellFormed(c) && c.state == ARRAY_START
    ensures Run(c, ItemsTokens(items))
         == Outcome(Config(if items == [] then ARRAY_START else ARRAY_VALUE_SEPARATOR, c.stack), ItemsEvents(items), None)
    decreases items, 1
  {
    if items != [] {
      var c1 := Config(ARRAY_VALUE_SEPARATOR, c.stack);
      RunDocument(c, items[0]);
      RunMoreItems(c1, items[1..]);
      RunConcat(c, TokensOf(items[0]), MoreItemsTokens(items[1..]), c1, EventsOf(items[0]), Run(c1, MoreItemsTokens(items[1..])));
    }
  }

  /** A comma and one more element, after a value in an array. */
  lemma {:induction false} RunCommaItem(c: Config, j: Json)
    requires WellFormed(c) && c.state == ARRAY_VALUE_SEPARATOR
    ensures Run(c, [Punctuation(COMMA)] + TokensOf(j)) == Outcome(c, EventsOf(j), None)
    decreases j, 3
  {
    var comma := Punctuation(COMMA);
    var c1 := Config(ARRAY_VALUE, c.stack);
    assert Step(c, comma) == Ok(Transition(c1, []));
    RunSingle(c, comma);
    RunDocument(c1, j);
    RunConcat(c, [comma], TokensOf(j), c1, [], Run(c1, TokensOf(j)));
    assert [] + EventsOf(j) == EventsOf(j);
  }

  /** Further elements, each after a comma, starting after a value in an array. */
  lemma {:induction false} RunMoreItems(c: Config, items: seq<Json>)
    requires WellFormed(c) && c.state == ARRAY_VALUE_SEPARATOR
    ensures Run(c, MoreItemsTokens(items)) == Outcome(c, ItemsEvents(items), None)
    decreases items, 0
  {
    if items != [] {
      var rest := MoreItemsTokens(items[1..]);
      RunCommaItem(c, items[0]);
      RunMoreItems(c, items[1..]);
      RunConcat(c, [Punctuation(COMMA)] + TokensOf(items[0]), rest, c, EventsOf(items[0]), Run(c, rest));
    }
  }

  /** A key and its colon, where a key is expected: the member's value is due. */
  lemma RunKeyColon(c: Config, key: string)
    requires WellFormed(c) && (c.state == OBJECT_START || c.state == OBJECT_KEY)
    ensures Run(c, [KeyToken(key), Punctuation(COLON)]) == Outcome(Config(OBJECT_VALUE, c.stack), [ObjectKey(Str(key))], None)
  {
    var k, colon := KeyToken(key), Punctuation(COLON);
    var c1 := Config(OBJECT_KEY_SEPARATOR, c.stack);
    assert Step(c, k) == Ok(Transition(c1, [ObjectKey(Str(key))]));
    assert Step(c1, colon) == Ok(Transition(Config(OBJECT_VALUE, c.stack), []));
    RunSingle(c, k);
    RunSingle(c1, colon);
    RunConcat(c, [k], [colon], c1, [ObjectKey(Str(key))], Run(c1, [colon]));
    assert [k] + [colon] == [k, colon];
  }

  /** One key, its colon and its value, where a key is expected. */
  lemma {:induction false} RunMember(c: Config, m: Member)
    requires WellFormed(c) && (c.state == OBJECT_START || c.state == OBJECT_KEY)
    ensures Run(c, MemberTokens(m))
         == Outcome(Config(OBJECT_VALUE_SEPARATOR, c.stack), [ObjectKey(Str(m.key))] + EventsOf(m.val), None)
    decreases m, 2
  {
    var c2 := Config(OBJECT_VALUE, c.stack);
    RunKeyColon(c, m.key);
    RunDocument(c2, m.val);
    RunConcat(c, [KeyToken(m.key), Punctuation(COLON)], TokensOf(m.val), c2, [ObjectKey(Str(m.key))], Run(c2, TokensOf(m.val)));
  }

  /** The members of a just-opened object. */
  lemma {:induction false} RunMembers(c: Config, ms: seq<Member>)
    requires WellFormed(c) && c.state == OBJECT_START
    ensures Run(c, MembersTokens(ms))
         == Outcome(Config(if ms == [] then OBJECT_START else OBJECT_VALUE_SEPARATOR, c.stack), MembersEvents(ms), None)
    decreases ms, 1
  {
    if ms != [] {
      var c1 := Config(OBJECT_VALUE_SEPARATOR, c.stack);
      var first := [ObjectKey(Str(ms[0].key))] + EventsOf(ms[0].val);
      RunMember(c, ms[0]);
      RunMoreMembers(c1, ms[1..]);
      RunConcat(c, MemberTokens(ms[0]), MoreMembersTokens(ms[1..]), c1, first, Run(c1, MoreMembersTokens(ms[1..])));
      assert MembersEvents(ms) == first + MembersEvents(ms[1..]);
    }
  }

  /** A comma and one more member, after a value in an object. */
  lemma {:induction false} RunCommaMember(c: Config, m: Member)
    requires WellFormed(c) && c.state == OBJECT_VALUE_SEPARATOR
    ensures Run(c, [Punctuation(COMMA)] + MemberTokens(m)) == Outcome(c, [ObjectKey(Str(m.key))] + EventsOf(m.val), None)
    decreases m, 3
  {
    var comma := Punctuation(COMMA);
    var c1 := Config(OBJECT_KEY, c.stack);
    assert Step(c, comma) == Ok(Transition(c1, []));
    RunSingle(c, comma);
    RunMember(c1, m);
    RunConcat(c, [comma], MemberTokens(m), c1, [], Run(c1, MemberTokens(m)));
    assert [] + ([ObjectKey(Str(m.key))] + EventsOf(m.val)) == [ObjectKey(Str(m.key))] + EventsOf(m.val);
  }

  /** Further members, each after a comma, starting after a value in an object. */
  lemma {:induction false} RunMoreMembers(c: Config, ms: seq<Member>)
    requires WellFormed(c) && c.state == OBJECT_VALUE_SEPARATOR
    ensures Run(c, MoreMembersTokens(ms)) == Outcome(c, MembersEvents(ms), None)
    decreases ms, 0
  {
    if ms != [] {
      var rest := MoreMembersTokens(ms[1..]);
      var first := [ObjectKey(Str(ms[0].key))] + EventsOf(ms[0].val);
      RunCommaMember(c, ms[0]);
      RunMoreMembers(c, ms[1..]);
      RunConcat(c, [Punctuation(COMMA)] + MemberTokens(ms[0]), rest, c, first, Run(c, rest));
      assert first + MembersEvents(ms[1..]) == MembersEvents(ms);
    }
  }

  /** A fresh parser accepts any document, emits its events, and then finalizes without error. */
  lemma WholeDocument(j: Json)
    ensures Run(Initial, TokensOf(j)) == Outcome(Initial, EventsOf(j), None)
    ensures Finalize(Run(Initial, TokensOf(j)).final).None?
  {
    RunDocument(Initial, j);
  }
}
