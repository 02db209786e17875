/**
 * The grammar positions of the token-stream parser, as the enumeration
 * `ParserState` declares them: nine members, each with an integer value
 * and a label (the constant's name).
 */
module ParserStates {
  import opened Wrappers

  datatype ParserState =
    | BEGIN
    | ARRAY_START
    | ARRAY_VALUE
    | ARRAY_VALUE_SEPARATOR
    | OBJECT_START
    | OBJECT_KEY
    | OBJECT_KEY_SEPARATOR
    | OBJECT_VALUE
    | OBJECT_VALUE_SEPARATOR

  /** Every member, in declaration order. */
  const AllStates: seq<ParserState> := [
    BEGIN,
    ARRAY_START, ARRAY_VALUE, ARRAY_VALUE_SEPARATOR,
    OBJECT_START, OBJECT_KEY, OBJECT_KEY_SEPARATOR, OBJECT_VALUE, OBJECT_VALUE_SEPARATOR
  ]

  /**
   * The integer value of a member: 1 at top level, the tens for array
   * states and the twenties for object states.
   */
  function Value(s: ParserState): (v: int)
    ensures v == 1 || 10 <= v <= 12 || 20 <= v <= 24
    ensures ScopeOfValue(v) == ScopeOf(s)
  {
    match s
    case BEGIN => 1
    case ARRAY_START => 10
    case ARRAY_VALUE => 11
    case ARRAY_VALUE_SEPARATOR => 12
    case OBJECT_START => 20
    case OBJECT_KEY => 21
    case OBJECT_KEY_SEPARATOR => 22
    case OBJECT_VALUE => 23
    case OBJECT_VALUE_SEPARATOR => 24
  }

  /** The member with a given value, if any (the enumeration's `memberByValue`). */
  function FromValue(v: int): (r: Option<ParserState>)
    ensures r.Some? ==> Value(r.value) == v
    ensures r.None? ==> forall s: ParserState :: Value(s) != v
  {
    if v == 1 then Some(BEGIN)
    else if v == 10 then Some(ARRAY_START)
    else if v == 11 then Some(ARRAY_VALUE)
    else if v == 12 then Some(ARRAY_VALUE_SEPARATOR)
    else if v == 20 then Some(OBJECT_START)
    else if v == 21 then Some(OBJECT_KEY)
    else if v == 22 then Some(OBJECT_KEY_SEPARATOR)
    else if v == 23 then Some(OBJECT_VALUE)
    else if v == 24 then Some(OBJECT_VALUE_SEPARATOR)
    else None
  }

  /** The label of a member: the name of its constant, as error messages print it. */
  function Label(s: ParserState): (r: string)
    ensures |r| > 0 && forall i :: 0 <= i < |r| ==> r[i] == '_' || 'A' <= r[i] <= 'Z'
  {
    match s
    case BEGIN => "BEGIN"
    case ARRAY_START => "ARRAY_START"
    case ARRAY_VALUE => "ARRAY_VALUE"
    case ARRAY_VALUE_SEPARATOR => "ARRAY_VALUE_SEPARATOR"
    case OBJECT_START => "OBJECT_START"
    case OBJECT_KEY => "OBJECT_KEY"
    case OBJECT_KEY_SEPARATOR => "OBJECT_KEY_SEPARATOR"
    case OBJECT_VALUE => "OBJECT_VALUE"
    case OBJECT_VALUE_SEPARATOR => "OBJECT_VALUE_SEPARATOR"
  }

  /** Where a grammar position lies: outside any container, in an array or in an object. */
  datatype Scope = TopLevel | InArray | InObject

  function ScopeOf(s: ParserState): Scope
  {
    match s
    case BEGIN => TopLevel
    case ARRAY_START | ARRAY_VALUE | ARRAY_VALUE_SEPARATOR => InArray
    case _ => InObject
  }

  /** The scope a value names, read off its range: below 10, 10-19 or 20 and above. */
  function ScopeOfValue(v: int): Scope
  {
    if v < 10 then TopLevel else if v < 20 then InArray else InObject
  }

  /** There are exactly nine members and their values are pairwise distinct. */
  lemma ExactlyNineStates()
    ensures |AllStates| == 9
    ensures forall s: ParserState :: s in AllStates
    ensures forall i, j :: 0 <= i < j < |AllStates| ==> Value(AllStates[i]) != Value(AllStates[j])
  {
    forall s: ParserState ensures s in AllStates {
      var i := Position(s);
    }
  }

  /** The index of a member in AllStates (its declaration order). */
  function Position(s: ParserState): (i: nat)
    ensures i < |AllStates| && AllStates[i] == s
  {
    match s
    case BEGIN => 0
    case ARRAY_START => 1
    case ARRAY_VALUE => 2
    case ARRAY_VALUE_SEPARATOR => 3
    case OBJECT_START => 4
    case OBJECT_KEY => 5
    case OBJECT_KEY_SEPARATOR => 6
    case OBJECT_VALUE => 7
    case OBJECT_VALUE_SEPARATOR => 8
  }

  /** The value map is injective: a value names at most one member. */
  lemma ValueInjective(a: ParserState, b: ParserState)
    ensures Value(a) == Value(b) ==> a == b
  {
  }

  /** Value then memberByValue gives the member back; only the nine listed values name a member. */
  lemma ValueRoundTrip(s: ParserState, v: int)
    ensures FromValue(Value(s)) == Some(s)
    ensures FromValue(v).Some? <==> v in {1, 10, 11, 12, 20, 21, 22, 23, 24}
  {
  }

  /** BEGIN, value 1, is the only member outside every container. */
  lemma BeginIsOnlyTopLevel(s: ParserState)
    ensures ScopeOf(s) == TopLevel <==> s == BEGIN
    ensures Value(BEGIN) == 1
  {
  }

  /** The container kind of a member can be recovered from its value alone. */
  lemma ScopeFromValue(s: ParserState)
    ensures ScopeOfValue(Value(s)) == ScopeOf(s)
    ensures ScopeOf(s) == InArray <==> 10 <= Value(s) <= 12
    ensures ScopeOf(s) == InObject <==> 20 <= Value(s) <= 24
  {
  }

  /** Labels are distinct, so a label in an error message names one member. */
  lemma LabelInjective(a: ParserState, b: ParserState)
    ensures Label(a) == Label(b) ==> a == b
  {
  }
}
