/**
 * Tokens as the token-stream parser receives them: a token type and a
 * payload. The payload is kept opaque (no numeric semantics); it is the
 * value the test literal carried.
 */
module Tokens {
  import opened Wrappers

  /** The ten JSON token kinds. */
  datatype TokenType =
    | BRACE_OPEN
    | BRACE_CLOSE
    | BRACKET_OPEN
    | BRACKET_CLOSE
    | COLON
    | COMMA
    | STRING_LITERAL
    | NUMBER_LITERAL
    | BOOLEAN_LITERAL
    | NULL_LITERAL

  /** A test literal, which is also a token's payload: int, float, bool, null or string. */
  datatype Scalar =
    | Int(i: int)
    | Float(text: string)
    | Bool(b: bool)
    | Null
    | Str(s: string)

  datatype Token = Token(kind: TokenType, value: Scalar)

  /** The label of a token type, as error messages print it. */
  function Label(k: TokenType): (r: string)
    ensures |r| > 0 && forall i :: 0 <= i < |r| ==> r[i] == '_' || 'A' <= r[i] <= 'Z'
  {
    match k
    case BRACE_OPEN => "BRACE_OPEN"
    case BRACE_CLOSE => "BRACE_CLOSE"
    case BRACKET_OPEN => "BRACKET_OPEN"
    case BRACKET_CLOSE => "BRACKET_CLOSE"
    case COLON => "COLON"
    case COMMA => "COMMA"
    case STRING_LITERAL => "STRING_LITERAL"
    case NUMBER_LITERAL => "NUMBER_LITERAL"
    case BOOLEAN_LITERAL => "BOOLEAN_LITERAL"
    case NULL_LITERAL => "NULL_LITERAL"
  }

  /** The literal kinds: tokens that carry a decoded scalar. */
  predicate IsLiteral(k: TokenType)
  {
    k == STRING_LITERAL || k == NUMBER_LITERAL || k == BOOLEAN_LITERAL || k == NULL_LITERAL
  }

  /** The value of a punctuation type is its own character; literal types have none here. */
  function Character(k: TokenType): Option<char>
  {
    match k
    case BRACE_OPEN => Some('{')
    case BRACE_CLOSE => Some('}')
    case BRACKET_OPEN => Some('[')
    case BRACKET_CLOSE => Some(']')
    case COLON => Some(':')
    case COMMA => Some(',')
    case _ => None
  }

  /** The token type whose value is a given character, if any. */
  function TypeOfCharacter(c: char): (r: Option<TokenType>)
    ensures r.Some? ==> Character(r.value) == Some(c) && !IsLiteral(r.value)
    ensures r.None? ==> forall k: TokenType :: Character(k) != Some(c)
  {
    if c == '{' then Some(BRACE_OPEN)
    else if c == '}' then Some(BRACE_CLOSE)
    else if c == '[' then Some(BRACKET_OPEN)
    else if c == ']' then Some(BRACKET_CLOSE)
    else if c == ':' then Some(COLON)
    else if c == ',' then Some(COMMA)
    else None
  }

  /** The literal type that carries a scalar: ints and floats are numbers. */
  function LiteralType(v: Scalar): (k: TokenType)
    ensures IsLiteral(k)
  {
    match v
    case Int(_) => NUMBER_LITERAL
    case Float(_) => NUMBER_LITERAL
    case Bool(_) => BOOLEAN_LITERAL
    case Null => NULL_LITERAL
    case Str(_) => STRING_LITERAL
  }

  /** A literal token for a scalar. */
  function LiteralToken(v: Scalar): Token
  {
    Token(LiteralType(v), v)
  }

  /** A punctuation token: its payload is its own character. */
  function Punctuation(k: TokenType): Token
    requires Character(k).Some?
  {
    Token(k, Str([Character(k).value]))
  }

  /**
   * A token whose type agrees with its payload, as `createTokens` builds them:
   * a literal type is the one its payload calls for, and a punctuation
   * token carries its own character.
   */
  predicate WellTyped(t: Token)
  {
    if IsLiteral(t.kind) then LiteralType(t.value) == t.kind
    else Character(t.kind).Some? && t == Punctuation(t.kind)
  }

  /** A well-typed token is the literal token of its payload or the punctuation token of its type. */
  lemma WellTypedForms(t: Token)
    requires WellTyped(t)
    ensures IsLiteral(t.kind) ==> t == LiteralToken(t.value)
    ensures !IsLiteral(t.kind) ==> Character(t.kind).Some? && t == Punctuation(t.kind)
  {
  }

  /**
   * A token whose payload is of its type when the type is a literal one.
   * A punctuation token may carry any payload: the parser reads only its type.
   */
  predicate LiteralTyped(t: Token)
  {
    IsLiteral(t.kind) ==> LiteralType(t.value) == t.kind
  }

  /** The token with a punctuation payload replaced by the type's own character. */
  function Normalise(t: Token): (r: Token)
    ensures r.kind == t.kind && (IsLiteral(t.kind) ==> r == t)
    ensures LiteralTyped(t) ==> WellTyped(r)
    ensures WellTyped(t) ==> r == t
  {
    if IsLiteral(t.kind) then t else Punctuation(t.kind)
  }

  /** Every token of a stream normalised. */
  function NormaliseAll(ts: seq<Token>): (r: seq<Token>)
    ensures |r| == |ts|
    ensures (forall i :: 0 <= i < |ts| ==> LiteralTyped(ts[i])) ==> forall i :: 0 <= i < |r| ==> WellTyped(r[i])
    ensures (forall i :: 0 <= i < |ts| ==> WellTyped(ts[i])) ==> r == ts
  {
    seq(|ts|, i requires 0 <= i < |ts| => Normalise(ts[i]))
  }

  /** True when a test literal is a one-character string. */
  predicate IsOneCharacter(x: Scalar)
  {
    x.Str? && |x.s| == 1
  }

  /**
   * The token `createTokens` builds for one test literal. A one-character
   * string is a punctuation token of that character's type; None when no
   * token type has that character as its value.
   */
  function TokenFor(x: Scalar): (r: Option<Token>)
    ensures r.Some? ==> r.value.value == x
    ensures r.None? <==> IsOneCharacter(x) && TypeOfCharacter(x.s[0]).None?
    ensures r.Some? && IsOneCharacter(x) ==> Character(r.value.kind) == Some(x.s[0])
    ensures r.Some? && !IsOneCharacter(x) ==> r.value.kind == LiteralType(x)
    ensures r.Some? ==> WellTyped(r.value)
  {
    match x
    case Str(s) =>
      if |s| == 1 then
        match TypeOfCharacter(s[0])
        case Some(k) => Some(Token(k, x))
        case None => None
      else Some(Token(STRING_LITERAL, x))
    case Int(_) => Some(Token(NUMBER_LITERAL, x))
    case Float(_) => Some(Token(NUMBER_LITERAL, x))
    case Bool(_) => Some(Token(BOOLEAN_LITERAL, x))
    case Null => Some(Token(NULL_LITERAL, Null))
  }

  /**
   * `createTokens`: one token per test literal, in order; None if some
   * one-character string names no token type.
   */
  method CreateTokens(inputs: seq<Scalar>) returns (r: Option<seq<Token>>)
    ensures r.Some? <==> forall j :: 0 <= j < |inputs| ==> TokenFor(inputs[j]).Some?
    ensures r.Some? ==> |r.value| == |inputs|
    ensures r.Some? ==> forall j :: 0 <= j < |inputs| ==> Some(r.value[j]) == TokenFor(inputs[j])
    ensures r.Some? ==> forall j :: 0 <= j < |r.value| ==> WellTyped(r.value[j])
  {
    var result: seq<Token> := [];
    var i := 0;
    while i < |inputs|
      invariant 0 <= i <= |inputs|
      invariant |result| == i
      invariant forall j :: 0 <= j < i ==> Some(result[j]) == TokenFor(inputs[j])
    {
      var t := TokenFor(inputs[i]);
      if t.None? {
        return None;
      }
      result := result + [t.value];
      i := i + 1;
    }
    return Some(result);
  }

  /** Punctuation types and their characters are in one-to-one correspondence. */
  lemma CharacterRoundTrip(k: TokenType)
    ensures Character(k).Some? <==> !IsLiteral(k)
    ensures Character(k).Some? ==> TypeOfCharacter(Character(k).value) == Some(k)
  {
  }

  /** Token labels are distinct. */
  lemma LabelInjective(a: TokenType, b: TokenType)
    ensures Label(a) == Label(b) ==> a == b
  {
  }
}
