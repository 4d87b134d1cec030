/** Token kinds and the token value of the JSON lexer (json/token.go). */
module JsonToken {

  /** A token kind. The source declares it as a signed 64-bit integer, so any
      such value is a `TokenType`, declared or not. */
  newtype TokenType = x: int | -0x8000_0000_0000_0000 <= x < 0x8000_0000_0000_0000

  // The fifteen declared kinds, numbered in declaration order.
  const String: TokenType := 0
  const Number: TokenType := 1
  const Object: TokenType := 2
  const Array: TokenType := 3
  const True: TokenType := 4
  const False: TokenType := 5
  const Null: TokenType := 6
  const LeftCurlyBrace: TokenType := 7
  const RightCurlyBrace: TokenType := 8
  const LeftSquareBrace: TokenType := 9
  const RightSquareBrace: TokenType := 10
  const Comma: TokenType := 11
  const SemiColon: TokenType := 12
  const EOF: TokenType := 13
  const ILLEGAL: TokenType := 14

  /** The kinds the source declares: `String` through `ILLEGAL`. */
  predicate IsDeclared(t: TokenType) {
    String <= t <= ILLEGAL
  }

  /** The display name of a kind, looked up in a fixed table; a value outside
      the table is "Unknown". */
  function Name(t: TokenType): (name: string)
    ensures IsDeclared(t) <==> name != "Unknown"
    ensures IsDeclared(t) ==> |name| > 0
  {
    var names: map<TokenType, string> := map[
      0 := "string",
      1 := "number",
      2 := "object",
      3 := "array",
      4 := "true",
      5 := "false",
      6 := "null",
      7 := "leftCurlyBrace",
      8 := "rightCurlyBrace",
      9 := "leftSquareBrace",
      10 := "rightSquareBrace",
      11 := "comma",
      12 := "semiColon",
      13 := "EOF",
      14 := "Illegal"
    ];
    if t in names then names[t] else "Unknown"
  }

  /** The ordinal of a kind. */
  function Index(t: TokenType): (i: int)
    ensures i == t as int && i as TokenType == t
    ensures IsDeclared(t) <==> 0 <= i <= 14
  {
    t as int
  }

  /** A token: its kind and the text it carries. */
  datatype Token = Token(typ: TokenType, text: string)

  function NewToken(typ: TokenType, text: string): (tok: Token)
    ensures tok.typ == typ && tok.text == text
  {
    Token(typ, text)
  }

  /** The names of the literal kinds are their JSON spellings. */
  lemma LiteralNames()
    ensures Name(True) == "true" && Name(False) == "false" && Name(Null) == "null"
    ensures Name(String) == "string"
  {
  }

  /** No two declared kinds share a name. */
  lemma NameInjective(a: TokenType, b: TokenType)
    requires IsDeclared(a) && IsDeclared(b)
    requires Name(a) == Name(b)
    ensures a == b
  {
  }
}
