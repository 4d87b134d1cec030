/** What one scanning step does, case by case, and what a whole scan yields. */
module JsonLexerProperties {
  import opened JsonToken
  import opened JsonLexer

  /** The kind of a single-character delimiter. */
  function DelimiterKind(c: char): (t: TokenType)
    requires c in "{}[],;"
  {
    match c
    case '{' => LeftCurlyBrace
    case '}' => RightCurlyBrace
    case '[' => LeftSquareBrace
    case ']' => RightSquareBrace
    case ',' => Comma
    case ';' => SemiColon
  }

  /** Each delimiter gives its own kind, carries itself as text and moves the
      cursor on by exactly one. */
  lemma ScanDelimiter(input: string, p: nat)
    requires CharAt(input, p) in "{}[],;"
    ensures Scan(input, p) == Scanned(Token(DelimiterKind(input[p]), [input[p]]), p + 1)
  {
  }

  /** A character that is neither whitespace nor the start of any token
      (the colon among them) gives ILLEGAL with empty text and is consumed. */
  lemma ScanUnrecognized(input: string, p: nat)
    requires CharAt(input, p) !in "{}[],;ntf\"\0"
    requires !IsWhiteSpace(CharAt(input, p)) && !IsDigit(CharAt(input, p)) && !IsPlusOrMinus(CharAt(input, p))
    ensures Scan(input, p) == Scanned(Token(ILLEGAL, ""), p + 1)
  {
  }

  /** A token that starts with whitespace is selected by that whitespace: it is
      ILLEGAL with empty text, and the first character after the whitespace run
      is consumed with it. */
  lemma ScanWhiteSpaceLead(input: string, p: nat) returns (w: nat)
    requires IsWhiteSpace(CharAt(input, p))
    ensures p < w <= |input| && !IsWhiteSpace(CharAt(input, w))
    ensures forall i :: p <= i < w ==> IsWhiteSpace(input[i])
    ensures Scan(input, p) == Scanned(Token(ILLEGAL, ""), w + 1)
  {
    w := SkipWhiteSpace(input, p);
    forall i | p <= i < w
      ensures IsWhiteSpace(input[i])
    {
      assert IsWhiteSpace(CharAt(input, i));
    }
  }

  /** Keyword matching succeeds when the letters after `p` spell `rest`. */
  lemma {:induction false} MatchKeywordAccepts(input: string, p: nat, rest: string, kind: TokenType)
    requires '\0' !in rest
    requires forall j :: 0 <= j < |rest| ==> CharAt(input, p + 1 + j) == rest[j]
    ensures MatchKeyword(input, p, rest, kind) == Scanned(Token(kind, Name(kind)), p + |rest| + 1)
    decreases |rest|
  {
    if rest != [] {
      assert CharAt(input, p + 1) == rest[0];
      MatchKeywordAccepts(input, p + 1, rest[1..], kind);
    }
  }

  /** Keyword matching stops at the first wrong letter, carrying it and leaving
      the cursor on it. */
  lemma {:induction false} MatchKeywordRejects(input: string, p: nat, rest: string, kind: TokenType, k: nat)
    requires '\0' !in rest && k < |rest|
    requires forall j :: 0 <= j < k ==> CharAt(input, p + 1 + j) == rest[j]
    requires CharAt(input, p + 1 + k) != rest[k]
    ensures MatchKeyword(input, p, rest, kind) == Scanned(Token(ILLEGAL, [CharAt(input, p + 1 + k)]), p + 1 + k)
    decreases k
  {
    if k > 0 {
      assert CharAt(input, p + 1) == rest[0];
      MatchKeywordRejects(input, p + 1, rest[1..], kind, k - 1);
    }
  }

  predicate IsLiteralKind(kind: TokenType) {
    kind == Null || kind == True || kind == False
  }

  /** `null`, `true` and `false` each give one token of their kind, whose text
      is the kind's name, and the cursor ends just past the last letter. */
  lemma ScanKeyword(input: string, p: nat, kind: TokenType)
    requires IsLiteralKind(kind)
    requires p + |Name(kind)| <= |input| && input[p..p + |Name(kind)|] == Name(kind)
    ensures Scan(input, p) == Scanned(Token(kind, Name(kind)), p + |Name(kind)|)
  {
    var word := Name(kind);
    assert input[p] == word[0];
    forall j | 0 <= j < |word| - 1
      ensures CharAt(input, p + 1 + j) == word[1..][j]
    {
      assert input[p..p + |word|][1 + j] == word[1 + j];
    }
    MatchKeywordAccepts(input, p, word[1..], kind);
  }

  /** At the first letter `k` that differs from the keyword, the token is
      ILLEGAL carrying that character (the sentinel if the input ran out),
      and the cursor stays on it, so the next call starts from it. */
  lemma ScanKeywordMismatch(input: string, p: nat, kind: TokenType, k: nat)
    requires IsLiteralKind(kind)
    requires 0 < k < |Name(kind)|
    requires forall j :: 0 <= j < k ==> CharAt(input, p + j) == Name(kind)[j]
    requires CharAt(input, p + k) != Name(kind)[k]
    ensures Scan(input, p) == Scanned(Token(ILLEGAL, [CharAt(input, p + k)]), p + k)
  {
    var word := Name(kind);
    assert CharAt(input, p) == word[0];
    forall j | 0 <= j < k - 1
      ensures CharAt(input, p + 1 + j) == word[1..][j]
    {
      assert CharAt(input, p + (j + 1)) == word[j + 1];
    }
    MatchKeywordRejects(input, p, word[1..], kind, k - 1);
  }

  /** A number starts at a character in the `IsDigit` range (other than the
      comma, which is a delimiter) or at a sign. Its text is the longest run of
      number characters from there, and the character that ends the run is
      skipped along with it. */
  lemma ScanNumber(input: string, p: nat)
    requires CharAt(input, p) != ','
    requires IsDigit(CharAt(input, p)) || IsPlusOrMinus(CharAt(input, p))
    ensures var s := Scan(input, p);
      && s.tok.typ == Number
      && p < s.next - 1 <= |input|
      && s.tok.text == input[p..s.next - 1]
      && (forall i :: p <= i < s.next - 1 ==> IsNumber(input[i]))
      && !IsNumber(CharAt(input, s.next - 1))
  {
    var c := CharAt(input, p);
    assert c !in "{}[];ntf\"\0" && !IsWhiteSpace(c);
    assert SkipWhiteSpace(input, p) == p;
    var stop := NumberStop(input, p + 1);
    assert Scan(input, p) == Scanned(Token(Number, input[p..stop]), stop + 1);
    forall i | p <= i < stop
      ensures IsNumber(input[i])
    {
      if i > p {
        assert IsNumber(CharAt(input, i));
      }
    }
  }

  /** The string scan from an opening quote at `p`. Its look-ahead is fixed at
      the character two places on and its look-behind at the opening quote (the
      sentinel at the start of the input), so a backslash is only ever judged by
      that one look-ahead, and every quote or control character ends the scan.
      If the character that ends it is a quote, the token is String with the
      text "string"; otherwise it is ILLEGAL carrying everything from the
      opening quote through that character, and the cursor stays on it. */
  lemma ScanString(input: string, p: nat) returns (stop: nat)
    requires CharAt(input, p) == '"'
    ensures var next, prev := CharAt(input, p + 2), if p > 0 then '"' else '\0';
      && p < stop <= |input|
      && (forall i :: p < i < stop ==> IsString(input[i], next, prev))
      && !IsString(CharAt(input, stop), next, prev)
    ensures forall i :: p < i < stop ==> input[i] != '"' && !IsControlChar(input[i])
    ensures CharAt(input, stop) == '"' ==> Scan(input, p) == Scanned(Token(String, "string"), stop + 1)
    ensures CharAt(input, stop) != '"' ==>
      Scan(input, p) == Scanned(Token(ILLEGAL, Slice(input, p, stop + 1)), stop)
  {
    var next, prev := CharAt(input, p + 2), if p > 0 then '"' else '\0';
    stop := StringStop(input, p + 1, next, prev);
    forall i | p < i < stop
      ensures IsString(input[i], next, prev)
    {
      assert IsString(CharAt(input, i), next, prev);
    }
    var str := Slice(input, p, stop + 1);
    assert str[|str| - 1] == CharAt(input, stop);
  }

  /** A scan of input that is all whitespace yields one ILLEGAL token, not
      nothing. */
  lemma WhiteSpaceOnly(input: string)
    requires |input| > 0
    requires forall i :: 0 <= i < |input| ==> IsWhiteSpace(input[i])
    ensures Tokens(input, 0) == [Token(ILLEGAL, "")]
  {
    var w := ScanWhiteSpaceLead(input, 0);
    assert w == |input|;
  }
}
