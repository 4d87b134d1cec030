/** The JSON scanner (json/lexer.go): character classes, a pure description of
    one scanning step and of a whole scan, and the `Lexer` object whose methods
    move a cursor over the input step by step and are proved to follow that
    description. */
module JsonLexer {
  import opened JsonToken

  // ---------------------------------------------------------------------
  // Character classes. Characters are Unicode scalar values, as the runes of
  // a decoded Go string are; '\0' doubles as the end-of-input sentinel.
  // ---------------------------------------------------------------------

  predicate IsBackslash(r: char)
    ensures IsBackslash(r) <==> r as int == 0x5C
  {
    r == '\\'
  }

  /** The characters that may follow a backslash (section 7 of RFC 8259). */
  predicate IsEscapable(r: char)
    ensures IsEscapable(r) <==> r as int in {0x22, 0x5C, 0x2F, 0x62, 0x66, 0x6E, 0x72, 0x74, 0x75}
  {
    match r
    case '"' | '\\' | '/' | 'b' | 'f' | 'n' | 'r' | 't' | 'u' => true
    case _ => false
  }

  predicate IsDoubleQuote(r: char)
    ensures IsDoubleQuote(r) <==> r as int == 0x22
  {
    r == '"'
  }

  /** The C0 controls that section 7 of RFC 8259 forbids unescaped, and in
      addition DEL and the C1 controls. */
  predicate IsControlChar(r: char)
    ensures IsControlChar(r) <==> r as int < 0x20 || 0x7F <= r as int < 0xA0
  {
    (r as int >= 0x0000 && r as int <= 0x001F) || r as int == 0x007F || (r as int >= 0x0080 && r as int <= 0x009F)
  }

  /** The insignificant whitespace of section 2 of RFC 8259. */
  predicate IsWhiteSpace(r: char)
    ensures IsWhiteSpace(r) <==> r as int in {0x20, 0x09, 0x0A, 0x0D}
  {
    match r
    case ' ' | '\t' | '\n' | '\r' => true
    case _ => false
  }

  /** The code points 38 to 57: the ten digits and the ten characters below them. */
  predicate IsDigit(r: char)
    ensures IsDigit(r) <==> '0' <= r <= '9' || '&' <= r <= '/'
  {
    r as int >= 38 && r as int <= 57
  }

  predicate IsPlusOrMinus(r: char)
    ensures IsPlusOrMinus(r) <==> r == '-' || r == '+'
  {
    r as int == 45 || r as int == 43
  }

  predicate IsE(r: char)
    ensures IsE(r) <==> r == 'E' || r == 'e'
  {
    r as int == 69 || r as int == 101
  }

  /** Whether `c` continues a string, given the character after it and the
      one before it. */
  predicate IsString(c: char, next: char, prev: char)
    ensures c == '"' || IsControlChar(c) ==> !IsString(c, next, prev)
    ensures c != '"' && c != '\\' && !IsControlChar(c) ==> IsString(c, next, prev)
    ensures c == '\\' ==> (IsString(c, next, prev) <==> prev == '\\' || IsEscapable(next))
  {
    if IsDoubleQuote(c) || IsControlChar(c) then
      false
    else if IsBackslash(c) then
      (prev != '\0' && IsBackslash(prev)) || (next != '\0' && IsEscapable(next))
    else
      true
  }

  /** Whether `c` continues a number. */
  predicate IsNumber(c: char)
    ensures IsNumber(c) <==> '0' <= c <= '9' || '&' <= c <= '/' || c == 'e' || c == 'E'
  {
    IsDigit(c) || IsPlusOrMinus(c) || IsE(c)
  }

  // ---------------------------------------------------------------------
  // A pure description of the scanner. Its state is the cursor position
  // alone: the current character is always `CharAt(input, position)`.
  // ---------------------------------------------------------------------

  /** The character at position `p`, or the sentinel past the end. */
  function CharAt(input: string, p: nat): char {
    if p < |input| then input[p] else '\0'
  }

  /** How many characters are left from position `p`. */
  function Remaining(input: string, p: nat): nat {
    if p < |input| then |input| - p else 0
  }

  /** The characters at positions `lo` to `hi - 1`, where a position past the
      end reads as the sentinel. */
  function Slice(input: string, lo: nat, hi: nat): (s: string)
    requires lo <= hi
    ensures |s| == hi - lo
    ensures forall i :: 0 <= i < |s| ==> s[i] == CharAt(input, lo + i)
  {
    seq(hi - lo, i requires 0 <= i < hi - lo => CharAt(input, lo + i))
  }

  /** The first position from `p` on that does not hold whitespace. */
  function SkipWhiteSpace(input: string, p: nat): (q: nat)
    ensures p <= q && !IsWhiteSpace(CharAt(input, q))
    ensures forall i :: p <= i < q ==> IsWhiteSpace(CharAt(input, i))
    ensures q <= |input| || q == p
    decreases Remaining(input, p)
  {
    if IsWhiteSpace(CharAt(input, p)) then SkipWhiteSpace(input, p + 1) else p
  }

  /** The first position from `q` on whose character does not continue a
      string, with the look-ahead `next` and look-behind `prev` held fixed. */
  function StringStop(input: string, q: nat, next: char, prev: char): (stop: nat)
    ensures q <= stop && !IsString(CharAt(input, stop), next, prev)
    ensures forall i :: q <= i < stop ==> IsString(CharAt(input, i), next, prev)
    ensures stop <= |input| || stop == q
    decreases Remaining(input, q)
  {
    if IsString(CharAt(input, q), next, prev) then StringStop(input, q + 1, next, prev) else q
  }

  /** The first position from `q` on whose character does not continue a number. */
  function NumberStop(input: string, q: nat): (stop: nat)
    ensures q <= stop && !IsNumber(CharAt(input, stop))
    ensures forall i :: q <= i < stop ==> IsNumber(CharAt(input, i))
    ensures stop <= |input| || stop == q
    decreases Remaining(input, q)
  {
    if IsNumber(CharAt(input, q)) then NumberStop(input, q + 1) else q
  }

  /** A scanned lexeme and the position of the character that ended it. */
  datatype Lexeme = Lexeme(text: string, stop: nat)

  /** The string scan from the opening quote at `start`: the look-ahead is
      the character two places on and the look-behind the opening quote (or
      the sentinel when it is the first character), both taken once. */
  function StringLexeme(input: string, start: nat): (lx: Lexeme)
    requires start < |input|
    ensures start < lx.stop <= |input|
    ensures lx.text == Slice(input, start, lx.stop + 1)
    ensures var next, prev := CharAt(input, start + 2), if start > 0 then input[start] else '\0';
      && (forall i :: start < i < lx.stop ==> IsString(CharAt(input, i), next, prev))
      && !IsString(CharAt(input, lx.stop), next, prev)
  {
    var next := CharAt(input, start + 2);
    var prev := if start > 0 then input[start] else '\0';
    var stop := StringStop(input, start + 1, next, prev);
    Lexeme(Slice(input, start, stop + 1), stop)
  }

  /** The number scan from its first character at `start`. */
  function NumberLexeme(input: string, start: nat): (lx: Lexeme)
    requires start < |input|
    ensures start < lx.stop <= |input|
    ensures lx.text == input[start..lx.stop]
    ensures forall i :: start < i < lx.stop ==> IsNumber(CharAt(input, i))
    ensures !IsNumber(CharAt(input, lx.stop))
  {
    var stop := NumberStop(input, start + 1);
    Lexeme(input[start..stop], stop)
  }

  /** A token and the cursor position after it. */
  datatype Scanned = Scanned(tok: Token, next: nat)

  /** Keyword matching once its first letter sits at `p`: each letter of
      `rest` is read in turn, and the first that differs ends the scan with an
      ILLEGAL token carrying it, the cursor left on it. */
  function MatchKeyword(input: string, p: nat, rest: string, kind: TokenType): (s: Scanned)
    requires '\0' !in rest
    ensures p < s.next <= p + |rest| + 1
    ensures p < |input| ==> s.next <= |input|
    ensures s.tok.typ == kind || s.tok.typ == ILLEGAL
    decreases |rest|
  {
    if rest == [] then
      Scanned(NewToken(kind, Name(kind)), p + 1)
    else if CharAt(input, p + 1) != rest[0] then
      Scanned(NewToken(ILLEGAL, [CharAt(input, p + 1)]), p + 1)
    else
      MatchKeyword(input, p + 1, rest[1..], kind)
  }

  /** One call of the scanner with the cursor at `p`. The character that
      selects the branch is read before whitespace is skipped, and every
      branch that does not return early moves one more character on. */
  function Scan(input: string, p: nat): (s: Scanned)
    ensures p < s.next
    ensures s.tok.typ == EOF <==> CharAt(input, p) == '\0'
    ensures p < |input| ==> s.next <= |input| + 1
    ensures IsDeclared(s.tok.typ) && s.tok.typ != Object && s.tok.typ != Array
  {
    var c := CharAt(input, p);
    var w := SkipWhiteSpace(input, p);
    var cur := CharAt(input, w);
    if c == '{' then Scanned(NewToken(LeftCurlyBrace, [cur]), w + 1)
    else if c == '}' then Scanned(NewToken(RightCurlyBrace, [cur]), w + 1)
    else if c == '[' then Scanned(NewToken(LeftSquareBrace, [cur]), w + 1)
    else if c == ']' then Scanned(NewToken(RightSquareBrace, [cur]), w + 1)
    else if c == ',' then Scanned(NewToken(Comma, [cur]), w + 1)
    else if c == ';' then Scanned(NewToken(SemiColon, [cur]), w + 1)
    else if c == 'n' then MatchKeyword(input, w, "ull", Null)
    else if c == 't' then MatchKeyword(input, w, "rue", True)
    else if c == 'f' then MatchKeyword(input, w, "alse", False)
    else if c == '\0' then Scanned(NewToken(EOF, ""), w + 1)
    else if c == '"' then
      var str := StringLexeme(input, w);
      if |str.text| > 0 && str.text[|str.text| - 1] != '"' then
        Scanned(NewToken(ILLEGAL, str.text), str.stop)
      else
        Scanned(NewToken(String, Name(String)), str.stop + 1)
    else if IsDigit(c) || IsPlusOrMinus(c) then
      var num := NumberLexeme(input, w);
      Scanned(NewToken(Number, num.text), num.stop + 1)
    else
      Scanned(NewToken(ILLEGAL, ""), w + 1)
  }

  /** The tokens a scan from position `p` collects before the end-of-input token. */
  function Tokens(input: string, p: nat): (toks: seq<Token>)
    ensures forall i :: 0 <= i < |toks| ==> IsDeclared(toks[i].typ) && toks[i].typ != EOF
    ensures forall i :: 0 <= i < |toks| ==> toks[i].typ != Object && toks[i].typ != Array
    ensures |toks| <= Remaining(input, p)
    ensures toks == [] <==> CharAt(input, p) == '\0'
    decreases Remaining(input, p)
  {
    var s := Scan(input, p);
    if s.tok.typ == EOF then [] else [s.tok] + Tokens(input, s.next)
  }

  /** The end-of-input step moves the cursor by exactly one. */
  lemma ScanAtEnd(input: string, p: nat)
    requires CharAt(input, p) == '\0'
    ensures Scan(input, p) == Scanned(Token(EOF, ""), p + 1)
  {
  }

  /** The cursor position after a scan from position `p` has read the
      end-of-input token: one past the first sentinel that a step starts on. */
  function TokensEnd(input: string, p: nat): (q: nat)
    ensures p < q && CharAt(input, q - 1) == '\0'
    decreases Remaining(input, p)
  {
    var s := Scan(input, p);
    if s.tok.typ == EOF then
      ScanAtEnd(input, p);
      s.next
    else
      TokensEnd(input, s.next)
  }

  // ---------------------------------------------------------------------
  // The scanner object.
  // ---------------------------------------------------------------------

  class Lexer {
    const input: string
    var currentChar: char
    var currentPosition: nat
    var nextPosition: nat

    /** The look-ahead position is one past the cursor, and the current
        character is the one under the cursor. */
    ghost predicate Valid()
      reads this
    {
      nextPosition == currentPosition + 1 && currentChar == CharAt(input, currentPosition)
    }

    /** A lexer over `input`, with its first character loaded. */
    constructor (input: string)
      ensures this.input == input
      ensures Valid() && currentPosition == 0 && nextPosition == 1
      ensures currentChar == CharAt(input, 0)
    {
      this.input := input;
      currentChar := '\0';
      currentPosition := 0;
      nextPosition := 0;
      new;
      ReadChar();
    }

    /** Moves the cursor to the look-ahead position and loads its character. */
    method ReadChar()
      modifies this
      ensures currentPosition == old(nextPosition) && nextPosition == currentPosition + 1
      ensures currentChar == CharAt(input, currentPosition)
      ensures Valid()
    {
      if nextPosition >= |input| {
        currentChar := '\0';
      } else {
        currentChar := input[nextPosition];
      }
      currentPosition := nextPosition;
      nextPosition := currentPosition + 1;
    }

    method EatWhiteSpace()
      requires Valid()
      modifies this
      ensures Valid() && currentPosition == SkipWhiteSpace(input, old(currentPosition))
    {
      while IsWhiteSpace(currentChar)
        invariant Valid() && old(currentPosition) <= currentPosition
        invariant SkipWhiteSpace(input, currentPosition) == SkipWhiteSpace(input, old(currentPosition))
        decreases |input| - currentPosition
      {
        ReadChar();
      }
    }

    /** Scans a string from the opening quote under the cursor, leaving the
        cursor on the character that ended it. When that is the end of the
        input, the returned text ends in the sentinel. */
    method ReadString() returns (str: string)
      requires Valid() && currentPosition < |input|
      modifies this
      ensures Valid() && Lexeme(str, currentPosition) == StringLexeme(input, old(currentPosition))
    {
      var position := currentPosition;
      ReadChar();
      var nextChar, prevChar := '\0', '\0';
      if nextPosition < |input| {
        nextChar := input[nextPosition];
      }
      if nextPosition - 2 > 0 {
        prevChar := input[nextPosition - 2];
      }
      while IsString(currentChar, nextChar, prevChar)
        invariant Valid() && position < currentPosition <= |input|
        invariant StringStop(input, currentPosition, nextChar, prevChar)
                  == StringStop(input, position + 1, nextChar, prevChar)
        decreases |input| - currentPosition
      {
        ReadChar();
      }
      if nextPosition <= |input| {
        str := input[position..nextPosition];
      } else {
        str := input[position..] + ['\0'];
      }
      assert str == Slice(input, position, nextPosition);
    }

    /** Scans a number from its first character under the cursor, leaving the
        cursor on the character after it. */
    method ReadNumber() returns (num: string)
      requires Valid() && currentPosition < |input|
      modifies this
      ensures Valid() && Lexeme(num, currentPosition) == NumberLexeme(input, old(currentPosition))
    {
      var position := currentPosition;
      ReadChar();
      while IsNumber(currentChar)
        invariant Valid() && position < currentPosition <= |input|
        invariant NumberStop(input, currentPosition) == NumberStop(input, position + 1)
        decreases |input| - currentPosition
      {
        ReadChar();
      }
      num := input[position..currentPosition];
    }

    /** Produces the next token and moves the cursor past it. */
    method NextToken() returns (tok: Token)
      requires Valid()
      modifies this
      ensures Valid() && Scanned(tok, currentPosition) == Scan(input, old(currentPosition))
      ensures old(currentPosition) < currentPosition
      ensures tok.typ == EOF <==> old(currentChar) == '\0'
    {
      var c := currentChar;
      EatWhiteSpace();
      if c == '{' {
        tok := NewToken(LeftCurlyBrace, [currentChar]);
      } else if c == '}' {
        tok := NewToken(RightCurlyBrace, [currentChar]);
      } else if c == '[' {
        tok := NewToken(LeftSquareBrace, [currentChar]);
      } else if c == ']' {
        tok := NewToken(RightSquareBrace, [currentChar]);
      } else if c == ',' {
        tok := NewToken(Comma, [currentChar]);
      } else if c == ';' {
        tok := NewToken(SemiColon, [currentChar]);
      } else if c == 'n' {
        ReadChar();
        if currentChar != 'u' {
          return NewToken(ILLEGAL, [currentChar]);
        }
        ReadChar();
        if currentChar != 'l' {
          return NewToken(ILLEGAL, [currentChar]);
        }
        ReadChar();
        if currentChar != 'l' {
          return NewToken(ILLEGAL, [currentChar]);
        }
        tok := NewToken(Null, Name(Null));
      } else if c == 't' {
        ReadChar();
        if currentChar != 'r' {
          return NewToken(ILLEGAL, [currentChar]);
        }
        ReadChar();
        if currentChar != 'u' {
          return NewToken(ILLEGAL, [currentChar]);
        }
        ReadChar();
        if currentChar != 'e' {
          return NewToken(ILLEGAL, [currentChar]);
        }
        tok := NewToken(True, Name(True));
      } else if c == 'f' {
        ReadChar();
        if currentChar != 'a' {
          return NewToken(ILLEGAL, [currentChar]);
        }
        ReadChar();
        if currentChar != 'l' {
          return NewToken(ILLEGAL, [currentChar]);
        }
        ReadChar();
        if currentChar != 's' {
          return NewToken(ILLEGAL, [currentChar]);
        }
        ReadChar();
        if currentChar != 'e' {
          return NewToken(ILLEGAL, [currentChar]);
        }
        tok := NewToken(False, Name(False));
      } else if c == '\0' {
        tok := NewToken(EOF, "");
      } else if c == '"' {
        var str := ReadString();
        if |str| > 0 && str[|str| - 1] != '"' {
          return NewToken(ILLEGAL, str);
        }
        tok := NewToken(String, Name(String));
      } else if IsDigit(c) || IsPlusOrMinus(c) {
        var num := ReadNumber();
        tok := NewToken(Number, num);
      } else {
        tok := NewToken(ILLEGAL, "");
      }
      ReadChar();
    }

    /** Collects tokens until the end-of-input token, which is not included. */
    method GenerateTokens() returns (toks: seq<Token>)
      requires Valid()
      modifies this
      ensures Valid() && toks == Tokens(input, old(currentPosition))
      ensures forall i :: 0 <= i < |toks| ==> toks[i].typ != EOF
      ensures currentPosition == TokensEnd(input, old(currentPosition))
    {
      toks := [];
      var tok := NextToken();
      while tok.typ != EOF
        invariant Valid()
        invariant toks + (if tok.typ == EOF then [] else [tok] + Tokens(input, currentPosition))
                  == Tokens(input, old(currentPosition))
        invariant (if tok.typ == EOF then currentPosition else TokensEnd(input, currentPosition))
                  == TokensEnd(input, old(currentPosition))
        decreases Remaining(input, currentPosition), if tok.typ == EOF then 0 else 1
      {
        toks := toks + [tok];
        tok := NextToken();
      }
    }
  }
}
