/** Whole scans of concrete inputs: the cases of json/lexer_test.go, and
    inputs that show how the scanner departs from JSON. */
module JsonLexerExamples {
  import opened JsonToken
  import opened JsonLexer
  import opened JsonLexerProperties

  /** A fresh lexer over `input`, scanned to the end, as the tests use it. */
  method Lex(input: string) returns (toks: seq<Token>)
    ensures toks == Tokens(input, 0)
    ensures forall i :: 0 <= i < |toks| ==> toks[i].typ != EOF
  {
    var l := new Lexer(input);
    toks := l.GenerateTokens();
  }

  lemma EmptyInput()
    ensures Tokens("", 0) == []
  {
  }

  lemma {:induction false} Literals()
    ensures Tokens("null", 0) == [Token(Null, "null")]
    ensures Tokens("true", 0) == [Token(True, "true")]
    ensures Tokens("false", 0) == [Token(False, "false")]
  {
    ScanKeyword("null", 0, Null);
    ScanKeyword("true", 0, True);
    ScanKeyword("false", 0, False);
  }

  /** A number that fills the input is one Number token with the input as text. */
  lemma {:induction false} WholeNumber(input: string)
    requires |input| > 0 && input[0] != ','
    requires IsDigit(input[0]) || IsPlusOrMinus(input[0])
    requires forall i :: 0 <= i < |input| ==> IsNumber(input[i])
    ensures Tokens(input, 0) == [Token(Number, input)]
  {
    ScanNumber(input, 0);
    var s := Scan(input, 0);
    if s.next - 1 < |input| {
      assert false;
    }
    assert input[0..|input|] == input;
  }

  /** The integer cases of the tests. */
  lemma Numbers()
    ensures Tokens("0", 0) == [Token(Number, "0")]
    ensures Tokens("9", 0) == [Token(Number, "9")]
    ensures Tokens("989", 0) == [Token(Number, "989")]
    ensures Tokens("-54578", 0) == [Token(Number, "-54578")]
  {
    WholeNumber("0");
    WholeNumber("9");
    WholeNumber("989");
    WholeNumber("-54578");
  }

  /** The fraction and exponent cases of the tests. */
  lemma Floats()
    ensures Tokens("3.14", 0) == [Token(Number, "3.14")]
    ensures Tokens("-3.14", 0) == [Token(Number, "-3.14")]
    ensures Tokens("1e10", 0) == [Token(Number, "1e10")]
    ensures Tokens("-2.5e-3", 0) == [Token(Number, "-2.5e-3")]
    ensures Tokens("6.022e23", 0) == [Token(Number, "6.022e23")]
    ensures Tokens("1E+3", 0) == [Token(Number, "1E+3")]
  {
    WholeNumber("3.14");
    WholeNumber("-3.14");
    WholeNumber("1e10");
    WholeNumber("-2.5e-3");
    WholeNumber("6.022e23");
    WholeNumber("1E+3");
  }

  /** The number scanner is permissive: any mix of signs, exponent letters and
      the characters `&'()*,./` is one Number. */
  lemma PermissiveNumbers()
    ensures Tokens("1--2e+e3", 0) == [Token(Number, "1--2e+e3")]
    ensures Tokens("1,2", 0) == [Token(Number, "1,2")]
    ensures Tokens("(*)", 0) == [Token(Number, "(*)")]
  {
    WholeNumber("1--2e+e3");
    WholeNumber("1,2");
    WholeNumber("(*)");
  }

  /** The character after a number is consumed with it: a closing bracket
      right after a number is lost. */
  lemma NumberSwallowsNext()
    ensures Tokens("12]", 0) == [Token(Number, "12")]
  {
    var input := "12]";
    ScanNumber(input, 0);
    assert !IsNumber(']');
    assert Scan(input, 0) == Scanned(Token(Number, input[0..2]), 3);
    assert input[0..2] == "12";
  }

  /** A closed string with no backslash, quote or control character inside
      yields the text "string", not its lexeme. */
  lemma {:induction false} PlainString(body: string)
    requires forall i :: 0 <= i < |body| ==> body[i] != '"' && body[i] != '\\' && !IsControlChar(body[i])
    ensures Tokens("\"" + body + "\"", 0) == [Token(String, "string")]
  {
    var input := "\"" + body + "\"";
    var stop := ScanString(input, 0);
    assert input[|body| + 1] == '"';
    if stop < |body| + 1 {
      assert false;
    }
    if stop > |body| + 1 {
      assert false;
    }
  }

  /** The second string case of the tests. */
  lemma WordsString()
    ensures Tokens("\"json is a data format\"", 0) == [Token(String, "string")]
  {
    PlainString("json is a data format");
    assert "\"" + "json is a data format" + "\"" == "\"json is a data format\"";
  }

  /** The third string case of the tests, with spaces at both ends. */
  lemma PaddedString()
    ensures Tokens("\" This string contains spaces \"", 0) == [Token(String, "string")]
  {
    PlainString(" This string contains spaces ");
    assert "\"" + " This string contains spaces " + "\"" == "\" This string contains spaces \"";
  }

  /** The three string cases of the tests: a closed string yields the text
      "string", not its lexeme as the tests expect. */
  lemma ClosedString()
    ensures Tokens("\"json\"", 0) == [Token(String, "string")]
    ensures Tokens("\"json is a data format\"", 0) == [Token(String, "string")]
    ensures Tokens("\" This string contains spaces \"", 0) == [Token(String, "string")]
  {
    PlainString("json");
    assert "\"" + "json" + "\"" == "\"json\"";
    WordsString();
    PaddedString();
  }

  /** The look-ahead is taken once, two places after the opening quote: here
      it is the backslash itself, which is escapable, so the invalid escape
      `\q` passes. */
  lemma StaleLookAhead()
    ensures Tokens("\"a\\q\"", 0) == [Token(String, "string")]
  {
    var stop := ScanString("\"a\\q\"", 0);
    assert stop == 4;
  }

  /** An escaped quote still ends the string; the quote after it opens a new
      string that runs off the end. Its text carries the sentinel: the five
      characters leave a spare zeroed slot in Go's rune slice, which is what
      the slice past the end at json/lexer.go:137 reads. */
  lemma EscapedQuoteEndsString()
    ensures Tokens("\"\\\"\" ", 0) == [Token(String, "string"), Token(ILLEGAL, "\" \0")]
  {
    var input := "\"\\\"\" ";
    var stop := ScanString(input, 0);
    assert stop == 2;
    var stop' := ScanString(input, 3);
    assert stop' == 5;
    assert Slice(input, 3, 6) == "\" \0";
  }

  /** An unterminated string is ILLEGAL and carries what was read, with the
      sentinel for the missing closing character. The three characters leave
      a spare zeroed slot in Go's rune slice, which the slice past the end
      reads. */
  lemma UnterminatedString()
    ensures Tokens("\"ab", 0) == [Token(ILLEGAL, "\"ab\0")]
  {
    var input := "\"ab";
    var stop := ScanString(input, 0);
    assert stop == 3;
    assert Slice(input, 0, 4) == "\"ab\0";
  }

  /** A truncated keyword is one ILLEGAL token carrying the sentinel. */
  lemma TruncatedKeyword()
    ensures Tokens("nul", 0) == [Token(ILLEGAL, "\0")]
  {
    ScanKeywordMismatch("nul", 0, Null, 3);
  }

  /** The wrong letter of a keyword is not consumed: the next token starts at it. */
  lemma MisspelledKeyword()
    ensures Tokens("nxll", 0) ==
      [Token(ILLEGAL, "x"), Token(ILLEGAL, ""), Token(ILLEGAL, ""), Token(ILLEGAL, "")]
  {
    ScanKeywordMismatch("nxll", 0, Null, 1);
    ScanUnrecognized("nxll", 1);
    ScanUnrecognized("nxll", 2);
    ScanUnrecognized("nxll", 3);
  }

  /** The colon of JSON is not a delimiter; the semicolon is. */
  lemma ColonAndSemicolon()
    ensures Tokens(":", 0) == [Token(ILLEGAL, "")]
    ensures Tokens(";", 0) == [Token(SemiColon, ";")]
  {
    ScanUnrecognized(":", 0);
    ScanDelimiter(";", 0);
  }

  /** Whitespace before a delimiter hides it: the whitespace selects an
      ILLEGAL token and the brace is consumed with it. */
  lemma WhiteSpaceHidesDelimiter()
    ensures Tokens(" { ", 0) == [Token(ILLEGAL, ""), Token(ILLEGAL, "")]
  {
    var w := ScanWhiteSpaceLead(" { ", 0);
    assert w == 1;
    var w' := ScanWhiteSpaceLead(" { ", 2);
    assert w' == 3;
  }

  lemma Delimiters()
    ensures Tokens("{}[],", 0) ==
      [Token(LeftCurlyBrace, "{"), Token(RightCurlyBrace, "}"), Token(LeftSquareBrace, "["),
       Token(RightSquareBrace, "]"), Token(Comma, ",")]
  {
    var input := "{}[],";
    ScanDelimiter(input, 4);
    assert Tokens(input, 4) == [Token(Comma, ",")];
    ScanDelimiter(input, 3);
    assert Tokens(input, 3) == [Token(RightSquareBrace, "]"), Token(Comma, ",")];
    ScanDelimiter(input, 2);
    assert Tokens(input, 2) == [Token(LeftSquareBrace, "[")] + Tokens(input, 3);
    ScanDelimiter(input, 1);
    assert Tokens(input, 1) == [Token(RightCurlyBrace, "}")] + Tokens(input, 2);
    ScanDelimiter(input, 0);
    assert Tokens(input, 0) == [Token(LeftCurlyBrace, "{")] + Tokens(input, 1);
  }

  /** A NUL read as the dispatch character ends the scan like the end of the
      input, and the lexer's cursor is left just past it, on the brace. */
  lemma NulEndsScan()
    ensures Tokens("{\0}", 0) == [Token(LeftCurlyBrace, "{")]
    ensures TokensEnd("{\0}", 0) == 2
  {
    ScanDelimiter("{\0}", 0);
    ScanAtEnd("{\0}", 1);
  }

  /** A NUL that ends a number run, or that follows whitespace, is consumed by
      the step's final character read, and the scan goes on. */
  lemma NulConsumedMidStep()
    ensures Tokens("1\0}", 0) == [Token(Number, "1"), Token(RightCurlyBrace, "}")]
    ensures Tokens(" \0}", 0) == [Token(ILLEGAL, ""), Token(RightCurlyBrace, "}")]
  {
    var number := "1\0}";
    ScanNumber(number, 0);
    assert !IsNumber('\0');
    assert Scan(number, 0) == Scanned(Token(Number, number[0..1]), 2);
    assert number[0..1] == "1";
    ScanDelimiter(number, 2);
    var w := ScanWhiteSpaceLead(" \0}", 0);
    assert w == 1;
    ScanDelimiter(" \0}", 2);
  }

  /** The cases of the string-continuation table in the tests. */
  lemma IsStringCases()
    ensures IsString('a', 'b', 'c') && IsString('x', '\0', 'y')
    ensures forall e :: e in "\"\\/bfnrtu" ==> IsString('\\', e, '\0')
    ensures !IsString('\\', 'a', '\0') && !IsString('\\', 'x', '\0') && !IsString('\\', 'y', 'z')
    ensures !IsString('"', 'y', 'z') && !IsString('\t', 'y', 'z')
  {
  }
}
