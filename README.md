# A verified model of a hand-written JSON lexer

The modelled repository is a JSON scanner written in Go. It turns a string into
a flat list of tokens. A `Lexer` holds the decoded input, a cursor
(`currentPosition`, with `nextPosition` one past it) and the character under the
cursor, where code 0 stands for the end of the input. `nextToken` selects a
branch on the current character and produces one token. `generateTokens` pulls
tokens until the end-of-input token. The token kinds are fifteen ordinals with
a name table.

The Dafny project has four modules:

- `JsonToken` (`token.dfy`, from `json/token.go`): `TokenType` as a newtype over
  the signed 64-bit integers. The fifteen kinds are constants `String` = 0 …
  `SemiColon` = 12, `EOF` = 13, `ILLEGAL` = 14, in declaration order. It also
  has the name table `Name`, `Index`, and the `Token` value built by
  `NewToken`.
- `JsonLexer` (`lexer.dfy`, from `json/lexer.go`):
  - The character-class predicates.
  - A pure description of the scanner whose only state is the cursor
    position: `Scan` is one `nextToken` call and `Tokens` is a whole
    `generateTokens`.
  - The `Lexer` class. Its fields are the Go fields. Its methods `ReadChar`,
    `EatWhiteSpace`, `ReadString`, `ReadNumber`, `NextToken` and
    `GenerateTokens` mirror the Go loops and branches statement by statement.
    Each is proved to compute what the pure description says.
- `JsonLexerProperties` (`lexer_properties.dfy`): what one step does, case by
  case, for every branch of the dispatch.
- `JsonLexerExamples` (`lexer_examples.dfy`): whole scans of concrete inputs.
  These are the cases of `json/lexer_test.go` and inputs that show where the
  scanner departs from JSON.

Input and token text are `string`s, that is, sequences of Unicode scalar
values. These are exactly the runes a decoded Go string holds. The sentinel is
`'\0'`.

## Behaviour as written

The model follows the code, including where it departs from JSON
(RFC 8259) or from what its own tests expect. Each point below is proved as a
lemma.

- The colon token is triggered by `;`. A `:` is ILLEGAL with empty text
  (`ColonAndSemicolon`).
- The dispatch character is read before whitespace is skipped. So whitespace
  before a token produces ILLEGAL with empty text, and the first
  non-whitespace character is consumed with it (`ScanWhiteSpaceLead`,
  `WhiteSpaceHidesDelimiter`). Non-empty input that is only whitespace yields one
  ILLEGAL token, not an empty list (`WhiteSpaceOnly`).
- `isDigit` accepts code points 38 to 57, which includes `&'()*+,-./`. Numbers
  have no grammar: `1--2e+e3`, `1,2` and `(*)` are each one Number token
  (`PermissiveNumbers`).
- The character after a number is consumed by the final `readChar`. In `12]`,
  the `]` is lost (`NumberSwallowsNext`).
- A closed string yields the text `"string"`, not its lexeme. The three
  string cases at `json/lexer_test.go:76-96` expect the lexeme; the model
  proves that the code gives `"string"` for all three (`ClosedString`).
- `readString` fixes its look-ahead and look-behind once, before its loop. The
  look-behind is only ever 0 or the opening quote, so an escaped quote still
  ends the string (`EscapedQuoteEndsString`). A backslash is judged by the
  character two places after the opening quote, so `"a\q"` is accepted
  (`StaleLookAhead`).
- A NUL read as the dispatch character ends the scan like the end of the input,
  and leaves the cursor just past it (`NulEndsScan`). A NUL that ends a number
  run or follows whitespace is consumed by the step's final character read, and
  the scan goes on: `1\0}` and ` \0}` both end with a RightCurlyBrace token
  (`NulConsumedMidStep`).
- `Object` and `Array` are never produced (the contracts of `Scan` and `Tokens`).

## Model

| member | source | states |
|---|---|---|
| `JsonToken.Name` | json/token.go:28-54 | a kind's name is "Unknown" exactly when the kind is outside the declared ordinals 0..14; declared kinds have non-empty names |
| `JsonToken.Index` | json/token.go:56-58 | the index is the ordinal, and converting it back gives the same kind; it lies in 0..14 exactly for declared kinds |
| `JsonToken.NewToken` | json/token.go:65-70 | the token carries the given kind and text and nothing else |
| `JsonToken.LiteralNames` | json/token.go:29-45 | the names of `True`, `False`, `Null` and `String` are "true", "false", "null" and "string" |
| `JsonToken.NameInjective` | json/token.go:29-45 | no two declared kinds share a name |
| `JsonLexer.IsBackslash` | json/lexer.go:204-206 | true exactly for U+005C |
| `JsonLexer.IsEscapable` | json/lexer.go:208-215 | true exactly for the nine characters that may follow a backslash in section 7 of RFC 8259 |
| `JsonLexer.IsDoubleQuote` | json/lexer.go:217-219 | true exactly for U+0022 |
| `JsonLexer.IsControlChar` | json/lexer.go:221-223 | true exactly below U+0020 and from U+007F through U+009F |
| `JsonLexer.IsWhiteSpace` | json/lexer.go:225-232 | true exactly for the four whitespace code points of section 2 of RFC 8259 |
| `JsonLexer.IsDigit` | json/lexer.go:234-236 | true exactly for `0`-`9` and for `&` through `/` |
| `JsonLexer.IsPlusOrMinus` | json/lexer.go:238-240 | true exactly for `+` and `-` |
| `JsonLexer.IsE` | json/lexer.go:242-244 | true exactly for `e` and `E` |
| `JsonLexer.IsString` | json/lexer.go:177-195 | false for a quote or a control character; true for any other non-backslash character; for a backslash, true iff the previous character is a backslash or the next is escapable |
| `JsonLexer.IsNumber` | json/lexer.go:197-202 | true exactly for `0`-`9`, `&` through `/`, `e` and `E` |
| `JsonLexer.SkipWhiteSpace` | json/lexer.go:161-165 | the first position at or after the cursor whose character is not whitespace; everything before it is whitespace, and it is within the input |
| `JsonLexer.StringStop` | json/lexer.go:133-135 | the first position whose character does not continue the string under the fixed look-ahead and look-behind; every character before it does |
| `JsonLexer.NumberStop` | json/lexer.go:154-156 | the first position whose character does not continue a number; every character before it does |
| `JsonLexer.StringLexeme` | json/lexer.go:119-138 | with the look-ahead fixed at the character two places on and the look-behind at the start character (the sentinel at position 0), the scan stops at the first position after the start whose character does not continue the string, which lies inside the input or at its end; the text is the characters from the start through that position, the sentinel standing for a position past the end |
| `JsonLexer.NumberLexeme` | json/lexer.go:140-159 | the number scan stops at the first position after its first character whose character does not continue a number, which lies within the input or at its end; its text is the input from the first character up to, not including, that position |
| `JsonLexer.MatchKeyword` | json/lexer.go:37-82 | keyword matching moves the cursor forward by at most the keyword's length, stays within the input, and yields the keyword's kind or ILLEGAL |
| `JsonLexer.Scan` | json/lexer.go:18-106 | every step moves the cursor forward; it yields EOF exactly when the current character is the sentinel; from inside the input the cursor ends at most one past the end; the kind is declared and never Object or Array |
| `JsonLexer.ScanAtEnd` | json/lexer.go:83-84 | a step on the sentinel yields EOF with empty text and moves the cursor by exactly one |
| `JsonLexer.TokensEnd` | json/lexer.go:10-16 | the cursor after a whole scan lies past the starting position, just after a sentinel: the scan stops only on the end of the input or on a NUL read as the dispatch character |
| `JsonLexer.Tokens` | json/lexer.go:10-16 | the collected tokens contain no EOF, Object or Array; there are at most as many as characters remain; the list is empty exactly when the first character is the sentinel |
| `JsonLexer.Lexer.constructor` | json/lexer.go:167-175 | a new lexer has the cursor at 0, the look-ahead at 1 and the first character (or the sentinel) loaded |
| `JsonLexer.Lexer.ReadChar` | json/lexer.go:108-117 | the cursor moves to the old look-ahead, the look-ahead is one past it, and the current character is the one under the cursor or the sentinel past the end |
| `JsonLexer.Lexer.EatWhiteSpace` | json/lexer.go:161-165 | the cursor moves to the first non-whitespace position |
| `JsonLexer.Lexer.ReadString` | json/lexer.go:119-138 | the returned text and the final cursor are those of the string scan from the cursor |
| `JsonLexer.Lexer.ReadNumber` | json/lexer.go:140-159 | the returned text and the final cursor are those of the number scan from the cursor |
| `JsonLexer.Lexer.NextToken` | json/lexer.go:18-106 | the token and the new cursor are those of one step from the old cursor; the cursor strictly increases; the token is EOF exactly when the old current character was the sentinel |
| `JsonLexer.Lexer.GenerateTokens` | json/lexer.go:10-16 | the result is the scan from the old cursor, so it terminates and contains no EOF; the cursor ends where that scan's end-of-input step leaves it, which may be inside the input |
| `JsonLexerProperties.ScanDelimiter` | json/lexer.go:24-36 | each of `{ } [ ] , ;` yields its own kind with that one character as text and moves the cursor by exactly one |
| `JsonLexerProperties.ScanUnrecognized` | json/lexer.go:99-104 | any other character that starts no token, the colon included, yields ILLEGAL with empty text and is consumed |
| `JsonLexerProperties.ScanWhiteSpaceLead` | json/lexer.go:19-24 | a step that starts on whitespace yields ILLEGAL with empty text and moves one past the first non-whitespace character |
| `JsonLexerProperties.MatchKeywordAccepts` | json/lexer.go:37-50 | when the letters spell the rest of the keyword, the token is the keyword's kind with its name as text and the cursor ends one past the last letter |
| `JsonLexerProperties.MatchKeywordRejects` | json/lexer.go:37-49 | at the first wrong letter the token is ILLEGAL carrying it, and the cursor stays on it |
| `JsonLexerProperties.ScanKeyword` | json/lexer.go:37-82 | `null`, `true` or `false` in the input yields one token of that kind whose text is the kind's name, with the cursor just past the word |
| `JsonLexerProperties.ScanKeywordMismatch` | json/lexer.go:37-81 | a keyword that goes wrong at letter k yields ILLEGAL carrying that character, or the sentinel, and leaves the cursor on it |
| `JsonLexerProperties.ScanNumber` | json/lexer.go:94-97 | from a digit-range or sign character, the token is a Number whose text is the maximal non-empty run of number characters, and the character ending the run is skipped |
| `JsonLexerProperties.ScanString` | json/lexer.go:86-93 | the string scan uses the look-ahead two places on and a look-behind of the opening quote or the sentinel; no quote or control character lies inside; a quote at the end gives String with text "string", anything else gives ILLEGAL carrying the scanned text with no trailing advance |
| `JsonLexerProperties.WhiteSpaceOnly` | json/lexer.go:19-24 | input made only of whitespace yields exactly one ILLEGAL token with empty text |
| `JsonLexerExamples.Lex` | json/lexer_test.go:26-27 | a fresh lexer scanned to the end yields the scan from position 0, with no EOF token |
| `JsonLexerExamples.EmptyInput` | json/lexer_test.go:14 | empty input yields no tokens |
| `JsonLexerExamples.Literals` | json/lexer_test.go:16-55 | `null`, `true` and `false` each yield one token of their kind named by the kind |
| `JsonLexerExamples.WholeNumber` | json/lexer.go:94-97 | an input that is one number run starting at a number lead yields one Number token whose text is the whole input |
| `JsonLexerExamples.Numbers` | json/lexer_test.go:117-144 | the integer cases of the tests (`0`, `9`, `989`, `-54578`) each yield one Number token with the input as text |
| `JsonLexerExamples.Floats` | json/lexer_test.go:145-193 | the fraction and exponent cases of the tests (`3.14`, `-3.14`, `1e10`, `-2.5e-3`, `6.022e23`, `1E+3`) each yield one Number token with the input as text |
| `JsonLexerExamples.PermissiveNumbers` | json/lexer.go:197-202 | `1--2e+e3`, `1,2` and `(*)` are each one Number token |
| `JsonLexerExamples.NumberSwallowsNext` | json/lexer.go:104 | in `12]` the bracket after the number is consumed and no token reports it |
| `JsonLexerExamples.PlainString` | json/lexer.go:86-93 | a quoted string with no quote, backslash or control character inside yields one String token with text "string" |
| `JsonLexerExamples.ClosedString` | json/lexer_test.go:76-96 | the three string cases of the tests, `"json"`, `"json is a data format"` and `" This string contains spaces "`, each yield String with text "string", not the lexeme the tests expect |
| `JsonLexerExamples.StaleLookAhead` | json/lexer.go:123-131 | `"a\q"` is one String token, because the backslash is judged by the look-ahead taken before the loop |
| `JsonLexerExamples.EscapedQuoteEndsString` | json/lexer.go:129-137 | in the five characters `"\"" ` (ending in a space) the escaped quote ends the first string; the following quote opens an unterminated string, ILLEGAL with its text ending in the sentinel that the rune slice's spare zeroed slot supplies |
| `JsonLexerExamples.UnterminatedString` | json/lexer.go:89-91 | the three characters `"ab` yield one ILLEGAL token carrying what was read and the sentinel that the rune slice's spare zeroed slot supplies |
| `JsonLexerExamples.TruncatedKeyword` | json/lexer.go:46-49 | `nul` yields one ILLEGAL token carrying the sentinel |
| `JsonLexerExamples.MisspelledKeyword` | json/lexer.go:38-41 | in `nxll` the wrong letter is carried by the ILLEGAL token and starts the next token |
| `JsonLexerExamples.ColonAndSemicolon` | json/lexer.go:35-36 | `:` yields ILLEGAL with empty text and `;` yields SemiColon |
| `JsonLexerExamples.WhiteSpaceHidesDelimiter` | json/lexer.go:19-24 | ` { ` yields two ILLEGAL tokens and no brace |
| `JsonLexerExamples.Delimiters` | json/lexer.go:25-34 | `{}[],` yields the five delimiter tokens in order |
| `JsonLexerExamples.NulEndsScan` | json/lexer.go:83-84 | in `{\0}` the NUL, read as the dispatch character, ends the scan after the brace and leaves the cursor just past it, on the `}` |
| `JsonLexerExamples.NulConsumedMidStep` | json/lexer.go:94-104 | a NUL that ends a number run (`1\0}`) or follows whitespace (` \0}`) is consumed by the step's final character read, and the `}` after it is still scanned |
| `JsonLexerExamples.IsStringCases` | json/lexer_test.go:255-280 | the string-continuation cases of the tests hold |

## Left out

- UTF-8 decoding of the Go string into runes (json/lexer.go:169) and Go's
  `string(rune)` conversion. Input and token text are sequences of already
  decoded characters.
- When a string runs off the end, `readString` slices one element past the
  input (json/lexer.go:137). Go then reads the runtime's zero-filled spare
  capacity of the rune slice, or panics when there is none. The Go runtime
  rounds the slice's allocation up to a size class, so an input of 2, 4, 6 or
  8 characters, among others, has no spare slot. The model always reads the
  sentinel there, so such a token's text ends in `'\0'`. The panic is not
  modelled; the examples `EscapedQuoteEndsString` and `UnterminatedString`
  use inputs of 5 and 3 characters, which have a spare slot.
- The second and third parameters of `isNumber` are unused
  (json/lexer.go:197) and are dropped, as is the commented-out block at
  json/lexer.go:144-152.
- `TokenType.String` is named `Name` here, because `String` is the name of a
  kind. The `Token` field `Char` is named `text`.
- Cursor positions are unbounded naturals. Go's `int` cannot overflow on any
  input that fits in memory.
- The Go test harness (`testing`, `reflect.DeepEqual`) is not modelled. Its
  cases appear as lemmas in `JsonLexerExamples`.
