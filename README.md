# adam-script front end in Dafny

A model of the front end of adam-script, a small expression language written in Go. The model covers three parts:

- **The lexer** (`lexer/lexer.go`). It turns a source string into tokens: numbers, operators, parentheses, `=`, `;`, string literals, the keywords `let` and `const`, identifiers, and a final EOF token.
- **The recursive-descent parser** (`parser/parser.go`). It reads statements, each an additive expression. `*` and `/` bind tighter than `+` and `-`, and both tiers fold to the left.
- **The syntax tree** (`ast/*.go`). It is a single `Node` datatype with the cases Program, ExprStmt, Binary, Num and Ident.

Each mutable Go object keeps its shape as a Dafny class:

- `Lexing.Lexer` has the fields `source`, `max` and `index`.
- `Parsing.Parser` has the fields `tokens`, `max` and `index`.

Every method of those classes is proved to compute what a pure function over the input and a cursor describes:

- **Lexer functions:** `ScanToken`, `NumberToken`, `StringToken`, `WordToken`, `SkipWhitespace` and `Tokenize`.
- **Parser functions:** `Primary`, `Multiplicative`, `Additive`, their two loops, `Statement` and `Statements`.

The properties are proved about those functions.

**Lexer properties:**
- The tokens tile the input with whitespace gaps.
- Positions increase.
- Digit runs and word runs are maximal.
- Keywords match only exactly.
- String literals close at the first unescaped quote.
- Every token has a well-formed shape.

**Parser properties:**
- On lexer output every tree built is well formed.
- A numeric conversion never fails.
- Every syntax error names a token at or after the cursor, and its message quotes the source text at the position it gives.
- A program holds at most one statement.
- Parsing gives back any expression tree written out with the parentheses the grammar needs. This fixes precedence, associativity and the handling of groups.
- Redundant parentheses, any number of them, add no node.
- The main error paths are stated exactly:
  - juxtaposed operands;
  - a missing operand;
  - an unclosed `(`;
  - a stray `)`.
- Several rows of the Go test table of errors are proved, message text included (`ParsingExamples`). Each starts from a token list with the kinds, lexemes and positions the lexer produces for that source.

The source is a sequence of characters, and each character stands for one byte of the Go string. `Tokenize` asks for ASCII input, for this reason:

- `nextToken` sends any byte that `unicode.IsLetter` accepts to `lexMultichar`. That includes the Latin-1 letters, such as the first byte of UTF-8 "é".
- `lexMultichar` consumes only ASCII letters, digits and `_`.
- On such a byte `nextToken` therefore returns an empty Identifier and does not move, and `GenerateTokens` loops forever.

`LexingProperties.NextTokenStalls` and `LexingProperties.Utf8LetterStalls` state that behaviour as written.

## Model

| member | source | states |
|---|---|---|
| Numerals.ParseNumber | parser/parser.go:136-139 | The conversion of a NumericLiteral lexeme succeeds exactly when the lexeme is a non-empty run of decimal digits. |
| Numerals.Decimal | parser/parser.go:182-184 | The `%d` rendering of a position is a canonical digit string: non-empty, all digits, no leading zero. |
| Numerals.ValueOfDecimal | parser/parser.go:182-184 | Reading back the decimal rendering of `n` gives `n`. |
| Numerals.ParseNumberOfDecimal | parser/parser.go:136-139 | The conversion accepts every rendered natural number and returns its value. |
| Numerals.DecimalOfValue | parser/parser.go:136-139 | Rendering the value of a canonical digit run gives the run back. Conversion and rendering are therefore inverse on canonical numerals. |
| Lexing.SkipWhitespace | lexer/lexer.go:174-183 | The skip stops at the first byte from the cursor that is not space, newline, tab or carriage return, or at the end of the input. Every byte skipped is whitespace. |
| Lexing.SingleCharKind | lexer/lexer.go:85-105 | A byte has a kind other than Unknown exactly when it is one of `+ - * / ( ) = ;`, and that kind is never one of the multi-byte kinds or EOF. |
| Lexing.NumberToken | lexer/lexer.go:185-201 | A NumericLiteral at the start position whose lexeme is the source slice up to the new cursor. The lexeme is all digits, is non-empty when a digit starts it, and is followed by a non-digit or the end. |
| Lexing.StringScanWithoutEscapes | lexer/lexer.go:119-137 | Without backslashes, the string scan closes exactly when a `"` follows the opening quote, and it closes at the first one. |
| Lexing.StringScan | lexer/lexer.go:119-137 | The scan ends inside the input. When it reports a closing quote, the byte before the end is `"`. Otherwise it ran to the end of the input. |
| Lexing.StringScanFrom | lexer/lexer.go:119-137 | From any cursor that is not in the middle of an escape, the scan closes at an unescaped `"` with no unescaped `"` before it, and it reports no close only when no unescaped `"` remains. |
| Lexing.StringScanCloses | lexer/lexer.go:119-137 | From the byte after the opening quote, the scan closes exactly at the first unescaped `"`, and reports no close exactly when there is none. A backslash escapes the next byte, so `\"` does not close the literal and `\\"` does. |
| Lexing.StringToken | lexer/lexer.go:116-146 | The token spans from the opening quote to the new cursor. A StringLiteral ends at the first `"` after the opening quote that is not escaped, i.e. preceded by an even run of backslashes, and has at least two bytes. The token is an Unknown running to the end of the input exactly when no such quote exists. |
| Lexing.WordToken | lexer/lexer.go:148-172 | The token is the maximal run of ASCII letters, digits and `_`. The keyword table of line 27 is consulted by exact lookup: the token is Let or Const exactly when the lexeme is `let` or `const`, and an Identifier otherwise, even for a word that merely starts with one. |
| Lexing.ScanToken | lexer/lexer.go:62-114 | The token is EOF exactly when only whitespace remains, and then it is at the input's length. Any other token starts after the whitespace and its lexeme is the source slice it covers. The cursor advances unless the lexer stalls. |
| Lexing.ScanTokenWellFormed | lexer/lexer.go:62-114 | Unless the lexer stalls, each token has its kind's shape. An operator token is its own byte. A number is a non-empty digit run. An identifier starts with a letter and is not a keyword. A string is quoted. An unknown token is a single unclassified byte or an unterminated string. |
| Lexing.Tokenize | lexer/lexer.go:50-60 | The token list ends in exactly one EOF token, positioned at the input's length, and every token is well formed. |
| Lexing.TokenizeUnfold | lexer/lexer.go:50-60 | One iteration of the loop: the scanned token, then the rest from the new cursor, stopping after EOF. |
| Lexing.Lexer.constructor | lexer/lexer.go:41-48 | A fresh lexer holds the source, with `max` equal to its length and the cursor at 0. |
| Lexing.Lexer.GenerateTokens | lexer/lexer.go:50-60 | Returns the `Tokenize` list from the current cursor and leaves the cursor at the end of the input. |
| Lexing.Lexer.NextToken | lexer/lexer.go:62-114 | Returns the token that `ScanToken` gives and moves the cursor to the position it gives. |
| Lexing.Lexer.LexString | lexer/lexer.go:116-146 | Returns the token and the cursor that `StringToken` gives. |
| Lexing.Lexer.LexMultichar | lexer/lexer.go:148-172 | Returns the token and the cursor that `WordToken` gives. |
| Lexing.Lexer.SkipWhitespaces | lexer/lexer.go:174-183 | Moves the cursor to `SkipWhitespace` of the old cursor. |
| Lexing.Lexer.LexNumericLiteral | lexer/lexer.go:185-201 | Returns the token and the cursor that `NumberToken` gives. |
| LexingProperties.TokenizeCovers | lexer/lexer.go:50-114 | The tokens tile the input. Each non-EOF token's lexeme is the source slice at its position. Only whitespace lies between consecutive tokens and before the first. EOF sits at the end. |
| LexingProperties.PositionsIncrease | lexer/lexer.go:50-60 | Token positions strictly increase along the list. |
| LexingProperties.AdjacentChain | lexer/lexer.go:50-60 | In any tiling token list, a token with a smaller index has a smaller position. |
| LexingProperties.ScanTokenMaximal | lexer/lexer.go:62-114 | A scanned number is not followed by a digit. A scanned word is not followed by a word character. An unterminated string runs to the end. |
| LexingProperties.RunsAreMaximal | lexer/lexer.go:148-201 | Every token of the list is maximal in that sense, so `12+34` can never split `12` into two numbers. |
| LexingProperties.WhitespaceOnly | lexer/lexer.go:63-67 | Input made only of whitespace gives exactly one EOF token, at the input's length. |
| LexingProperties.NextTokenStalls | lexer/lexer.go:80-83 | At a Latin-1 letter byte, `nextToken` returns an empty Identifier and does not move, so the next call repeats it. |
| LexingProperties.Utf8LetterStalls | lexer/lexer.go:148-156 | The first byte of UTF-8 "é" is such a byte. |
| LexingProperties.EmptyAndSpaces | lexer/lexer_test.go:216-228 | The empty input and three spaces each give a lone EOF, at 0 and at 3. |
| LexingProperties.LetIsKeyword | lexer/lexer_test.go:241-247 | `let` lexes as the Let keyword followed by EOF. |
| LexingProperties.LetterIsIdentifier | lexer/lexer_test.go:382-388 | `letter` is one Identifier and not the keyword `let` followed by `ter`. |
| LexingProperties.ConstantIsIdentifier | lexer/lexer_test.go:390-396 | `constant` is one Identifier and not the keyword `const` followed by `ant`. |
| LexingProperties.SingleWord | lexer/lexer.go:148-172 | Any lone word lexes as one token, classified by exact lookup in the keyword table, followed by EOF. |
| LexingProperties.ScanWholeWord | lexer/lexer.go:158-164 | A word scanned from its start consumes the whole word, and its kind comes from the keyword table. |
| LexingProperties.SkipStopsAt | lexer/lexer.go:174-183 | The whitespace skip ends exactly at the first byte that is not whitespace. |
| LexingProperties.DigitRunToken | lexer/lexer.go:185-201 | After whitespace, a maximal digit run is a single NumericLiteral, and the cursor moves just past it. |
| LexingProperties.OperatorCharToken | lexer/lexer.go:85-113 | After whitespace, each of `+ - * / ( ) = ;` is a one-byte token of its own kind, not Unknown. |
| LexingProperties.LetterTestsDisagreeAboveAscii | lexer/lexer.go:80 | Below 0x80, `unicode.IsLetter` agrees with the ASCII letter test. Every letter it accepts beyond ASCII is a byte of 0x80 or above that `lexMultichar` does not consume. |
| LexingProperties.SingleCharKindsDistinct | lexer/lexer.go:85-105 | The eight one-byte tokens have eight different kinds. |
| LexingProperties.EscapedQuoteInside | lexer/lexer.go:121-124 | In `"a\"b"` the escaped quote does not close the literal: the token is the whole six-byte StringLiteral. |
| LexingProperties.AtEnd | lexer/lexer.go:63-67 | Scanning from the end of the input gives the lone EOF. |
| LexingProperties.NumberThen | lexer/lexer.go:50-73 | After whitespace, a maximal digit run is the next token in the list, and the remaining tokens are those lexed from just past the run. |
| LexingProperties.OperatorThen | lexer/lexer.go:50-113 | After whitespace, an operator byte is the next token in the list, with its own kind and one-byte lexeme, and the remaining tokens are those lexed from the following byte. |
| Parsing.PeekAt | parser/parser.go:203-208 | The token returned is in the list. At or past the last index it is the final token. A non-EOF token it returns is the one at the cursor, which is before the end. |
| Parsing.MessageNamesToken | parser/parser.go:182-184 | The message of the error raised at a token is `Unexpected token '<lexeme>' at position <n>.`, where `<n>` is the canonical decimal rendering of the token's position and reads back as that position. |
| Parsing.FollowerCannotStartOperand | parser/parser.go:186-201 | A token that may follow an expression can never start an operand. Every operator, `)` and EOF may follow one. A token is expected as `)` exactly when it is a `)`. |
| Parsing.Parser.Peek | parser/parser.go:203-208 | The token returned is in the list. At or past the last index it is the final token. Any token other than EOF is the one under the cursor. |
| Parsing.Primary | parser/parser.go:117-180 | On success the cursor has moved and stays inside the list, and the token under it may follow an expression. |
| Parsing.Multiplicative | parser/parser.go:88-115 | On success the cursor has moved and rests on `+`, `-`, `)` or EOF. |
| Parsing.MultiplicativeLoop | parser/parser.go:94-112 | The loop stops only on `+`, `-`, `)` or EOF. |
| Parsing.Additive | parser/parser.go:59-86 | On success the cursor has moved and rests on `)` or EOF. |
| Parsing.AdditiveLoop | parser/parser.go:65-83 | The loop stops only on `)` or EOF. |
| Parsing.PrimarySound | parser/parser.go:117-180 | On tokens of the lexer's shapes the tree is a well-formed expression and the conversion never fails. Every syntax error names a token at or after the cursor. |
| Parsing.GroupSound | parser/parser.go:151-171 | The same facts for a parenthesised group, given them for the inner expression. |
| Parsing.MultiplicativeSound | parser/parser.go:88-115 | The same facts for a multiplicative expression. |
| Parsing.MultiplicativeLoopSound | parser/parser.go:94-112 | The same facts for the `*`/`/` loop, given a well-formed left operand. |
| Parsing.AdditiveSound | parser/parser.go:59-86 | The same facts for an additive expression. |
| Parsing.AdditiveLoopSound | parser/parser.go:65-83 | The same facts for the `+`/`-` loop, given a well-formed left operand. |
| Parsing.Statement | parser/parser.go:47-57 | On success the result is an expression statement and the cursor rests on `)` or EOF. Errors name a later token, and on lexer-shaped tokens they are never conversion errors. |
| Parsing.Statements | parser/parser.go:29-45 | Without an error the loop ended at EOF. Every statement collected is well formed. An error names a token at or after the start. |
| Parsing.ParseTokens | parser/parser.go:29-45 | The result is a Program. On lexer-shaped tokens its statements are well formed and any error is a syntax error. |
| Parsing.TokenizeIsTokenStream | parser/parser.go:18-27 | The lexer's output is non-empty, ends in EOF, and has only lexer-shaped tokens. |
| Parsing.ParseText | parser/parser.go:18-45 | Lexing then parsing any ASCII source gives a well-formed program, and any error is a syntax error. |
| Parsing.Parser.constructor | parser/parser.go:18-27 | The parser holds the `Tokenize` list of the source with the cursor at 0. |
| Parsing.Parser.Parse | parser/parser.go:29-45 | Returns the statements and the error that `Statements` gives from the cursor, and leaves the cursor where that loop stops. |
| Parsing.Parser.ParseStatement | parser/parser.go:47-57 | Returns the result and the cursor that `Statement` gives. |
| Parsing.Parser.ParseAdditiveExpression | parser/parser.go:59-86 | Returns the result and the cursor that `Additive` gives. |
| Parsing.Parser.ParseMultiplicativeExpression | parser/parser.go:88-115 | Returns the result and the cursor that `Multiplicative` gives. |
| Parsing.Parser.ParsePrimaryExpression | parser/parser.go:117-180 | Returns the result and the cursor that `Primary` gives. |
| Parsing.Parser.ParseGroup | parser/parser.go:151-171 | The `(` case returns the result and the cursor that `Primary` gives. |
| Parsing.ParseSource | repl/repl.go:57-58 | `NewParser(source).Parse()` gives exactly `ParseText(source)`. |
| ParsingProperties.PrimaryOfPrint | parser/parser.go:117-180 | Parsing a printed primary from its first token gives that primary, subject only to the follower check on the next token. |
| ParsingProperties.MultiplicativeOfPrint | parser/parser.go:88-115 | Parsing a printed multiplicative expression gives its tree. The `*`/`/` loop then continues from the token after it. |
| ParsingProperties.AdditiveOfPrint | parser/parser.go:59-86 | Parsing a printed additive expression gives its tree. The `+`/`-` loop then continues from the token after it. |
| ParsingProperties.ErrorPropagates | parser/parser.go:47-63 | An error at a lower tier is returned unchanged by every tier above it. |
| ParsingProperties.FirstStatementOk | parser/parser.go:32-44 | After a successful first statement the program continues from where that statement ended. |
| ParsingProperties.StatementOfPrint | parser/parser.go:47-57 | A printed expression parses as one statement holding exactly that tree when `)` or EOF follows it. Any other follower is reported as the error. |
| ParsingProperties.RoundTrip | parser/parser.go:29-45 | Parsing any printed expression followed by EOF gives a program of one statement holding exactly that tree, and no error. So `*` and `/` bind tighter, both tiers associate left, and groups add no node. |
| ParsingProperties.GroupAddsNoNode | parser/parser.go:151-171 | If the tokens after a `(` read as `e` up to a `)`, the tokens from the `(` read as the same `e`, ending after the `)`. |
| ParsingProperties.NestedGroupsAddNoNode | parser/parser.go:151-171 | Any number of further pairs of parentheses around an expression read as `e` still read as `e`. |
| ParsingProperties.WrappedCore | parser/parser.go:59-86 | Inside `n` pairs of parentheses, the printed expression reads as itself up to the innermost `)`. |
| ParsingProperties.SingleStatement | parser/parser.go:29-57 | A token list that reads as `e` from its first token up to EOF parses as a program of that one statement, with no error. |
| ParsingProperties.WrappedRoundTrip | parser/parser_test.go:253-274 | A printed expression inside any number of redundant pairs of parentheses, then EOF, parses to exactly that tree, as `(1 + 2)` and `((1 + 2) * 3)` do. |
| ParsingProperties.JuxtapositionRejected | parser/parser.go:186-196 | A complete expression followed by a token that may not follow a primary fails at that token, and no statement is kept. |
| ParsingProperties.NoOperand | parser/parser.go:173-178 | A token that cannot start a primary is the error, at every tier. |
| ParsingProperties.UnmatchedClosingParen | parser/parser.go:32-41 | With a stray `)` after a complete expression, the expression is kept as a statement and the `)` is the error. |
| ParsingProperties.UnclosedParen | parser/parser.go:159-163 | `(` and an expression that reach EOF without `)` fail at the EOF token. |
| ParsingProperties.MissingOperand | parser/parser.go:65-76 | An additive operator with no operand fails at the token after the operator. |
| ParsingProperties.AdditiveOperandFails | parser/parser.go:70-74 | When the operand after `+` or `-` fails, the additive loop stops with that same failure. |
| ParsingProperties.OperandFails | parser/parser.go:65-76 | After a complete expression and an additive operator, an operand that fails makes its error the program's, and no statement is kept. |
| ParsingProperties.GroupReachesEnd | parser/parser.go:159-163 | A group whose inner expression runs up to EOF fails at the EOF token, reported where the `)` should be. |
| ParsingProperties.AtMostOneStatement | parser/parser.go:29-45 | A program holds at most one statement. When it holds one and still fails, the error is a `)` token. |
| ParsingProperties.EmptySource | parser/parser.go:29-36 | Empty or all-whitespace source parses as an empty program with no error. |
| ParsingProperties.TokenQuotesSource | lexer/lexer.go:50-114 | Every token of the lexer's output is the source text at its position. |
| ParsingProperties.TokenErrorQuotesSource | parser/parser.go:182-184 | An error raised at one of the lexer's tokens quotes the source text at the position it names. |
| ParsingProperties.ErrorNamesToken | parser/parser.go:29-45 | On lexer-shaped tokens a parse error is a syntax error raised at one of the tokens. |
| ParsingProperties.ErrorQuotesSource | parser/parser.go:18-45 | On any ASCII source, an error is a syntax error, never a conversion error. It is raised at one of the lexer's tokens and quotes exactly the source text at its position. |
| ParsingExamples.TrailingPlusRejected | parser/parser_test.go:735-737 | `1 +` keeps no statement and fails at the EOF token at position 3. |
| ParsingExamples.TrailingPlusMessage | parser/parser_test.go:735-737 | That error reads `Unexpected token '' at position 3.` |
| ParsingExamples.TwoNumbersRejected | parser/parser_test.go:745-747 | `1 2` keeps no statement and fails at `2`, position 2. |
| ParsingExamples.TwoNumbersMessage | parser/parser_test.go:745-747 | That error reads `Unexpected token '2' at position 2.` |
| ParsingExamples.OpenGroupRejected | parser/parser_test.go:810-812 | `(1 + 2` keeps no statement and fails at the EOF token at position 6. |
| ParsingExamples.OpenGroupMessage | parser/parser_test.go:810-812 | That error reads `Unexpected token '' at position 6.` |
| ParsingExamples.StrayParenRejected | parser/parser_test.go:815-817 | `1 + 2)` keeps the statement `1 + 2` and fails at the `)` at position 5. |
| ParsingExamples.StrayParenMessage | parser/parser_test.go:815-817 | That error reads `Unexpected token ')' at position 5.` |
| ParsingExamples.NestedOpenGroupsRejected | parser/parser_test.go:830-832 | `1 + (2 + (3 + 4)` closes the inner group, reaches EOF in the outer one, keeps no statement and fails at the EOF token at position 16. |
| ParsingExamples.NestedOpenGroupsMessage | parser/parser_test.go:830-832 | That error reads `Unexpected token '' at position 16.`, with the two-digit position rendered in decimal. |

## Left out

- Number values are modelled as exact naturals, not as `float64`. `strconv.ParseFloat` is modelled as succeeding exactly on non-empty digit runs. Rounding of long literals and its out-of-range error are not modelled.
- Non-ASCII input is left out, because `GenerateTokens` does not terminate on a Latin-1 letter byte. `Tokenize` and everything built on it require ASCII. The stall itself is stated by `NextTokenStalls`.
- The conversion `string(current)` turns a byte of 0x80 or above into a two-byte UTF-8 lexeme. It is not modelled, because such bytes are outside the ASCII input.
- The error values are modelled as a datatype rather than Go `error` strings. `Parsing.Message` gives the text of a syntax error. A conversion error's text comes from `strconv` and is not modelled.
- `MarshalJSON` on the `ast` types is left out, because it is serialisation for display only.
- The `node()` and `expression()` marker methods are left out too.
- The read-eval-print loop in `repl/repl.go` is left out, because it is console I/O. Only its `NewParser(...).Parse()` call is modelled, as `ParseSource`.
- The Go declaration of `IdentifierExpression` is not part of this model. Its one field, `Symbol`, is modelled as `Ident`.
- `isExpected` takes a variadic list of kinds. It is modelled with a set, because only membership is used.
- The `(` case of `parsePrimaryExpression` is the separate method `ParseGroup`. Its steps and order are unchanged.
- The round-trip and error lemmas in `ParsingProperties` compare tokens by kind and lexeme (`Matches`), so they hold for any positions. The printer writes position 0 and is not itself a lexer output. Positions still appear in every error.
- The `ParsingExamples` lemmas start from token lists, not from source text. Lexing a source into those tokens is stated one token at a time by `NumberThen` and `OperatorThen`, not by one lemma per example.
- `let`, `const`, `=`, `;` and string literals are lexed but never parsed, as in the source. A statement starting with them fails at that token (`NoOperand`).
