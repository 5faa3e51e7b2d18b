# Lox scanner, modelled and proved in Dafny

This project models the lexical scanner of a Lox interpreter, the class
`Scanner` in `com/craftinginterpreters/lox/Scanner.java`. The scanner walks a
source text with two cursors, `start` (where the current lexeme began) and
`current` (the next character to read), and a `line` counter. For each lexeme
it appends a token to its list. It reports lexical errors (an unexpected
character, an unterminated string) to the interpreter's error sink. Once the
input is used up it appends one `EOF` token.

The project has two layers:

- **A pure specification** (`lexical.dfy`, module `Lexical`):
  - `Step(src, cur, line)` says what one `scanToken()` call does when the
    lexeme starts at `cur`: the new cursor, the new line, the token it
    appends (if any) and the error it reports (if any);
  - `ScanFrom` chains the steps to the end of the input and adds `EOF`;
  - `ScanSource(src)` is the scan of a fresh scanner.

  The loops of `identifier()`, `number()`, `string()` and the line comment
  become the functions `RunEnd`, `NumberEnd` and `StringEnd`, which give
  where each loop stops.
- **The imperative scanner** (`scanner.dfy`, module `Lox`):
  - `class Scanner` has the Java fields `source`, `tokens`, `start`,
    `current` and `line`, plus an `errors` field that stands for the error
    sink `Lox.error`;
  - every method updates those fields as the Java method does, and is proved
    equal to the specification: `ScanToken` to `Step`, and `ScanTokens` to
    `ScanFrom`.

Further files:

- `tokens.dfy` (module `Tokens`) holds the token kinds, literals and tokens.
- `lexical_properties.dfy` (module `LexicalProperties`) proves the scanner's
  properties about the specification:
  - the token list ends with its only `EOF`;
  - line numbers never decrease;
  - every lexeme is a slice of the source;
  - numbers and identifiers are the longest possible match;
  - keywords are recognised only when the whole word matches;
  - `!=`, `==`, `<=` and `>=` use one character of lookahead;
  - whitespace and comments produce no token;
  - string escapes round-trip;
  - unterminated strings are reported;
  - unexpected characters are reported.
- `examples.dfy` (module `LexicalExamples`) works through small inputs:
  `"!="`, `"123."`, `"123.45"`, `"1\n2\n3"`, `"classify"`, and a few
  strings.

Number literals are kept exact: `NumberValue(mantissa, scale)` stands for
mantissa / 10^scale, where Java calls `Double.parseDouble` instead. A string
literal's value is its body with every `\"` replaced by `"`, as the
`String.replace` call does. As a consequence a text that ends in a backslash
cannot be written as a literal: the backslash and the closing quote read as an
escaped quote (`LexicalExamples.TrailingBackslashSwallowsClosingQuote`).

## Model

| member | source | states |
|---|---|---|
| `Lox.Tokenize` | codes/com/craftinginterpreters/lox/Scanner.java:19-32 | A fresh scanner's token list and error reports are the specified scan. The list ends with an `EOF` token on line 1 + (number of newlines in the input), no other token is `EOF`, and the line numbers never decrease from 1. |
| `Lox.Scanner.constructor` | codes/com/craftinginterpreters/lox/Scanner.java:12-21 | A new scanner is on line 1, with both cursors at 0 and no tokens or errors. |
| `Lox.Scanner.ScanTokens` | codes/com/craftinginterpreters/lox/Scanner.java:23-32 | The token list gains exactly the specified scan from the current cursor and line, `EOF` included. The errors gain exactly the specified reports. The cursor ends at the end of the input, and `line` has gone up by the newlines in the rest of the input. `Valid()` (start at or before current, current within the input) holds before and after. The returned list is the scanner's list. |
| `Lox.Scanner.ScanToken` | codes/com/craftinginterpreters/lox/Scanner.java:34-89 | One call moves `current` and `line` exactly as `Step` says. It appends exactly `Step`'s token (if any) and its error (if any). |
| `Lox.Scanner.Punctuation` | codes/com/craftinginterpreters/lox/Scanner.java:37-59 | The single-character tokens and the `!`/`=`/`<`/`>` cases of the switch. These cases consume what `Step` says and append its token. They never change the line and never report an error. |
| `Lox.Scanner.SkipLineComment` | codes/com/craftinginterpreters/lox/Scanner.java:63 | The comment loop stops at the first newline at or after the cursor, or at the end of the input. |
| `Lox.Scanner.Identifier` | codes/com/craftinginterpreters/lox/Scanner.java:91-97 | `identifier()` moves the cursor to the end of the alphanumeric run. It appends one token for `source[start..current]`, whose kind comes from the keyword table, and otherwise `Identifier`. |
| `Lox.Scanner.SkipDigits` | codes/com/craftinginterpreters/lox/Scanner.java:100 | The digit loop stops at the first non-digit at or after the cursor. |
| `Lox.Scanner.Number` | codes/com/craftinginterpreters/lox/Scanner.java:99-111 | `number()` takes the digits, then a `.` and more digits only when a digit follows the `.`. It appends one `Number` token whose lexeme is the consumed text and whose exact value is that text. |
| `Lox.Scanner.SkipStringBody` | codes/com/craftinginterpreters/lox/Scanner.java:114-125 | The string loop stops at the first quote that is not the second half of a `\"` pair, or at the end of the input. It adds one to `line` per newline it passes. |
| `Lox.Scanner.CloseString` | codes/com/craftinginterpreters/lox/Scanner.java:133-138 | The closing quote is consumed. The token is the whole literal, quotes included, and its value is the unescaped text between the quotes, on the current line. |
| `Lox.Scanner.StringLiteral` | codes/com/craftinginterpreters/lox/Scanner.java:113-139 | `string()` does exactly what `StringStep` specifies. At the end of the input it reports "Unterminated string." on the line reached and emits no token. Otherwise it emits the string token. |
| `Lox.Scanner.Match` | codes/com/craftinginterpreters/lox/Scanner.java:141-147 | The result is true exactly when a character remains and it is the expected one. The cursor advances by one exactly then. |
| `Lox.Scanner.Peek` | codes/com/craftinginterpreters/lox/Scanner.java:149-152 | The character at `current`, or `'\0'` at the end of the input. |
| `Lox.Scanner.PeekNext` | codes/com/craftinginterpreters/lox/Scanner.java:154-157 | The character at `current + 1`, or `'\0'` past the end. |
| `Lox.Scanner.Advance` | codes/com/craftinginterpreters/lox/Scanner.java:176-178 | Returns the character at the cursor and moves the cursor by one. |
| `Lox.Scanner.AddToken` | codes/com/craftinginterpreters/lox/Scanner.java:180-182 | Appends one token with lexeme `source[start..current]`, no literal and the current line. |
| `Lox.Scanner.AddLiteralToken` | codes/com/craftinginterpreters/lox/Scanner.java:184-187 | Appends one token with lexeme `source[start..current]`, the given literal and the current line. Nothing else changes. |
| `Lox.Scanner.ReportError` | codes/com/craftinginterpreters/lox/Scanner.java:85 | The error sink records (line, message). |
| `Lexical.At` | codes/com/craftinginterpreters/lox/Scanner.java:149-157 | The lookahead character: `s[i]` inside the input, `'\0'` beyond it. |
| `Lexical.RunEnd` | codes/com/craftinginterpreters/lox/Scanner.java:92 | Where `while (p(peek())) advance();` stops: every character before it satisfies p, and the character at it (if any) does not. |
| `Lexical.NumberEnd` | codes/com/craftinginterpreters/lox/Scanner.java:100-108 | `number()` never moves backwards and stays within the input. |
| `Lexical.StringEnd` | codes/com/craftinginterpreters/lox/Scanner.java:114-125 | The string loop stops inside the input only on a quote character. |
| `LexicalProperties.StringEndIsFirstUnpairedQuote` | codes/com/craftinginterpreters/lox/Scanner.java:114-125 | The string loop stops at the first quote that is not the second half of a `\"` pair. Every quote it passes directly follows a backslash, and the quote it stops at does not (unless it is the first character). |
| `LexicalProperties.NoQuoteRunsToEnd` | codes/com/craftinginterpreters/lox/Scanner.java:114-125 | With no quote ahead, the string loop runs to the end of the input. |
| `Lexical.Emit` | codes/com/craftinginterpreters/lox/Scanner.java:184-187 | `addToken`: a step that appends one token with lexeme `src[cur..next]`, the given literal and the current line. `StepFacts` proves that every token a step emits is shaped so: the lexeme is the consumed text and the token is on the line reached. |
| `Lexical.NumberStep` | codes/com/craftinginterpreters/lox/Scanner.java:99-111 | `number()` as a step. `NumberMaximalMunch` proves it emits one `Number` token for the longest number-shaped text, and `NumberStepIs` proves that the two digit loops compute it. |
| `Lexical.NumberLiteral` | codes/com/craftinginterpreters/lox/Scanner.java:110 | The exact value standing for `Double.parseDouble` of the lexeme. `NumberLiteralValue` proves it is w for digits w, and (w · 10^n + f) / 10^n for `w.f`, with n the digit count of f. |
| `Lexical.IdentifierStep` | codes/com/craftinginterpreters/lox/Scanner.java:91-97 | `identifier()` as a step. `IdentifierMaximalMunch` proves it emits one token for the longest alphanumeric run, with that whole run's keyword kind or `Identifier`. |
| `Lexical.StringStep` | codes/com/craftinginterpreters/lox/Scanner.java:113-139 | `string()` as a step. `UnterminatedStringIs` and `TerminatedStringIs` prove its two outcomes. `StringStepLine` proves it counts the newlines in the literal. `StringLiteralRoundTrip` proves a quoted, escaped text scans back to itself. |
| `Lexical.Unescape` | codes/com/craftinginterpreters/lox/Scanner.java:138 | Replaces every `\"` by `"`, left to right, as the `String.replace` call does. `UnescapeEscape` proves it undoes writing every quote as `\"`. |
| `Lexical.ScanFrom` | codes/com/craftinginterpreters/lox/Scanner.java:23-32 | The `scanTokens` loop from cursor `cur` on line `line`, then `EOF`. `ScanEndsWithEof` proves `EOF` is the last token and the only one. `ScanLinesNonDecreasing` proves the lines never decrease. `ScanLexemesAreSlices` proves every lexeme is a slice of the source. `ScanAfterStep` proves one step followed by the rest of the scan is the whole scan. |
| `Lexical.ScanSource` | codes/com/craftinginterpreters/lox/Scanner.java:19-32 | The scan of a fresh scanner: from cursor 0 on line 1. `Lox.Tokenize` proves the class computes it. |
| `Lexical.Step` | codes/com/craftinginterpreters/lox/Scanner.java:34-89 | Every `scanToken()` call consumes at least one character and stays within the input. |
| `Lexical.KeywordKind` | codes/com/craftinginterpreters/lox/Scanner.java:189-209 | The keyword table. Every key starts with a letter, and every value is a keyword kind, never `Identifier`, `String`, `Number` or `EOF`. `KeywordsMatchSpellings` proves the table equal to an independent listing of the keywords. |
| `LexicalProperties.KeywordSpelledAsIdentifier` | codes/com/craftinginterpreters/lox/Scanner.java:189-209 | Every key of the keyword table is a run of letters, digits and `_` starting with a letter, so `identifier()` can consume it whole and emit the keyword. |
| `Lexical.IdentifierKind` | codes/com/craftinginterpreters/lox/Scanner.java:93-95 | The kind is not `Identifier` exactly when the text is the spelling of a keyword, and then it is that keyword's kind. |
| `Lexical.KeywordsMatchSpellings` | codes/com/craftinginterpreters/lox/Scanner.java:189-209 | The keyword table and an independent listing of the 16 keywords and their spellings agree in both directions. The empty text is no keyword. |
| `LexicalProperties.StepFacts` | codes/com/craftinginterpreters/lox/Scanner.java:34-89 | A step never decreases the line. It emits a token or an error, never both. A token's lexeme is exactly the consumed text, the token is on the line reached and is never `EOF`. A report is on the line reached. |
| `LexicalProperties.StepLine` | codes/com/craftinginterpreters/lox/Scanner.java:74-76 | A step advances `line` by exactly the number of newlines it consumes, inside a string as well (lines 114-115). |
| `LexicalProperties.StepConsumesNoNewline` | codes/com/craftinginterpreters/lox/Scanner.java:60-63 | A step that starts at neither a newline nor a quote consumes no newline. In particular a comment stops before the newline that ends it. |
| `LexicalProperties.ScanEndsWithEof` | codes/com/craftinginterpreters/lox/Scanner.java:23-32 | The scanned list is non-empty. Its last token is `EOF` with empty lexeme on line `line` + (newlines left in the input), and no earlier token is `EOF`. |
| `LexicalProperties.ScanLinesNonDecreasing` | codes/com/craftinginterpreters/lox/Scanner.java:23-32 | Token line numbers are non-decreasing along the list and never below the starting line. |
| `LexicalProperties.ScanLexemesAreSlices` | codes/com/craftinginterpreters/lox/Scanner.java:184-187 | Every lexeme except `EOF`'s is a non-empty slice of the source at or after the starting cursor. |
| `LexicalProperties.ScanAfterStep` | codes/com/craftinginterpreters/lox/Scanner.java:24-28 | Doing one step and then scanning the rest gives the same tokens and errors as scanning from before the step. This is the invariant of the `scanTokens` loop. |
| `LexicalProperties.WhitespaceStep` | codes/com/craftinginterpreters/lox/Scanner.java:68-76 | A space, `\r` or `\t` is skipped with no token. A newline is skipped and the line goes up by one. |
| `LexicalProperties.CommentStep` | codes/com/craftinginterpreters/lox/Scanner.java:60-63 | `//` skips to the end of the line with no token and no line change. |
| `LexicalProperties.TriviaScansToEof` | codes/com/craftinginterpreters/lox/Scanner.java:60-76 | Input made only of whitespace and line comments scans to `EOF` alone, on the line reached after its newlines, with no error. |
| `LexicalProperties.WhitespaceAndCommentsYieldOnlyEof` | codes/com/craftinginterpreters/lox/Scanner.java:60-76 | The same for a whole source text. |
| `LexicalProperties.OperatorLookahead` | codes/com/craftinginterpreters/lox/Scanner.java:48-59 | `!`, `=`, `<` and `>` look one character ahead. With `=` next they make the two-character token and consume 2 characters, otherwise the one-character token and consume 1. |
| `LexicalProperties.UnexpectedCharacterReported` | codes/com/craftinginterpreters/lox/Scanner.java:79-87 | "Unexpected character." is reported on the current line exactly for the characters that start no lexeme. Such a character is consumed and emits no token. |
| `LexicalProperties.NumberEndShape` | codes/com/craftinginterpreters/lox/Scanner.java:99-108 | `number()` takes digits and at most one `.`, which is followed by at least one digit. It never stops in front of a digit, and it stops at the integer part exactly when no `.`-digit pair follows. |
| `LexicalProperties.NumberLexemeShape` | codes/com/craftinginterpreters/lox/Scanner.java:99-108 | A number lexeme is digits, optionally followed by `.` and digits. |
| `LexicalProperties.NumberLexemeLongest` | codes/com/craftinginterpreters/lox/Scanner.java:99-108 | No longer prefix of the rest of the input has that shape. |
| `LexicalProperties.NumberMaximalMunch` | codes/com/craftinginterpreters/lox/Scanner.java:80-81 | A digit starts exactly one `Number` token, whose lexeme is the longest number-shaped text at the cursor, with no error. In `123.` the `.` is therefore not part of the number. |
| `LexicalProperties.NumberLiteralValue` | codes/com/craftinginterpreters/lox/Scanner.java:110 | The literal of digits `w` is w's value. The literal of `w.f` is (w · 10^n + f) / 10^n, with n the number of digits of f. |
| `LexicalProperties.IdentifierMaximalMunch` | codes/com/craftinginterpreters/lox/Scanner.java:82-83 | A letter or `_` starts exactly one token, whose lexeme is the longest alphanumeric run at the cursor. Its kind is that whole run's keyword kind, or `Identifier`. |
| `LexicalProperties.KeywordLookupExact` | codes/com/craftinginterpreters/lox/Scanner.java:93-95 | The kind differs from `Identifier` exactly when the table has the text, and then it is the kind spelled by that text. |
| `LexicalProperties.StringLoopStep` | codes/com/craftinginterpreters/lox/Scanner.java:114-125 | One iteration of the string loop keeps its stopping point and its newline count. A `\"` pair is stepped over in one go. |
| `LexicalProperties.UnterminatedStringIs` | codes/com/craftinginterpreters/lox/Scanner.java:127-130 | A string loop that reaches the end of the input leaves no token and one "Unterminated string." report on the line reached. |
| `LexicalProperties.TerminatedStringIs` | codes/com/craftinginterpreters/lox/Scanner.java:133-138 | A string loop that stops at a quote gives one `String` token: the lexeme is the whole literal and the value is the unescaped body. |
| `LexicalProperties.UnescapeEscape` | codes/com/craftinginterpreters/lox/Scanner.java:138 | Replacing `\"` by `"` undoes writing every `"` as `\"`. |
| `LexicalProperties.StringEndOfEscaped` | codes/com/craftinginterpreters/lox/Scanner.java:114-125 | After an escaped text that does not end in a backslash, the string loop stops exactly at the quote that follows it. |
| `LexicalProperties.StringLiteralRoundTrip` | codes/com/craftinginterpreters/lox/Scanner.java:113-139 | Writing any text t (not ending in a backslash) as a quoted, escaped literal scans back to one `String` token whose value is t, then `EOF`. Both are on line 1 + (newlines in t). No error is reported. |
| `LexicalProperties.UnterminatedStep` | codes/com/craftinginterpreters/lox/Scanner.java:113-130 | A string whose loop reaches the end of the input (escaped quotes included) consumes the rest of the input. It emits no token and reports "Unterminated string." on the line reached. |
| `LexicalProperties.UnterminatedStringReported` | codes/com/craftinginterpreters/lox/Scanner.java:127-130 | Such a string then scans to `EOF` alone, with the single report "Unterminated string." on the last line. |
| `LexicalExamples.ExampleBangEqual` | codes/com/craftinginterpreters/lox/Scanner.java:48-50 | `!=` is one `BangEqual` token. |
| `LexicalExamples.ExampleBang` | codes/com/craftinginterpreters/lox/Scanner.java:48-50 | `!` alone is one `Bang` token. |
| `LexicalExamples.ExampleTrailingDot` | codes/com/craftinginterpreters/lox/Scanner.java:103-108 | `123.` is `Number` 123 followed by `Dot`. |
| `LexicalExamples.ExampleFraction` | codes/com/craftinginterpreters/lox/Scanner.java:103-110 | `123.45` is one `Number` with value 12345 / 10^2. |
| `LexicalExamples.ExampleLines` | codes/com/craftinginterpreters/lox/Scanner.java:74-76 | In `1\n2\n3` each number carries its own line (1, 2, 3), and `EOF` is on line 3. |
| `LexicalExamples.ExampleClass` | codes/com/craftinginterpreters/lox/Scanner.java:91-97 | `class` is one `Class` token. |
| `LexicalExamples.ExampleClassify` | codes/com/craftinginterpreters/lox/Scanner.java:91-97 | `classify` is a single `Identifier`, not `Class` followed by more text. |
| `LexicalExamples.ExampleEscapedQuote` | codes/com/craftinginterpreters/lox/Scanner.java:116-118 | The literal `"a\"b"` has the value `a"b`. |
| `LexicalExamples.ExampleUnterminated` | codes/com/craftinginterpreters/lox/Scanner.java:127-130 | `"abc` gives `EOF` alone and the report (1, "Unterminated string."). |
| `LexicalExamples.ExampleUnterminatedEscaped` | codes/com/craftinginterpreters/lox/Scanner.java:114-130 | `"a\"b` is unterminated: its only later quote is escaped, so it gives `EOF` alone and the report (1, "Unterminated string."). |
| `LexicalExamples.TrailingBackslashSwallowsClosingQuote` | codes/com/craftinginterpreters/lox/Scanner.java:116-118 | In `"\"` the backslash and the closing quote read as an escaped quote, so the string is unterminated. |

## Left out

- `Double.parseDouble` at line 110: a number's literal is the exact decimal
  `NumberValue(mantissa, scale)`, not the nearest double. Rounding to a
  double is floating point and not modelled.
- `Lox.error` and the interpreter's `hadError` flag: `Lox.java` is not part
  of this model. Each report is appended to the scanner's `errors` field as
  (line, message), and nothing is printed.
- Java strings are UTF-16 code-unit sequences. Here a source text is a Dafny
  `string`, and `charAt` is sequence indexing. Surrogate pairs and other
  encoding details are not modelled.
- `line` is a Java `int`. The model uses an unbounded integer and does not
  model wrap-around after 2^31 - 1 newlines.
- Lines 119-120 (`else if (peek() == '"') break;`) are not modelled. The loop
  condition on line 114 already excludes a quote, so the branch can never run.
- The `TokenType`, `Token` and `Lox` classes the scanner uses are not part of
  this model. `Token` is modelled as a datatype with kind, lexeme, literal
  and line. A Java `null` literal is `NoValue`.
- Helper methods: the loops of the comment, of `number()` and of `string()`
  are factored into `SkipLineComment`, `SkipDigits` and `SkipStringBody`.
  The tail of `string()` is `CloseString`, and the punctuation cases of the
  switch are `Punctuation`. The code paths are the same as the Java methods'.
- Ghost cursor parameters: `ScanToken`, `Identifier`, `Number`, `StringLiteral`
  and `Punctuation` take ghost copies of `start` and `line` to state their
  contracts. The Java methods take no arguments.
- `isAtEnd`, `isDigit`, `isAlpha` and `isAlphaNumeric` (lines 159-174) are
  predicates without contracts of their own. Their conditions are exactly the
  ones in the Java code, and the contracts above use them.
