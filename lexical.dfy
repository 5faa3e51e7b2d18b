/** A pure specification of what the Lox scanner computes. Each function here
    describes, on the source text and a cursor, what one piece of the scanner
    does to its cursors and its token list; the class in scanner.dfy is proved
    to do exactly this. */
module Lexical {
  import opened Tokens

  const UnexpectedCharacter: string := "Unexpected character."
  const UnterminatedString: string := "Unterminated string."

  // ---------------------------------------------------------------------
  // Character classes

  predicate IsDigit(c: char) {
    '0' <= c <= '9'
  }

  predicate IsAlpha(c: char) {
    ('a' <= c <= 'z') || ('A' <= c <= 'Z') || c == '_'
  }

  predicate IsAlphaNumeric(c: char) {
    IsAlpha(c) || IsDigit(c)
  }

  /** What a line comment may contain. */
  predicate NotNewline(c: char) {
    c != '\n'
  }

  /** The character at index i, or the sentinel '\0' past the end of s, as
      peek() and peekNext() read it. */
  function At(s: string, i: nat): (c: char)
    ensures i < |s| ==> c == s[i]
    ensures |s| <= i ==> c == '\0'
  {
    if i < |s| then s[i] else '\0'
  }

  /** Whether match(expected) succeeds with the cursor at i. */
  predicate Matches(s: string, i: nat, expected: char) {
    i < |s| && s[i] == expected
  }

  /** The number of newline characters in s. */
  function NewlineCount(s: string): nat
  {
    if s == [] then 0
    else NewlineCount(s[..|s| - 1]) + (if s[|s| - 1] == '\n' then 1 else 0)
  }

  // ---------------------------------------------------------------------
  // Where the scanning loops stop

  /** Where a loop `while (p(peek())) advance();` started at i stops: the end
      of the longest run of characters satisfying p. */
  function RunEnd(s: string, i: nat, p: char -> bool): (e: nat)
    requires i <= |s|
    ensures i <= e <= |s|
    ensures forall k :: i <= k < e ==> p(s[k])
    ensures e == |s| || !p(s[e])
    decreases |s| - i
  {
    if i < |s| && p(s[i]) then RunEnd(s, i + 1, p) else i
  }

  /** Where number() stops, started just after the first digit at i - 1: a run
      of digits, then a '.' and a second run only when a digit follows the '.'. */
  function NumberEnd(s: string, i: nat): (e: nat)
    requires i <= |s|
    ensures i <= e <= |s|
  {
    var w := RunEnd(s, i, IsDigit);
    if At(s, w) == '.' && IsDigit(At(s, w + 1)) then RunEnd(s, w + 1, IsDigit) else w
  }

  /** Where the loop of string() stops, started just after the opening quote:
      at the end of input or at a quote. A backslash directly followed by a
      quote is stepped over as a pair, so every quote before the stop is the
      second half of such a pair (StringEndIsFirstUnpairedQuote, in
      lexical_properties.dfy). */
  function StringEnd(s: string, i: nat): (e: nat)
    requires i <= |s|
    ensures i <= e <= |s|
    ensures e < |s| ==> s[e] == '"'
    decreases |s| - i
  {
    if i == |s| || s[i] == '"' then i
    else if s[i] == '\\' && At(s, i + 1) == '"' then StringEnd(s, i + 2)
    else StringEnd(s, i + 1)
  }

  // ---------------------------------------------------------------------
  // Literal values

  /** The body of a string literal with every two-character sequence \" replaced
      by ", scanning from left to right as String.replace does. */
  function Unescape(s: string): string
  {
    if |s| >= 2 && s[0] == '\\' && s[1] == '"' then "\"" + Unescape(s[2..])
    else if s == [] then []
    else [s[0]] + Unescape(s[1..])
  }

  /** The inverse direction: a quote becomes \", everything else stays. */
  function Escape(t: string): string
  {
    if t == [] then []
    else (if t[0] == '"' then "\\\"" else [t[0]]) + Escape(t[1..])
  }

  function DigitValue(c: char): nat
  {
    if IsDigit(c) then c as int - '0' as int else 0
  }

  /** The digits of s read as one decimal integer; a '.' is skipped. */
  function Mantissa(s: string): nat
  {
    if s == [] then 0
    else if s[|s| - 1] == '.' then Mantissa(s[..|s| - 1])
    else Mantissa(s[..|s| - 1]) * 10 + DigitValue(s[|s| - 1])
  }

  /** The number of characters after the first '.' of s (0 without one). */
  function FractionLength(s: string): nat
  {
    if s == [] then 0
    else if s[0] == '.' then |s| - 1
    else FractionLength(s[1..])
  }

  /** The value of a number lexeme, exactly: Mantissa(lexeme) / 10^scale. */
  function NumberLiteral(lexeme: string): Literal
  {
    NumberValue(Mantissa(lexeme), FractionLength(lexeme))
  }

  function Pow10(n: nat): nat
  {
    if n == 0 then 1 else 10 * Pow10(n - 1)
  }

  // ---------------------------------------------------------------------
  // Keywords

  /** The keyword table: the reserved words and the token kinds they map to.
      Every entry starts with a letter (and consists of letters only, see
      KeywordSpelledAsIdentifier in lexical_properties.dfy), so identifier()
      can produce it, and maps to a keyword kind. */
  function KeywordKind(text: string): (r: Option<TokenType>)
    ensures r.Some? ==> |text| > 0 && IsAlpha(text[0])
    ensures r.Some? ==> r.value !in {Identifier, String, Number, Eof}
  {
    match text
    case "and"    => Some(And)
    case "class"  => Some(Class)
    case "else"   => Some(Else)
    case "false"  => Some(False)
    case "for"    => Some(For)
    case "fun"    => Some(Fun)
    case "if"     => Some(If)
    case "nil"    => Some(Nil)
    case "or"     => Some(Or)
    case "print"  => Some(Print)
    case "return" => Some(Return)
    case "super"  => Some(Super)
    case "this"   => Some(This)
    case "true"   => Some(True)
    case "var"    => Some(Var)
    case "while"  => Some(While)
    case _ => None
  }

  /** An independent listing of the keyword kinds and their spellings. */
  function KeywordSpelling(k: TokenType): Option<string>
  {
    match k
    case And => Some("and")
    case Class => Some("class")
    case Else => Some("else")
    case False => Some("false")
    case For => Some("for")
    case Fun => Some("fun")
    case If => Some("if")
    case Nil => Some("nil")
    case Or => Some("or")
    case Print => Some("print")
    case Return => Some("return")
    case Super => Some("super")
    case This => Some("this")
    case True => Some("true")
    case Var => Some("var")
    case While => Some("while")
    case _ => None
  }

  /** The kind identifier() emits for the complete identifier text: the
      keyword spelt exactly so, or Identifier when there is none. */
  function IdentifierKind(text: string): (k: TokenType)
    ensures k != Identifier <==> exists kw :: KeywordSpelling(kw) == Some(text)
    ensures k != Identifier ==> KeywordSpelling(k) == Some(text)
  {
    KeywordsMatchSpellings();
    match KeywordKind(text)
    case Some(kw) => kw
    case None => Identifier
  }

  /** The table and the listing agree in both directions. */
  lemma KeywordsMatchSpellings()
    ensures forall t, k :: KeywordKind(t) == Some(k) <==> KeywordSpelling(k) == Some(t)
    ensures KeywordKind("") == None
  {
    TableToSpelling();
    SpellingToTable();
  }

  lemma TableToSpelling()
    ensures forall t, k :: KeywordKind(t) == Some(k) ==> KeywordSpelling(k) == Some(t)
  {
  }

  lemma SpellingToTable()
    ensures forall t, k :: KeywordSpelling(k) == Some(t) ==> KeywordKind(t) == Some(k)
  {
  }

  // ---------------------------------------------------------------------
  // One call of scanToken

  /** What one scanToken call does: the new current position, the new line,
      the token it appended (if any) and the error it reported (if any). */
  datatype StepResult = StepResult(next: nat, line: int, token: Option<Token>, error: Option<Report>)

  /** addToken with the lexeme src[cur..next], at the current line. */
  function Emit(src: string, cur: nat, next: nat, kind: TokenType, literal: Literal, line: int): StepResult
    requires cur <= next <= |src|
  {
    StepResult(next, line, Some(Token(kind, src[cur..next], literal, line)), None)
  }

  /** A step that consumes up to next and emits nothing. */
  function Skip(next: nat, line: int): StepResult
  {
    StepResult(next, line, None, None)
  }

  /** string(), with the opening quote at cur already consumed. */
  function StringStep(src: string, cur: nat, line: int): StepResult
    requires cur < |src|
  {
    var e := StringEnd(src, cur + 1);
    var endLine := line + NewlineCount(src[cur + 1..e]);
    if e == |src| then StepResult(e, endLine, None, Some((endLine, UnterminatedString)))
    else Emit(src, cur, e + 1, String, StringValue(Unescape(src[cur + 1..e])), endLine)
  }

  /** number(), with the first digit at cur already consumed. */
  function NumberStep(src: string, cur: nat, line: int): StepResult
    requires cur < |src|
  {
    var e := NumberEnd(src, cur + 1);
    Emit(src, cur, e, Number, NumberLiteral(src[cur..e]), line)
  }

  /** identifier(), with the first letter at cur already consumed. */
  function IdentifierStep(src: string, cur: nat, line: int): StepResult
    requires cur < |src|
  {
    var e := RunEnd(src, cur + 1, IsAlphaNumeric);
    Emit(src, cur, e, IdentifierKind(src[cur..e]), NoValue, line)
  }

  /** scanToken with start == current == cur. It always consumes at least one
      character (what else holds of every step is StepFacts, in
      lexical_properties.dfy). */
  function Step(src: string, cur: nat, line: int): (r: StepResult)
    requires cur < |src|
    ensures cur < r.next <= |src|
  {
    var n := cur + 1;
    match src[cur]
    case '(' => Emit(src, cur, n, LeftParen, NoValue, line)
    case ')' => Emit(src, cur, n, RightParen, NoValue, line)
    case '{' => Emit(src, cur, n, LeftBrace, NoValue, line)
    case '}' => Emit(src, cur, n, RightBrace, NoValue, line)
    case ',' => Emit(src, cur, n, Comma, NoValue, line)
    case '.' => Emit(src, cur, n, Dot, NoValue, line)
    case '-' => Emit(src, cur, n, Minus, NoValue, line)
    case '+' => Emit(src, cur, n, Plus, NoValue, line)
    case ';' => Emit(src, cur, n, Semicolon, NoValue, line)
    case '*' => Emit(src, cur, n, Star, NoValue, line)
    case '!' =>
      if Matches(src, n, '=') then Emit(src, cur, n + 1, BangEqual, NoValue, line)
      else Emit(src, cur, n, Bang, NoValue, line)
    case '=' =>
      if Matches(src, n, '=') then Emit(src, cur, n + 1, EqualEqual, NoValue, line)
      else Emit(src, cur, n, Equal, NoValue, line)
    case '<' =>
      if Matches(src, n, '=') then Emit(src, cur, n + 1, LessEqual, NoValue, line)
      else Emit(src, cur, n, Less, NoValue, line)
    case '>' =>
      if Matches(src, n, '=') then Emit(src, cur, n + 1, GreaterEqual, NoValue, line)
      else Emit(src, cur, n, Greater, NoValue, line)
    case '/' =>
      if Matches(src, n, '/') then Skip(RunEnd(src, n + 1, NotNewline), line)
      else Emit(src, cur, n, Slash, NoValue, line)
    case ' ' => Skip(n, line)
    case '\r' => Skip(n, line)
    case '\t' => Skip(n, line)
    case '\n' => Skip(n, line + 1)
    case '"' => StringStep(src, cur, line)
    case c =>
      if IsDigit(c) then NumberStep(src, cur, line)
      else if IsAlpha(c) then IdentifierStep(src, cur, line)
      else StepResult(n, line, None, Some((line, UnexpectedCharacter)))
  }

  // ---------------------------------------------------------------------
  // The whole scan

  /** The tokens and the error reports of a scan. */
  datatype Scan = Scan(tokens: seq<Token>, errors: seq<Report>)

  /** What scanTokens produces from cursor cur and line `line` onwards: one
      step after another until the end of input, then the Eof token. */
  function ScanFrom(src: string, cur: nat, line: int): Scan
    requires cur <= |src|
    decreases |src| - cur
  {
    if cur == |src| then Scan([Token(Eof, "", NoValue, line)], [])
    else
      var st := Step(src, cur, line);
      var rest := ScanFrom(src, st.next, st.line);
      Scan(Elements(st.token) + rest.tokens, Elements(st.error) + rest.errors)
  }

  /** The result of scanning src with a fresh scanner. */
  function ScanSource(src: string): Scan
  {
    ScanFrom(src, 0, 1)
  }
}
