/** The Lox scanner as the object it is in the interpreter: a cursor over the
    source text that appends tokens to a list as it goes. Every method is
    proved to do what the pure specification in lexical.dfy says one scan
    step, or the whole scan, does. The interpreter's error sink is the
    `errors` field, to which each report is appended. */
module Lox {
  import opened Tokens
  import opened Lexical
  import LexicalProperties

  class Scanner {
    const source: string
    var tokens: seq<Token>
    /** The (line, message) reports handed to the interpreter's error sink. */
    var errors: seq<Report>
    /** Where the lexeme being scanned starts. */
    var start: nat
    /** The next character to read. */
    var current: nat
    var line: int

    ghost predicate Valid()
      reads this
    {
      start <= current <= |source|
    }

    /** A scanner at the start of source, on line 1, with nothing scanned. */
    constructor (source: string)
      ensures this.source == source && tokens == [] && errors == []
      ensures start == 0 && current == 0 && line == 1
      ensures Valid()
    {
      this.source := source;
      tokens, errors := [], [];
      start, current, line := 0, 0, 1;
    }

    predicate IsAtEnd()
      reads this
    {
      current >= |source|
    }

    /** The next character, or '\0' at the end of the input. */
    function Peek(): (c: char)
      reads this
      ensures c == At(source, current)
    {
      if IsAtEnd() then '\0' else source[current]
    }

    /** The character after the next one, or '\0' past the end. */
    function PeekNext(): (c: char)
      reads this
      ensures c == At(source, current + 1)
    {
      if current + 1 >= |source| then '\0' else source[current + 1]
    }

    /** Consumes and returns the next character. */
    method Advance() returns (c: char)
      requires current < |source|
      modifies this`current
      ensures c == source[old(current)] && current == old(current) + 1
    {
      c := source[current];
      current := current + 1;
    }

    /** Consumes the next character exactly when it is the expected one. */
    method Match(expected: char) returns (matched: bool)
      modifies this`current
      ensures matched == Matches(source, old(current), expected)
      ensures current == if matched then old(current) + 1 else old(current)
    {
      if IsAtEnd() {
        return false;
      }
      if source[current] != expected {
        return false;
      }
      current := current + 1;
      return true;
    }

    /** Appends a token of the given kind with no literal. */
    method AddToken(kind: TokenType)
      requires start <= current <= |source|
      modifies this`tokens
      ensures tokens == old(tokens) + [Token(kind, source[start..current], NoValue, line)]
    {
      AddLiteralToken(kind, NoValue);
    }

    /** Appends a token whose lexeme is the text from start to current. */
    method AddLiteralToken(kind: TokenType, literal: Literal)
      requires start <= current <= |source|
      modifies this`tokens
      ensures tokens == old(tokens) + [Token(kind, source[start..current], literal, line)]
    {
      var text := source[start..current];
      tokens := tokens + [Token(kind, text, literal, line)];
    }

    /** The interpreter's error sink: records the report. */
    method ReportError(at: int, message: string)
      modifies this`errors
      ensures errors == old(errors) + [(at, message)]
    {
      errors := errors + [(at, message)];
    }

    /** identifier(): the rest of a name, then its kind from the keyword table. */
    method Identifier(ghost cur: nat, ghost ln: int)
      requires start == cur && line == ln
      requires start < |source| && current == start + 1 && IsAlpha(source[start])
      modifies this`current, this`tokens
      ensures current == IdentifierStep(source, cur, ln).next
      ensures tokens == old(tokens) + Elements(IdentifierStep(source, cur, ln).token)
    {
      var c0 := current;
      while IsAlphaNumeric(Peek())
        invariant c0 <= current <= |source|
        invariant RunEnd(source, current, IsAlphaNumeric) == RunEnd(source, c0, IsAlphaNumeric)
        invariant tokens == old(tokens)
        decreases |source| - current
      {
        var _ := Advance();
      }
      assert current == RunEnd(source, c0, IsAlphaNumeric);
      var text := source[start..current];
      var kind := match KeywordKind(text)
        case Some(k) => k
        case None => TokenType.Identifier;
      assert kind == IdentifierKind(text);
      AddToken(kind);
    }

    /** The loop `while (isDigit(peek())) advance();` of number(). */
    method SkipDigits()
      requires current <= |source|
      modifies this`current
      ensures current == RunEnd(source, old(current), IsDigit)
    {
      while IsDigit(Peek())
        invariant old(current) <= current <= |source|
        invariant RunEnd(source, current, IsDigit) == RunEnd(source, old(current), IsDigit)
        decreases |source| - current
      {
        var _ := Advance();
      }
    }

    /** The loop `while (peek() != '\n' && !isAtEnd()) advance();` that skips
        the rest of a line comment. */
    method SkipLineComment()
      requires current <= |source|
      modifies this`current
      ensures current == RunEnd(source, old(current), NotNewline)
    {
      while Peek() != '\n' && !IsAtEnd()
        invariant old(current) <= current <= |source|
        invariant RunEnd(source, current, NotNewline) == RunEnd(source, old(current), NotNewline)
        decreases |source| - current
      {
        var _ := Advance();
      }
    }

    /** number(): digits, then '.' and digits only when a digit follows the '.'. */
    method Number(ghost cur: nat, ghost ln: int)
      requires start == cur && line == ln
      requires start < |source| && current == start + 1 && IsDigit(source[start])
      modifies this`current, this`tokens
      ensures current == NumberStep(source, cur, ln).next
      ensures tokens == old(tokens) + Elements(NumberStep(source, cur, ln).token)
    {
      SkipDigits();
      ghost var w := current;
      if Peek() == '.' && IsDigit(PeekNext()) {
        var _ := Advance();
        SkipDigits();
      }
      LexicalProperties.NumberStepIs(source, cur, ln, w, current);
      AddLiteralToken(TokenType.Number, NumberLiteral(source[start..current]));
    }

    /** The loop of string(): up to the closing quote or the end of input,
        stepping over each \" pair and counting the newlines it passes. */
    method SkipStringBody()
      requires current <= |source|
      modifies this`current, this`line
      ensures current == StringEnd(source, old(current))
      ensures line == old(line) + NewlineCount(source[old(current)..current])
    {
      var c0 := current;
      while Peek() != '"' && !IsAtEnd()
        invariant c0 <= current <= |source|
        invariant StringEnd(source, current) == StringEnd(source, c0)
        invariant line == old(line) + NewlineCount(source[c0..current])
        decreases |source| - current
      {
        ghost var c, l := current, line;
        if Peek() == '\n' {
          line := line + 1;
        }
        if Peek() == '\\' && PeekNext() == '"' {
          var _ := Advance();
          var _ := Advance();
        } else {
          var _ := Advance();
        }
        LexicalProperties.StringLoopStep(source, c0, c, current, old(line), l, line);
      }
    }

    /** The tail of string(): takes the closing quote and emits the text
        between the quotes, unescaped. */
    method CloseString()
      requires start < current < |source|
      modifies this`current, this`tokens
      ensures current == old(current) + 1
      ensures tokens == old(tokens) +
        [Token(TokenType.String, source[start..old(current) + 1],
               StringValue(Unescape(source[start + 1..old(current)])), line)]
    {
      var _ := Advance();
      var value := source[start + 1..current - 1];
      AddLiteralToken(TokenType.String, StringValue(Unescape(value)));
    }

    /** string(): the body, then at the end of input an error, otherwise the
        closing quote and a token whose value is the unescaped body. */
    method StringLiteral(ghost cur: nat, ghost ln: int)
      requires start == cur && line == ln
      requires start < |source| && current == start + 1 && source[start] == '"'
      modifies this`current, this`line, this`tokens, this`errors
      ensures current == StringStep(source, cur, ln).next
      ensures line == StringStep(source, cur, ln).line
      ensures tokens == old(tokens) + Elements(StringStep(source, cur, ln).token)
      ensures errors == old(errors) + Elements(StringStep(source, cur, ln).error)
    {
      SkipStringBody();
      if IsAtEnd() {
        LexicalProperties.UnterminatedStringIs(source, cur, ln, current, line);
        ReportError(line, UnterminatedString);
      } else {
        LexicalProperties.TerminatedStringIs(source, cur, ln, current, line);
        CloseString();
      }
    }

    /** The cases of scanToken() for the one- and two-character operators and
        punctuation, with the character c at start already consumed. */
    method Punctuation(c: char, ghost cur: nat, ghost ln: int)
      requires start == cur && line == ln
      requires start < |source| && current == start + 1 && c == source[start]
      requires c in "(){},.-+;*!=<>"
      modifies this`current, this`tokens
      ensures current == Step(source, cur, ln).next
      ensures tokens == old(tokens) + Elements(Step(source, cur, ln).token)
      ensures Step(source, cur, ln).line == ln && Step(source, cur, ln).error.None?
    {
      match c
      case '(' => AddToken(LeftParen);
      case ')' => AddToken(RightParen);
      case '{' => AddToken(LeftBrace);
      case '}' => AddToken(RightBrace);
      case ',' => AddToken(Comma);
      case '.' => AddToken(Dot);
      case '-' => AddToken(Minus);
      case '+' => AddToken(Plus);
      case ';' => AddToken(Semicolon);
      case '*' => AddToken(Star);
      case '!' =>
        var m := Match('=');
        AddToken(if m then BangEqual else Bang);
      case '=' =>
        var m := Match('=');
        AddToken(if m then EqualEqual else Equal);
      case '<' =>
        var m := Match('=');
        AddToken(if m then LessEqual else Less);
      case '>' =>
        var m := Match('=');
        AddToken(if m then GreaterEqual else Greater);
    }

    /** scanToken(): one lexeme from start == current, as Step specifies it. */
    method ScanToken(ghost cur: nat, ghost ln: int)
      requires start == current == cur < |source| && line == ln
      modifies this`current, this`line, this`tokens, this`errors
      ensures current == Step(source, cur, ln).next
      ensures line == Step(source, cur, ln).line
      ensures tokens == old(tokens) + Elements(Step(source, cur, ln).token)
      ensures errors == old(errors) + Elements(Step(source, cur, ln).error)
    {
      LexicalProperties.AppendNothing(tokens);
      LexicalProperties.AppendNothing(errors);
      var c := Advance();
      if c in "(){},.-+;*!=<>" {
        Punctuation(c, cur, ln);
        return;
      }
      match c
      case '/' =>
        var m := Match('/');
        if m {
          // A comment goes until the end of the line.
          LexicalProperties.CommentStep(source, cur, ln);
          SkipLineComment();
        } else {
          AddToken(Slash);
        }
      case ' ' => LexicalProperties.WhitespaceStep(source, cur, ln);
      case '\r' => LexicalProperties.WhitespaceStep(source, cur, ln);
      case '\t' => LexicalProperties.WhitespaceStep(source, cur, ln);
      case '\n' =>
        LexicalProperties.WhitespaceStep(source, cur, ln);
        line := line + 1;
      case '"' =>
        LexicalProperties.QuoteStep(source, cur, ln);
        StringLiteral(cur, ln);
      case _ =>
        if IsDigit(c) {
          LexicalProperties.DigitStep(source, cur, ln);
          Number(cur, ln);
        } else if IsAlpha(c) {
          LexicalProperties.AlphaStep(source, cur, ln);
          Identifier(cur, ln);
        } else {
          LexicalProperties.UnexpectedCharacterReported(source, cur, ln);
          ReportError(line, UnexpectedCharacter);
        }
    }

    /** scanTokens(): scanToken from each lexeme start to the end of the
        input, then the Eof token; returns the whole token list. */
    method ScanTokens() returns (result: seq<Token>)
      requires Valid()
      modifies this`start, this`current, this`line, this`tokens, this`errors
      ensures Valid()
      ensures result == tokens
      ensures tokens == old(tokens) + ScanFrom(source, old(current), old(line)).tokens
      ensures errors == old(errors) + ScanFrom(source, old(current), old(line)).errors
      ensures current == |source|
      ensures line == old(line) + NewlineCount(source[old(current)..])
    {
      while !IsAtEnd()
        invariant old(current) <= current <= |source| && start <= current
        invariant line == old(line) + NewlineCount(source[old(current)..current])
        invariant tokens + ScanFrom(source, current, line).tokens
          == old(tokens) + ScanFrom(source, old(current), old(line)).tokens
        invariant errors + ScanFrom(source, current, line).errors
          == old(errors) + ScanFrom(source, old(current), old(line)).errors
        decreases |source| - current
      {
        start := current;
        ghost var t, e, c, l := tokens, errors, current, line;
        ScanToken(c, l);
        LexicalProperties.ScanAfterStep(source, c, l, t, tokens, e, errors);
        LexicalProperties.StepLine(source, c, l);
        LexicalProperties.NewlineCountSplit(source, old(current), c, current);
      }
      assert source[old(current)..current] == source[old(current)..];
      tokens := tokens + [Token(Eof, "", NoValue, line)];
      result := tokens;
    }
  }

  /** What the interpreter does with a source text before parsing it: a fresh
      scanner over it, and the token list scanTokens returns. The list is the
      specified scan; it ends with the only Eof token, on the line reached at
      the end of the input, and its line numbers never decrease. */
  method Tokenize(source: string) returns (tokens: seq<Token>, errors: seq<Report>)
    ensures tokens == ScanSource(source).tokens && errors == ScanSource(source).errors
    ensures LexicalProperties.EndsWithOnlyEof(tokens, 1 + NewlineCount(source))
    ensures LexicalProperties.LinesFrom(1, tokens)
  {
    var scanner := new Scanner(source);
    tokens := scanner.ScanTokens();
    errors := scanner.errors;
    assert source[0..] == source;
    LexicalProperties.ScanEndsWithEof(source, 0, 1, 1 + NewlineCount(source));
    LexicalProperties.ScanLinesNonDecreasing(source, 0, 1);
  }
}
