/** Worked scans of small inputs, each derived from the general lemmas
    about one scanToken step. Each input is a parameter fixed by the
    precondition, so the scans are derived step by step rather than by
    unfolding the whole scan at once. */
module LexicalExamples {
  import opened Tokens
  import opened Lexical
  import opened LexicalProperties

  /** Two steps that together consume the input, followed by Eof. */
  lemma ScanTwoSteps(src: string, st1: StepResult, st2: StepResult)
    requires 0 < |src| && Step(src, 0, 1) == st1 && st1.next < |src|
    requires Step(src, st1.next, st1.line) == st2 && st2.next == |src|
    ensures ScanSource(src) ==
      Scan(Elements(st1.token) + Elements(st2.token) + [Token(Eof, "", NoValue, st2.line)],
           Elements(st1.error) + Elements(st2.error))
  {
    ScanUnfold(src, 0, 1, st1);
    ScanLastStep(src, st1.next, st1.line, st2);
  }

  /** A step that emits tok and consumes one character, then a step that
      only skips. */
  lemma ScanTokenThenSkip(src: string, cur: nat, line: int, tok: Token, next: nat, nextLine: int)
    requires cur + 1 < |src| && Step(src, cur, line) == StepResult(cur + 1, line, Some(tok), None)
    requires Step(src, cur + 1, line) == Skip(next, nextLine)
    ensures ScanFrom(src, cur, line) ==
      Scan([tok] + ScanFrom(src, next, nextLine).tokens, ScanFrom(src, next, nextLine).errors)
  {
    ScanUnfold(src, cur, line, StepResult(cur + 1, line, Some(tok), None));
    ScanSkip(src, cur + 1, line, next, nextLine);
  }

  // ---------------------------------------------------------------------
  // Operators

  lemma BangEqualStep(src: string)
    requires src == "!="
    ensures Step(src, 0, 1) == StepResult(2, 1, Some(Token(BangEqual, "!=", NoValue, 1)), None)
  {
    assert src[0..2] == "!=";
  }

  lemma BangStep(src: string)
    requires src == "!"
    ensures Step(src, 0, 1) == StepResult(1, 1, Some(Token(Bang, "!", NoValue, 1)), None)
  {
    assert src[0..1] == "!";
  }

  /** "!=" is one BangEqual token. */
  lemma ExampleBangEqual(src: string)
    requires src == "!="
    ensures ScanSource(src) == Scan([Token(BangEqual, "!=", NoValue, 1), Token(Eof, "", NoValue, 1)], [])
  {
    BangEqualStep(src);
    ScanOneToken(src, Token(BangEqual, "!=", NoValue, 1));
  }

  /** "!" alone is one Bang token. */
  lemma ExampleBang(src: string)
    requires src == "!"
    ensures ScanSource(src) == Scan([Token(Bang, "!", NoValue, 1), Token(Eof, "", NoValue, 1)], [])
  {
    BangStep(src);
    ScanOneToken(src, Token(Bang, "!", NoValue, 1));
  }

  // ---------------------------------------------------------------------
  // Numbers

  lemma IntegerPartStep(src: string)
    requires |src| == 4 && src[..3] == "123" && src[3] == '.'
    ensures Step(src, 0, 1) == StepResult(3, 1, Some(Token(Number, "123", NumberValue(123, 0), 1)), None)
  {
    assert src[0] == '1' && src[1] == '2' && src[2] == '3';
    DigitStep(src, 0, 1);
    RunEndIs(src, 1, IsDigit, 3);
    assert NumberEnd(src, 1) == 3;
    assert src[0..3] == "123";
    NumberLiteralValue("123", "");
  }

  lemma DotStep(src: string, cur: nat, line: int)
    requires cur < |src| && src[cur] == '.'
    ensures Step(src, cur, line) == StepResult(cur + 1, line, Some(Token(Dot, ".", NoValue, line)), None)
  {
    assert src[cur..cur + 1] == ".";
  }

  /** "123." is the number 123 followed by a Dot: the '.' is not part of the
      number because no digit follows it. */
  lemma ExampleTrailingDot(src: string)
    requires src == "123."
    ensures ScanSource(src) == Scan([Token(Number, "123", NumberValue(123, 0), 1),
                                     Token(Dot, ".", NoValue, 1), Token(Eof, "", NoValue, 1)], [])
  {
    assert src[..3] == "123";
    IntegerPartStep(src);
    DotStep(src, 3, 1);
    ScanTwoSteps(src, StepResult(3, 1, Some(Token(Number, "123", NumberValue(123, 0), 1)), None),
                 StepResult(4, 1, Some(Token(Dot, ".", NoValue, 1)), None));
  }

  /** number() on "123.45" runs to the end: a digit follows the '.'. */
  lemma FractionEnd(src: string)
    requires src == "123.45"
    ensures NumberEnd(src, 1) == 6
  {
    RunEndIs(src, 1, IsDigit, 3);
    RunEndIs(src, 4, IsDigit, 6);
  }

  lemma FractionValue(src: string)
    requires src == "123.45"
    ensures NumberLiteral(src) == NumberValue(12345, 2)
  {
    assert src == "123" + "." + "45";
    NumberLiteralValue("123", "45");
  }

  lemma FractionStep(src: string)
    requires src == "123.45"
    ensures Step(src, 0, 1) == StepResult(6, 1, Some(Token(Number, "123.45", NumberValue(12345, 2), 1)), None)
  {
    DigitStep(src, 0, 1);
    FractionEnd(src);
    FractionValue(src);
    assert src[0..6] == src;
  }

  /** "123.45" is one number with the exact value 12345 / 10^2. */
  lemma ExampleFraction(src: string)
    requires src == "123.45"
    ensures ScanSource(src) == Scan([Token(Number, "123.45", NumberValue(12345, 2), 1), Token(Eof, "", NoValue, 1)], [])
  {
    FractionStep(src);
    ScanOneToken(src, Token(Number, "123.45", NumberValue(12345, 2), 1));
  }

  /** A digit followed by a newline or the end of input is a one-digit number. */
  lemma SingleDigitStep(src: string, cur: nat, line: int)
    requires cur < |src| && IsDigit(src[cur]) && (cur + 1 == |src| || src[cur + 1] == '\n')
    ensures Step(src, cur, line) ==
      StepResult(cur + 1, line, Some(Token(Number, [src[cur]], NumberValue(DigitValue(src[cur]), 0), line)), None)
  {
    DigitStep(src, cur, line);
    RunEndIs(src, cur + 1, IsDigit, cur + 1);
    assert NumberEnd(src, cur + 1) == cur + 1;
    assert src[cur..cur + 1] == [src[cur]];
    NumberLiteralValue([src[cur]], "");
    assert [src[cur]][..0] == [];
  }

  /** The scan of "1\n2\n3" from just after its first newline. */
  lemma LinesFromSecond(src: string)
    requires src == "1\n2\n3"
    ensures ScanFrom(src, 2, 2) ==
      Scan([Token(Number, "2", NumberValue(2, 0), 2), Token(Number, "3", NumberValue(3, 0), 3),
            Token(Eof, "", NoValue, 3)], [])
  {
    var t2 := Token(Number, "2", NumberValue(2, 0), 2);
    var t3 := Token(Number, "3", NumberValue(3, 0), 3);
    SingleDigitStep(src, 2, 2);
    ScanUnfold(src, 2, 2, StepResult(3, 2, Some(t2), None));
    WhitespaceStep(src, 3, 2);
    ScanSkip(src, 3, 2, 4, 3);
    SingleDigitStep(src, 4, 3);
    ScanLastStep(src, 4, 3, StepResult(5, 3, Some(t3), None));
  }

  /** The first two steps on "1\n2\n3": the number 1, then the newline. */
  lemma LinesFirstSteps(src: string)
    requires src == "1\n2\n3"
    ensures Step(src, 0, 1) == StepResult(1, 1, Some(Token(Number, "1", NumberValue(1, 0), 1)), None)
    ensures Step(src, 1, 1) == Skip(2, 2)
  {
    SingleDigitStep(src, 0, 1);
    WhitespaceStep(src, 1, 1);
  }

  /** Each number of "1\n2\n3" carries its own line; Eof is on line 3. */
  lemma ExampleLines(src: string)
    requires src == "1\n2\n3"
    ensures ScanSource(src) ==
      Scan([Token(Number, "1", NumberValue(1, 0), 1), Token(Number, "2", NumberValue(2, 0), 2),
            Token(Number, "3", NumberValue(3, 0), 3), Token(Eof, "", NoValue, 3)], [])
  {
    LinesFirstSteps(src);
    LinesFromSecond(src);
    ScanTokenThenSkip(src, 0, 1, Token(Number, "1", NumberValue(1, 0), 1), 2, 2);
  }

  // ---------------------------------------------------------------------
  // Identifiers

  /** "classify" starts with the keyword "class" but is none. */
  lemma ClassifyIsNoKeyword()
    ensures IdentifierKind("classify") == Identifier
  {
  }

  lemma ClassIsKeyword()
    ensures IdentifierKind("class") == Class
  {
  }

  lemma ClassStep(src: string)
    requires src == "class"
    ensures Step(src, 0, 1) == StepResult(5, 1, Some(Token(Class, "class", NoValue, 1)), None)
  {
    AlphaStep(src, 0, 1);
    RunEndIs(src, 1, IsAlphaNumeric, 5);
    assert src[0..5] == "class";
    ClassIsKeyword();
  }

  /** "class" on its own is the keyword: one Class token. */
  lemma ExampleClass(src: string)
    requires src == "class"
    ensures ScanSource(src) == Scan([Token(Class, "class", NoValue, 1), Token(Eof, "", NoValue, 1)], [])
  {
    ClassStep(src);
    ScanOneToken(src, Token(Class, "class", NoValue, 1));
  }

  lemma ClassifyStep(src: string)
    requires src == "classify"
    ensures Step(src, 0, 1) == StepResult(8, 1, Some(Token(Identifier, "classify", NoValue, 1)), None)
  {
    AlphaStep(src, 0, 1);
    RunEndIs(src, 1, IsAlphaNumeric, 8);
    assert src[0..8] == "classify";
    ClassifyIsNoKeyword();
  }

  /** "classify" is a single identifier, not the keyword "class" followed by
      more text. */
  lemma ExampleClassify(src: string)
    requires src == "classify"
    ensures ScanSource(src) == Scan([Token(Identifier, "classify", NoValue, 1), Token(Eof, "", NoValue, 1)], [])
  {
    ClassifyStep(src);
    ScanOneToken(src, Token(Identifier, "classify", NoValue, 1));
  }

  // ---------------------------------------------------------------------
  // Strings

  /** The literal of "a\"b" written in quotes is a"b. */
  lemma ExampleEscapedQuote(src: string)
    requires src == "\"a\\\"b\""
    ensures ScanSource(src) == Scan([Token(String, src, StringValue("a\"b"), 1), Token(Eof, "", NoValue, 1)], [])
  {
    assert Escape("a\"b") == "a\\\"b";
    assert src == Quoted("a\"b");
    NoNewlineCount("a\"b");
    StringLiteralRoundTrip("a\"b", src, 1);
  }

  /** "\"abc" is unterminated: one error and only the Eof token. */
  lemma ExampleUnterminated(src: string)
    requires src == "\"abc"
    ensures ScanSource(src) == Scan([Token(Eof, "", NoValue, 1)], [(1, UnterminatedString)])
  {
    assert src[0..] == src;
    assert src[1..] == "abc";
    NoNewlineCount("abc");
    NoQuoteRunsToEnd(src, 1);
    UnterminatedStringReported(src, 0, 1, 1);
  }

  /** The loop of string() on "\"a\\\"b" steps over the escaped quote and
      reaches the end of input. */
  lemma EscapedQuoteRunsToEnd(src: string)
    requires src == "\"a\\\"b"
    ensures StringEnd(src, 1) == |src|
  {
    assert StringEnd(src, 4) == 5;
    assert StringEnd(src, 2) == 5;
  }

  /** "\"a\\\"b" is unterminated too: the only quote after the opening
      one is escaped. */
  lemma ExampleUnterminatedEscaped(src: string)
    requires src == "\"a\\\"b"
    ensures ScanSource(src) == Scan([Token(Eof, "", NoValue, 1)], [(1, UnterminatedString)])
  {
    assert src[0..] == src;
    assert src[1..] == "a\\\"b";
    NoNewlineCount("a\\\"b");
    EscapedQuoteRunsToEnd(src);
    UnterminatedStringReported(src, 0, 1, 1);
  }

  lemma BackslashQuoteStep(src: string)
    requires src == "\"\\\""
    ensures Step(src, 0, 1) == StepResult(3, 1, None, Some((1, UnterminatedString)))
  {
    QuoteStep(src, 0, 1);
    assert StringEnd(src, 1) == 3;
    NoNewlineCount(src[1..3]);
  }

  /** A text ending in a backslash cannot be written as a literal: the
      backslash and the closing quote are taken as an escaped quote, and the
      string is unterminated. */
  lemma TrailingBackslashSwallowsClosingQuote(src: string)
    requires src == "\"\\\""
    ensures ScanSource(src) == Scan([Token(Eof, "", NoValue, 1)], [(1, UnterminatedString)])
  {
    BackslashQuoteStep(src);
    ScanLastStep(src, 0, 1, StepResult(3, 1, None, Some((1, UnterminatedString))));
  }
}
