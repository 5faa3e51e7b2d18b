/** Properties of the scanner specification in lexical.dfy: the shape of the
    token list, line counting, maximal munch for numbers and identifiers, the
    string-literal escape, and the examples the scanner's design promises. */
module LexicalProperties {
  import opened Tokens
  import opened Lexical

  // ---------------------------------------------------------------------
  // scanToken by the class of the character it starts on

  /** What every scanToken call does besides consuming at least one
      character: it never moves the line back; it emits a token or reports
      an error, not both; a token has as lexeme exactly the text consumed,
      is not Eof and carries the line reached at the end of that text, and
      so does a report. */
  lemma StepFacts(src: string, cur: nat, line: int)
    requires cur < |src|
    ensures line <= Step(src, cur, line).line
    ensures Step(src, cur, line).token.Some? ==> Step(src, cur, line).error.None?
    ensures Step(src, cur, line).token.Some? ==>
      Step(src, cur, line).token.value.lexeme == src[cur..Step(src, cur, line).next]
    ensures Step(src, cur, line).token.Some? ==>
      Step(src, cur, line).token.value.line == Step(src, cur, line).line
      && Step(src, cur, line).token.value.kind != Eof
    ensures Step(src, cur, line).error.Some? ==> Step(src, cur, line).error.value.0 == Step(src, cur, line).line
  {
  }

  lemma WhitespaceStep(src: string, cur: nat, line: int)
    requires cur < |src| && src[cur] in {' ', '\r', '\t', '\n'}
    ensures Step(src, cur, line) == Skip(cur + 1, if src[cur] == '\n' then line + 1 else line)
  {
  }

  lemma CommentStep(src: string, cur: nat, line: int)
    requires cur < |src| && src[cur] == '/' && Matches(src, cur + 1, '/')
    ensures Step(src, cur, line) == Skip(RunEnd(src, cur + 2, NotNewline), line)
  {
  }

  lemma QuoteStep(src: string, cur: nat, line: int)
    requires cur < |src| && src[cur] == '"'
    ensures Step(src, cur, line) == StringStep(src, cur, line)
  {
  }

  lemma DigitStep(src: string, cur: nat, line: int)
    requires cur < |src| && IsDigit(src[cur])
    ensures Step(src, cur, line) == NumberStep(src, cur, line)
  {
  }

  lemma AlphaStep(src: string, cur: nat, line: int)
    requires cur < |src| && IsAlpha(src[cur])
    ensures Step(src, cur, line) == IdentifierStep(src, cur, line)
  {
  }

  // ---------------------------------------------------------------------
  // Newline counting

  lemma {:induction false} NewlineCountAppend(a: string, b: string)
    ensures NewlineCount(a + b) == NewlineCount(a) + NewlineCount(b)
    decreases |b|
  {
    if b == [] {
      assert a + b == a;
    } else {
      assert (a + b)[..|a + b| - 1] == a + b[..|b| - 1];
      NewlineCountAppend(a, b[..|b| - 1]);
    }
  }

  lemma NewlineCountSplit(s: string, i: nat, j: nat, k: nat)
    requires i <= j <= k <= |s|
    ensures NewlineCount(s[i..k]) == NewlineCount(s[i..j]) + NewlineCount(s[j..k])
  {
    assert s[i..k] == s[i..j] + s[j..k];
    NewlineCountAppend(s[i..j], s[j..k]);
  }

  lemma NewlineCountSuffix(s: string, i: nat, j: nat)
    requires i <= j <= |s|
    ensures NewlineCount(s[i..]) == NewlineCount(s[i..j]) + NewlineCount(s[j..])
  {
    assert s[i..] == s[i..j] + s[j..];
    NewlineCountAppend(s[i..j], s[j..]);
  }

  /** Counting one more character adds one exactly when it is a newline. */
  lemma NewlineCountExtend(s: string, i: nat, j: nat)
    requires i <= j < |s|
    ensures NewlineCount(s[i..j + 1]) == NewlineCount(s[i..j]) + if s[j] == '\n' then 1 else 0
  {
    NewlineCountSplit(s, i, j, j + 1);
    assert s[j..j + 1][..0] == [];
  }

  lemma {:induction false} NoNewlineCount(s: string)
    requires forall k :: 0 <= k < |s| ==> s[k] != '\n'
    ensures NewlineCount(s) == 0
  {
    if s != [] {
      NoNewlineCount(s[..|s| - 1]);
    }
  }

  // ---------------------------------------------------------------------
  // number(): maximal munch

  ghost predicate AllDigits(s: string) {
    forall k :: 0 <= k < |s| ==> IsDigit(s[k])
  }

  /** The lexical shape of a Lox number: digits, optionally followed by a '.'
      and more digits. */
  ghost predicate IsNumberLexeme(s: string) {
    || (|s| > 0 && AllDigits(s))
    || exists d :: 0 < d < |s| - 1 && s[d] == '.' && AllDigits(s[..d]) && AllDigits(s[d + 1..])
  }

  /** The characters number() consumes after the first digit are digits and
      at most one '.', which is followed by a digit. */
  lemma NumberEndShape(s: string, i: nat)
    requires i <= |s|
    ensures var w := RunEnd(s, i, IsDigit); var e := NumberEnd(s, i);
      && (forall k :: i <= k < w ==> IsDigit(s[k]))
      && (e == w || (w + 1 < e && s[w] == '.' && forall k :: w < k < e ==> IsDigit(s[k])))
      && !IsDigit(At(s, e))
      && (e == w ==> !(At(s, w) == '.' && IsDigit(At(s, w + 1))))
  {
  }

  /** number() stops at e: the first run of digits ends at w, and e is the
      end of the second run when a '.' and a digit follow w, w otherwise. */
  lemma NumberEndIs(s: string, i: nat, w: nat, e: nat)
    requires i <= |s| && w == RunEnd(s, i, IsDigit)
    requires At(s, w) == '.' && IsDigit(At(s, w + 1)) ==> w < |s| && e == RunEnd(s, w + 1, IsDigit)
    requires !(At(s, w) == '.' && IsDigit(At(s, w + 1))) ==> e == w
    ensures NumberEnd(s, i) == e
  {
  }

  /** What number() does once its loops have stopped at e, the first run of
      digits having ended at w: it emits the text from cur to e. */
  lemma NumberStepIs(src: string, cur: nat, line: int, w: nat, e: nat)
    requires cur < |src| && w == RunEnd(src, cur + 1, IsDigit)
    requires At(src, w) == '.' && IsDigit(At(src, w + 1)) ==> w < |src| && e == RunEnd(src, w + 1, IsDigit)
    requires !(At(src, w) == '.' && IsDigit(At(src, w + 1))) ==> e == w
    ensures cur < e <= |src| && NumberStep(src, cur, line).next == e
    ensures Elements(NumberStep(src, cur, line).token) ==
      [Token(Number, src[cur..e], NumberLiteral(src[cur..e]), line)]
  {
    NumberEndIs(src, cur + 1, w, e);
  }

  /** number() started after a digit at cur consumes a number-shaped text. */
  lemma NumberLexemeShape(s: string, cur: nat)
    requires cur < |s| && IsDigit(s[cur])
    ensures IsNumberLexeme(s[cur..NumberEnd(s, cur + 1)])
  {
    var w := RunEnd(s, cur + 1, IsDigit);
    var e := NumberEnd(s, cur + 1);
    NumberEndShape(s, cur + 1);
    var lexeme := s[cur..e];
    if e == w {
      assert AllDigits(lexeme);
    } else {
      var d := w - cur;
      assert lexeme[d] == '.';
      assert lexeme[..d] == s[cur..w];
      assert lexeme[d + 1..] == s[w + 1..e];
    }
  }

  /** No longer input prefix than the one number() consumes is number-shaped. */
  lemma NumberLexemeLongest(s: string, cur: nat, j: nat)
    requires cur < |s| && IsDigit(s[cur])
    requires NumberEnd(s, cur + 1) < j <= |s|
    ensures !IsNumberLexeme(s[cur..j])
  {
    var w := RunEnd(s, cur + 1, IsDigit);
    var e := NumberEnd(s, cur + 1);
    NumberEndShape(s, cur + 1);
    var longer := s[cur..j];
    assert longer[e - cur] == s[e];
    forall d | 0 < d < |longer| - 1
      ensures !(longer[d] == '.' && AllDigits(longer[..d]) && AllDigits(longer[d + 1..]))
    {
      if cur + d < w {
        assert IsDigit(longer[d]);
      } else if cur + d > w {
        assert longer[..d][w - cur] == s[w];
      } else if e == w {
        assert longer[d + 1..][0] == s[w + 1];
      } else {
        assert longer[d + 1..][e - w - 1] == s[e];
      }
    }
  }

  /** A number token is the longest prefix of the remaining input that has
      the shape of a number: "123." scans as "123", the '.' is left over. */
  lemma NumberMaximalMunch(src: string, cur: nat, line: int)
    requires cur < |src| && IsDigit(src[cur])
    ensures var st := Step(src, cur, line); var lexeme := src[cur..st.next];
      && st.token == Some(Token(Number, lexeme, NumberLiteral(lexeme), line))
      && st.line == line && st.error.None?
      && IsNumberLexeme(lexeme)
      && forall j :: st.next < j <= |src| ==> !IsNumberLexeme(src[cur..j])
  {
    var st := Step(src, cur, line);
    assert st == NumberStep(src, cur, line);
    NumberLexemeShape(src, cur);
    forall j | st.next < j <= |src|
      ensures !IsNumberLexeme(src[cur..j])
    {
      NumberLexemeLongest(src, cur, j);
    }
  }

  // ---------------------------------------------------------------------
  // Number literal values

  lemma {:induction false} FractionLengthOfDigits(w: string, f: string)
    requires AllDigits(w)
    ensures FractionLength(w) == 0
    ensures FractionLength(w + "." + f) == |f|
    decreases |w|
  {
    if w == [] {
      assert w + "." + f == "." + f;
    } else {
      assert (w + "." + f)[1..] == w[1..] + "." + f;
      FractionLengthOfDigits(w[1..], f);
    }
  }

  /** Reading one more digit appends it to the mantissa. */
  lemma MantissaSnoc(s: string, d: char)
    requires d != '.'
    ensures Mantissa(s + [d]) == Mantissa(s) * 10 + DigitValue(d)
  {
    assert (s + [d])[..|s + [d]| - 1] == s;
  }

  lemma {:induction false} MantissaOfFraction(w: string, f: string)
    requires AllDigits(w) && AllDigits(f)
    ensures Mantissa(w + "." + f) == Mantissa(w) * Pow10(|f|) + Mantissa(f)
    decreases |f|
  {
    if f == [] {
      assert w + "." + f == w + ['.'];
      assert (w + ['.'])[..|w|] == w;
    } else {
      var f', d := f[..|f| - 1], f[|f| - 1];
      assert f == f' + [d];
      assert w + "." + f == (w + "." + f') + [d];
      MantissaSnoc(w + "." + f', d);
      MantissaSnoc(f', d);
      MantissaOfFraction(w, f');
      ShiftDigit(Mantissa(w), Pow10(|f'|), Mantissa(f'), DigitValue(d));
    }
  }

  lemma ShiftDigit(a: int, p: int, b: int, d: int)
    ensures (a * p + b) * 10 + d == a * (p * 10) + (b * 10 + d)
  {
  }

  /** The literal of "w" is the integer w; that of "w.f" is w + f / 10^|f|,
      kept exactly as the mantissa w * 10^|f| + f over the scale |f|. */
  lemma NumberLiteralValue(w: string, f: string)
    requires AllDigits(w) && AllDigits(f)
    ensures NumberLiteral(w) == NumberValue(Mantissa(w), 0)
    ensures NumberLiteral(w + "." + f) == NumberValue(Mantissa(w) * Pow10(|f|) + Mantissa(f), |f|)
  {
    FractionLengthOfDigits(w, f);
    MantissaOfFraction(w, f);
  }

  // ---------------------------------------------------------------------
  // identifier(): maximal munch and keywords

  ghost predicate AllAlphaNumeric(s: string) {
    forall k :: 0 <= k < |s| ==> IsAlphaNumeric(s[k])
  }

  /** An identifier token is the longest run of letters, digits and '_' at
      the cursor, and it is a keyword exactly when the whole run is spelt as
      one: "classify" is one Identifier, never Class followed by "ify". */
  lemma IdentifierMaximalMunch(src: string, cur: nat, line: int)
    requires cur < |src| && IsAlpha(src[cur])
    ensures var st := Step(src, cur, line); var lexeme := src[cur..st.next];
      && st.token.Some? && st.error.None? && st.line == line
      && st.token.value == Token(IdentifierKind(lexeme), lexeme, NoValue, line)
      && AllAlphaNumeric(lexeme)
      && forall j :: st.next < j <= |src| ==> !AllAlphaNumeric(src[cur..j])
  {
    var st := Step(src, cur, line);
    forall j | st.next < j <= |src|
      ensures !AllAlphaNumeric(src[cur..j])
    {
      assert src[cur..j][st.next - cur] == src[st.next];
    }
  }

  /** The emitted kind is a keyword kind exactly when the text is that
      keyword's spelling. */
  lemma KeywordLookupExact(text: string)
    ensures IdentifierKind(text) != Identifier <==> KeywordKind(text).Some?
    ensures KeywordKind(text).Some? ==> KeywordSpelling(IdentifierKind(text)) == Some(text)
  {
    KeywordsMatchSpellings();
  }

  /** Every key of the keyword table is a run identifier() consumes whole. */
  lemma KeywordSpelledAsIdentifier(text: string)
    requires KeywordKind(text).Some?
    ensures |text| > 0 && IsAlpha(text[0]) && AllAlphaNumeric(text)
  {
  }

  // ---------------------------------------------------------------------
  // Line counting

  /** The characters a step consumes that are not the opening quote of a
      string are never newlines, except for the newline case itself. */
  lemma StepConsumesNoNewline(src: string, cur: nat, line: int)
    requires cur < |src| && src[cur] != '\n' && src[cur] != '"'
    ensures forall k :: cur <= k < Step(src, cur, line).next ==> src[k] != '\n'
  {
    var c := src[cur];
    if IsDigit(c) {
      DigitStep(src, cur, line);
      NumberEndShape(src, cur + 1);
    } else if IsAlpha(c) {
      AlphaStep(src, cur, line);
    } else if c == '/' && Matches(src, cur + 1, '/') {
      CommentStep(src, cur, line);
    } else {
      ShortStep(src, cur, line);
    }
  }

  /** Every other step consumes one character, or two when the second is '='. */
  lemma ShortStep(src: string, cur: nat, line: int)
    requires cur < |src| && src[cur] != '"' && !IsDigit(src[cur]) && !IsAlpha(src[cur])
    requires !(src[cur] == '/' && Matches(src, cur + 1, '/'))
    ensures var st := Step(src, cur, line);
      st.next == cur + 1 || (st.next == cur + 2 && src[cur + 1] == '=')
  {
  }

  /** string() advances line by the newlines between the quotes. */
  lemma StringStepLine(src: string, cur: nat, line: int)
    requires cur < |src| && src[cur] == '"'
    ensures var st := StringStep(src, cur, line);
      st.line == line + NewlineCount(src[cur..st.next])
  {
    var st := StringStep(src, cur, line);
    var e := StringEnd(src, cur + 1);
    NewlineCountSplit(src, cur, cur + 1, st.next);
    NoNewlineCount(src[cur..cur + 1]);
    if e < |src| {
      NewlineCountSplit(src, cur + 1, e, e + 1);
      NoNewlineCount(src[e..e + 1]);
    }
  }

  /** Each step advances line by the number of newlines it consumed. */
  lemma StepLine(src: string, cur: nat, line: int)
    requires cur < |src|
    ensures var st := Step(src, cur, line);
      st.line == line + NewlineCount(src[cur..st.next])
  {
    var st := Step(src, cur, line);
    var c := src[cur];
    if c == '\n' {
      assert st == Skip(cur + 1, line + 1);
      assert src[cur..cur + 1] == "\n";
      assert "\n"[..0] == [];
    } else if c == '"' {
      assert st == StringStep(src, cur, line);
      StringStepLine(src, cur, line);
    } else {
      StepConsumesNoNewline(src, cur, line);
      NoNewlineCount(src[cur..st.next]);
    }
  }

  // ---------------------------------------------------------------------
  // The token list

  /** toks is not empty, its last token is Eof on line `last` with an empty
      lexeme and no literal, and no other token is Eof. */
  ghost predicate EndsWithOnlyEof(toks: seq<Token>, last: int) {
    && |toks| >= 1
    && toks[|toks| - 1] == Token(Eof, "", NoValue, last)
    && forall k :: 0 <= k < |toks| - 1 ==> toks[k].kind != Eof
  }

  /** Putting at most one non-Eof token in front keeps the Eof alone at the end. */
  lemma ConsEof(head: seq<Token>, rest: seq<Token>, last: int)
    requires |head| <= 1 && (forall k :: 0 <= k < |head| ==> head[k].kind != Eof)
    requires EndsWithOnlyEof(rest, last)
    ensures EndsWithOnlyEof(head + rest, last)
  {
    var toks := head + rest;
    assert toks[|toks| - 1] == rest[|rest| - 1];
    forall k | 0 <= k < |toks| - 1
      ensures toks[k].kind != Eof
    {
      if k < |head| {
        assert toks[k] == head[k];
      } else {
        assert toks[k] == rest[k - |head|];
      }
    }
  }

  /** The token one step emits, as a list, holds no Eof. */
  lemma StepEmitsNoEof(src: string, cur: nat, line: int)
    requires cur < |src|
    ensures forall k :: 0 <= k < |Elements(Step(src, cur, line).token)| ==>
      Elements(Step(src, cur, line).token)[k].kind != Eof
  {
    StepFacts(src, cur, line);
  }

  /** The list is never empty; its last token is the only Eof, with an empty
      lexeme, no literal and the line reached at the end of the input. */
  lemma {:induction false} ScanEndsWithEof(src: string, cur: nat, line: int, last: int)
    requires cur <= |src| && last == line + NewlineCount(src[cur..])
    ensures EndsWithOnlyEof(ScanFrom(src, cur, line).tokens, last)
    decreases |src| - cur
  {
    if cur == |src| {
      assert src[cur..] == [];
    } else {
      var st := Step(src, cur, line);
      ScanUnfold(src, cur, line, st);
      StepLine(src, cur, line);
      NewlineCountSuffix(src, cur, st.next);
      ScanEndsWithEof(src, st.next, st.line, last);
      StepEmitsNoEof(src, cur, line);
      ConsEof(Elements(st.token), ScanFrom(src, st.next, st.line).tokens, last);
    }
  }

  /** Every line in toks is at least `line`, and the lines never decrease. */
  ghost predicate LinesFrom(line: int, toks: seq<Token>) {
    forall i, j :: 0 <= i <= j < |toks| ==> line <= toks[i].line <= toks[j].line
  }

  /** Putting a token on line l in front of a list whose lines start at l
      keeps the lines non-decreasing from any line at or below l. */
  lemma ConsLines(head: seq<Token>, rest: seq<Token>, line: int, l: int)
    requires line <= l && |head| <= 1
    requires forall k :: 0 <= k < |head| ==> head[k].line == l
    requires LinesFrom(l, rest)
    ensures LinesFrom(line, head + rest)
  {
    var toks := head + rest;
    var h := |head|;
    forall i, j | 0 <= i <= j < |toks|
      ensures line <= toks[i].line <= toks[j].line
    {
      if i >= h {
        assert toks[i] == rest[i - h] && toks[j] == rest[j - h];
      } else if j >= h {
        assert toks[i] == head[i] && toks[j] == rest[j - h];
        assert l <= rest[j - h].line;
      } else {
        assert toks[i] == head[i] && i == j;
      }
    }
  }

  /** The token one step emits, as a list, is on the line the step reaches. */
  lemma StepTokenLine(src: string, cur: nat, line: int)
    requires cur < |src|
    ensures forall k :: 0 <= k < |Elements(Step(src, cur, line).token)| ==>
      Elements(Step(src, cur, line).token)[k].line == Step(src, cur, line).line
  {
    StepFacts(src, cur, line);
  }

  /** Line numbers never decrease along the token list, and none is below the
      line the scan started on. */
  lemma {:induction false} ScanLinesNonDecreasing(src: string, cur: nat, line: int)
    requires cur <= |src|
    ensures LinesFrom(line, ScanFrom(src, cur, line).tokens)
    decreases |src| - cur
  {
    if cur < |src| {
      var st := Step(src, cur, line);
      ScanUnfold(src, cur, line, st);
      ScanLinesNonDecreasing(src, st.next, st.line);
      StepFacts(src, cur, line);
      StepTokenLine(src, cur, line);
      ConsLines(Elements(st.token), ScanFrom(src, st.next, st.line).tokens, line, st.line);
    }
  }

  /** t is a non-empty slice of src at or after from. */
  ghost predicate IsSliceFrom(src: string, from: nat, t: string) {
    exists i, j :: from <= i < j <= |src| && t == src[i..j]
  }

  /** Every token of toks but the last has as lexeme a non-empty slice of
      src at or after from. */
  ghost predicate LexemesAreSlicesFrom(src: string, from: nat, toks: seq<Token>) {
    forall k :: 0 <= k < |toks| - 1 ==> IsSliceFrom(src, from, toks[k].lexeme)
  }

  /** Putting one step's token, whose lexeme is the text the step consumed,
      in front of a list whose lexemes are slices after the step keeps every
      lexeme a non-empty slice after the step's start. */
  lemma ConsSlices(src: string, cur: nat, st: StepResult, rest: seq<Token>)
    requires cur < st.next <= |src| && |rest| >= 1
    requires st.token.Some? ==> st.token.value.lexeme == src[cur..st.next]
    requires LexemesAreSlicesFrom(src, st.next, rest)
    ensures LexemesAreSlicesFrom(src, cur, Elements(st.token) + rest)
  {
    var toks := Elements(st.token) + rest;
    var h := |Elements(st.token)|;
    forall k | 0 <= k < |toks| - 1
      ensures IsSliceFrom(src, cur, toks[k].lexeme)
    {
      if k < h {
        assert toks[k] == st.token.value;
        assert toks[k].lexeme == src[cur..st.next];
      } else {
        assert toks[k] == rest[k - h];
        assert IsSliceFrom(src, st.next, rest[k - h].lexeme);
        var i, j :| st.next <= i < j <= |src| && rest[k - h].lexeme == src[i..j];
        assert cur <= i;
      }
    }
  }

  /** Every token but the final Eof has as lexeme a non-empty slice of the
      input at or after the cursor the scan started from. */
  lemma {:induction false} ScanLexemesAreSlices(src: string, cur: nat, line: int)
    requires cur <= |src|
    ensures LexemesAreSlicesFrom(src, cur, ScanFrom(src, cur, line).tokens)
    decreases |src| - cur
  {
    if cur < |src| {
      var st := Step(src, cur, line);
      ScanLexemesAreSlices(src, st.next, st.line);
      StepFacts(src, cur, line);
      ScanEndsWithEof(src, st.next, st.line, st.line + NewlineCount(src[st.next..]));
      ConsSlices(src, cur, st, ScanFrom(src, st.next, st.line).tokens);
    }
  }

  /** One scanToken call followed by the rest of the scan. */
  lemma ScanUnfold(src: string, cur: nat, line: int, st: StepResult)
    requires cur < |src| && Step(src, cur, line) == st
    ensures ScanFrom(src, cur, line) ==
      Scan(Elements(st.token) + ScanFrom(src, st.next, st.line).tokens,
           Elements(st.error) + ScanFrom(src, st.next, st.line).errors)
  {
  }

  /** Appending one step's token and error to what has been scanned so far,
      then scanning on from where the step stopped, gives the same lists as
      scanning on from before the step. */
  lemma ScanAfterStep(src: string, cur: nat, line: int,
                      toks: seq<Token>, toks': seq<Token>, errs: seq<Report>, errs': seq<Report>)
    requires cur < |src|
    requires toks' == toks + Elements(Step(src, cur, line).token)
    requires errs' == errs + Elements(Step(src, cur, line).error)
    ensures toks' + ScanFrom(src, Step(src, cur, line).next, Step(src, cur, line).line).tokens
      == toks + ScanFrom(src, cur, line).tokens
    ensures errs' + ScanFrom(src, Step(src, cur, line).next, Step(src, cur, line).line).errors
      == errs + ScanFrom(src, cur, line).errors
  {
    var st := Step(src, cur, line);
    ScanUnfold(src, cur, line, st);
    var rest := ScanFrom(src, st.next, st.line);
    MoveAcross(toks, Elements(st.token), rest.tokens);
    MoveAcross(errs, Elements(st.error), rest.errors);
  }

  /** Appending nothing leaves a list as it is. */
  lemma AppendNothing<T>(a: seq<T>)
    ensures a + [] == a
  {
  }

  /** Moving a piece from the front of one list to the end of another. */
  lemma MoveAcross<T>(a: seq<T>, piece: seq<T>, b: seq<T>)
    ensures (a + piece) + b == a + (piece + b)
  {
  }

  /** A step that consumes the rest of the input is followed by Eof alone. */
  lemma ScanLastStep(src: string, cur: nat, line: int, st: StepResult)
    requires cur < |src| && Step(src, cur, line) == st && st.next == |src|
    ensures ScanFrom(src, cur, line) ==
      Scan(Elements(st.token) + [Token(Eof, "", NoValue, st.line)], Elements(st.error))
  {
    ScanUnfold(src, cur, line, st);
    assert Elements(st.error) + [] == Elements(st.error);
  }

  /** Input that one step consumes whole, emitting tok, scans to tok and Eof. */
  lemma ScanOneToken(src: string, tok: Token)
    requires 0 < |src| && Step(src, 0, 1) == StepResult(|src|, tok.line, Some(tok), None)
    ensures ScanSource(src) == Scan([tok, Token(Eof, "", NoValue, tok.line)], [])
  {
    ScanLastStep(src, 0, 1, Step(src, 0, 1));
    assert Elements(Some(tok)) + [Token(Eof, "", NoValue, tok.line)] == [tok, Token(Eof, "", NoValue, tok.line)];
  }

  /** A step that emits nothing and reports nothing leaves the scan as the
      scan from where it stops. */
  lemma ScanSkip(src: string, cur: nat, line: int, next: nat, nextLine: int)
    requires cur < |src| && Step(src, cur, line) == Skip(next, nextLine)
    ensures ScanFrom(src, cur, line) == ScanFrom(src, next, nextLine)
  {
    ScanUnfold(src, cur, line, Skip(next, nextLine));
    var rest := ScanFrom(src, next, nextLine);
    assert [] + rest.tokens == rest.tokens && [] + rest.errors == rest.errors;
  }

  lemma NewlineCountChar(s: string, i: nat)
    requires i < |s|
    ensures NewlineCount(s[i..i + 1]) == if s[i] == '\n' then 1 else 0
  {
    assert s[i..i + 1][..0] == [];
  }

  // ---------------------------------------------------------------------
  // Input that produces no token

  /** Whitespace and line comments: what scanToken skips without a token. */
  ghost predicate Trivia(s: string)
    decreases |s|
  {
    || s == []
    || (s[0] in {' ', '\r', '\t', '\n'} && Trivia(s[1..]))
    || (&& |s| >= 2 && s[0] == '/' && s[1] == '/'
        && exists k :: 2 <= k <= |s| && (forall m :: 2 <= m < k ==> s[m] != '\n')
                       && (k == |s| || s[k] == '\n') && Trivia(s[k..]))
  }

  /** The scan that ends with Eof at line `line` and reports nothing. */
  function OnlyEof(line: int): Scan {
    Scan([Token(Eof, "", NoValue, line)], [])
  }

  /** The run that starts at i ends at e when every character from i to e
      satisfies p and the one at e (if any) does not. */
  lemma {:induction false} RunEndIs(s: string, i: nat, p: char -> bool, e: nat)
    requires i <= e <= |s|
    requires forall k :: i <= k < e ==> p(s[k])
    requires e == |s| || !p(s[e])
    ensures RunEnd(s, i, p) == e
    decreases e - i
  {
    if i < e {
      RunEndIs(s, i + 1, p, e);
    }
  }

  /** A line comment holds no newline. */
  lemma CommentHasNoNewline(src: string, cur: nat)
    requires cur < |src| && src[cur] == '/' && Matches(src, cur + 1, '/')
    ensures NewlineCount(src[cur..RunEnd(src, cur + 2, NotNewline)]) == 0
  {
    var e := RunEnd(src, cur + 2, NotNewline);
    var c := src[cur..e];
    forall k | 0 <= k < |c|
      ensures c[k] != '\n'
    {
      assert c[k] == src[cur + k];
      if k >= 2 {
        assert NotNewline(src[cur + k]);
      }
    }
    NoNewlineCount(c);
  }

  /** Trivia that starts with a comment: the comment ends where the scanner's
      comment loop stops, and trivia follows. */
  lemma CommentTrivia(src: string, cur: nat) returns (next: nat)
    requires cur < |src| && Trivia(src[cur..]) && !(src[cur] in {' ', '\r', '\t', '\n'})
    ensures src[cur] == '/' && Matches(src, cur + 1, '/')
    ensures next == RunEnd(src, cur + 2, NotNewline) && Trivia(src[next..])
  {
    var s := src[cur..];
    assert s[0] == src[cur];
    var k :| 2 <= k <= |s| && (forall m :: 2 <= m < k ==> s[m] != '\n')
             && (k == |s| || s[k] == '\n') && Trivia(s[k..]);
    assert s[1] == src[cur + 1];
    forall m | cur + 2 <= m < cur + k
      ensures NotNewline(src[m])
    {
      assert s[m - cur] == src[m];
    }
    assert cur + k == |src| || !NotNewline(src[cur + k]) by {
      if k < |s| {
        assert s[k] == src[cur + k];
      }
    }
    RunEndIs(src, cur + 2, NotNewline, cur + k);
    next := cur + k;
    assert s[k..] == src[next..];
  }

  /** The step a scan takes on trivia skips to more trivia, and keeps the
      line reached at the end of the input. */
  lemma TriviaStep(src: string, cur: nat, line: int) returns (next: nat, l: int)
    requires cur < |src| && Trivia(src[cur..])
    ensures cur < next <= |src| && Trivia(src[next..])
    ensures Step(src, cur, line) == Skip(next, l)
    ensures l + NewlineCount(src[next..]) == line + NewlineCount(src[cur..])
  {
    var s := src[cur..];
    if s[0] in {' ', '\r', '\t', '\n'} {
      next, l := cur + 1, if src[cur] == '\n' then line + 1 else line;
      assert s[1..] == src[cur + 1..];
      WhitespaceStep(src, cur, line);
      NewlineCountSuffix(src, cur, cur + 1);
      NewlineCountChar(src, cur);
    } else {
      assert s[0] == src[cur];
      next := CommentTrivia(src, cur);
      l := line;
      CommentStep(src, cur, line);
      NewlineCountSuffix(src, cur, next);
      CommentHasNoNewline(src, cur);
    }
  }

  /** Input made only of whitespace and comments scans to the Eof token alone,
      on the line reached at the end of the input, with no error. */
  lemma {:induction false} TriviaScansToEof(src: string, cur: nat, line: int, last: int)
    requires cur <= |src| && Trivia(src[cur..]) && last == line + NewlineCount(src[cur..])
    ensures ScanFrom(src, cur, line) == OnlyEof(last)
    decreases |src| - cur
  {
    if cur == |src| {
      assert src[cur..] == [];
    } else {
      var next, l := TriviaStep(src, cur, line);
      TriviaScansToEof(src, next, l, last);
      ScanSkip(src, cur, line, next, l);
    }
  }

  lemma WhitespaceAndCommentsYieldOnlyEof(src: string, last: int)
    requires Trivia(src) && last == 1 + NewlineCount(src)
    ensures ScanSource(src) == OnlyEof(last)
  {
    assert src[0..] == src;
    TriviaScansToEof(src, 0, 1, last);
  }

  // ---------------------------------------------------------------------
  // One- and two-character operators, unexpected characters

  /** The kind emitted for !, =, < or > alone. */
  function OneCharKind(c: char): TokenType
  {
    match c
    case '!' => Bang
    case '=' => Equal
    case '<' => Less
    case _ => Greater
  }

  /** The kind emitted for !, =, < or > followed by '='. */
  function TwoCharKind(c: char): TokenType
  {
    match c
    case '!' => BangEqual
    case '=' => EqualEqual
    case '<' => LessEqual
    case _ => GreaterEqual
  }

  /** For !, =, < and >, a following '=' is consumed and the two-character
      kind emitted; otherwise one character and the one-character kind. */
  lemma OperatorLookahead(src: string, cur: nat, line: int)
    requires cur < |src| && src[cur] in {'!', '=', '<', '>'}
    ensures var st := Step(src, cur, line);
      && st.token.Some? && st.error.None? && st.line == line
      && (cur + 1 < |src| && src[cur + 1] == '=' ==>
            st.next == cur + 2 && st.token.value.kind == TwoCharKind(src[cur]))
      && (!(cur + 1 < |src| && src[cur + 1] == '=') ==>
            st.next == cur + 1 && st.token.value.kind == OneCharKind(src[cur]))
  {
  }

  /** The characters that begin a lexeme, whitespace, a comment or a string. */
  predicate Expected(c: char) {
    || c in {'(', ')', '{', '}', ',', '.', '-', '+', ';', '*', '!', '=', '<', '>', '/'}
    || c in {' ', '\r', '\t', '\n', '"'}
    || IsDigit(c) || IsAlpha(c)
  }

  /** A step reports "Unexpected character." exactly for the characters that
      start nothing; such a character is consumed and produces no token. */
  lemma UnexpectedCharacterReported(src: string, cur: nat, line: int)
    requires cur < |src|
    ensures var st := Step(src, cur, line);
      && (st.error == Some((line, UnexpectedCharacter)) <==> !Expected(src[cur]))
      && (!Expected(src[cur]) ==> st.next == cur + 1 && st.token.None? && st.line == line)
  {
  }

  // ---------------------------------------------------------------------
  // string(): escapes and termination

  lemma EscapeDoesNotStartWithQuote(t: string)
    ensures Escape(t) == [] || Escape(t)[0] != '"'
  {
  }

  /** Unescape undoes Escape for every text. */
  lemma {:induction false} UnescapeEscape(t: string)
    ensures Unescape(Escape(t)) == t
  {
    if t != [] {
      var s := Escape(t);
      var tail := Escape(t[1..]);
      UnescapeEscape(t[1..]);
      if t[0] == '"' {
        assert s == "\\\"" + tail;
        assert s[2..] == tail;
      } else {
        assert s == [t[0]] + tail;
        assert s[1..] == tail;
        if t[0] == '\\' {
          EscapeDoesNotStartWithQuote(t[1..]);
        }
      }
    }
  }

  lemma {:induction false} EscapeNewlines(t: string)
    ensures NewlineCount(Escape(t)) == NewlineCount(t)
  {
    if t != [] {
      EscapeNewlines(t[1..]);
      var first := if t[0] == '"' then "\\\"" else [t[0]];
      NewlineCountAppend(first, Escape(t[1..]));
      NewlineCountAppend([t[0]], t[1..]);
      assert t == [t[0]] + t[1..];
      if t[0] == '"' {
        NoNewlineCount(first);
        NoNewlineCount([t[0]]);
      }
    }
  }

  /** The loop of string() stops at the first quote that is not the second
      half of a \" pair: every quote it passes directly follows a backslash,
      and the quote it stops at (if any) does not. */
  lemma {:induction false} StringEndIsFirstUnpairedQuote(s: string, i: nat)
    requires i <= |s|
    ensures forall k :: i <= k < StringEnd(s, i) && s[k] == '"' ==> i < k && s[k - 1] == '\\'
    ensures StringEnd(s, i) < |s| ==> StringEnd(s, i) == i || s[StringEnd(s, i) - 1] != '\\'
    decreases |s| - i
  {
    if i == |s| || s[i] == '"' {
    } else if s[i] == '\\' && At(s, i + 1) == '"' {
      StringEndIsFirstUnpairedQuote(s, i + 2);
    } else {
      StringEndIsFirstUnpairedQuote(s, i + 1);
    }
  }

  /** One turn of the loop of string() at c: it steps over a \" pair or one
      character, and counts the newline it passes; where the loop will stop
      and the line count from c0 stay as the scan from c0 says. */
  lemma StringLoopStep(s: string, c0: nat, c: nat, n: nat, l0: int, l: int, l': int)
    requires c0 <= c < |s| && s[c] != '"'
    requires n == if s[c] == '\\' && At(s, c + 1) == '"' then c + 2 else c + 1
    requires l == l0 + NewlineCount(s[c0..c])
    requires l' == if s[c] == '\n' then l + 1 else l
    ensures n <= |s| && StringEnd(s, n) == StringEnd(s, c)
    ensures l' == l0 + NewlineCount(s[c0..n])
  {
    NewlineCountExtend(s, c0, c);
    if n == c + 2 {
      NewlineCountExtend(s, c0, c + 1);
    }
  }

  /** What string() does when its loop has run to the end of input e with
      the line at l: it reports the error and emits nothing. */
  lemma UnterminatedStringIs(src: string, cur: nat, line: int, e: nat, l: int)
    requires cur < |src| && e == StringEnd(src, cur + 1) && e == |src|
    requires l == line + NewlineCount(src[cur + 1..e])
    ensures StringStep(src, cur, line).next == e && StringStep(src, cur, line).line == l
    ensures Elements(StringStep(src, cur, line).token) == []
    ensures Elements(StringStep(src, cur, line).error) == [(l, UnterminatedString)]
  {
  }

  /** What string() does when its loop has stopped at the closing quote e
      with the line at l: it takes the quote and emits the unescaped text
      between the quotes. */
  lemma TerminatedStringIs(src: string, cur: nat, line: int, e: nat, l: int)
    requires cur < |src| && e == StringEnd(src, cur + 1) && e < |src|
    requires l == line + NewlineCount(src[cur + 1..e])
    ensures StringStep(src, cur, line).next == e + 1 && StringStep(src, cur, line).line == l
    ensures Elements(StringStep(src, cur, line).token) ==
      [Token(String, src[cur..e + 1], StringValue(Unescape(src[cur + 1..e])), l)]
    ensures Elements(StringStep(src, cur, line).error) == []
  {
  }

  /** The loop of string() run over an escaped text that does not end in a
      backslash stops at the quote right after it. */
  lemma {:induction false} StringEndOfEscaped(s: string, i: nat, t: string)
    requires i + |Escape(t)| < |s|
    requires s[i..i + |Escape(t)|] == Escape(t) && s[i + |Escape(t)|] == '"'
    requires t == [] || t[|t| - 1] != '\\'
    ensures StringEnd(s, i) == i + |Escape(t)|
    decreases |t|
  {
    if t != [] {
      var tail := Escape(t[1..]);
      var n := |Escape(t)|;
      if t[0] == '"' {
        assert Escape(t) == "\\\"" + tail;
        assert s[i] == '\\' && s[i + 1] == '"';
        assert s[i + 2..i + 2 + |tail|] == s[i..i + n][2..];
        StringEndOfEscaped(s, i + 2, t[1..]);
      } else {
        assert Escape(t) == [t[0]] + tail;
        assert s[i] == t[0];
        assert s[i + 1..i + 1 + |tail|] == s[i..i + n][1..];
        if t[0] == '\\' {
          EscapeDoesNotStartWithQuote(t[1..]);
          assert t[1..] != [];
          assert s[i + 1] == tail[0];
        }
        StringEndOfEscaped(s, i + 1, t[1..]);
      }
    }
  }

  /** The text t written as a Lox string literal: in quotes, with '"' escaped. */
  function Quoted(t: string): string {
    "\"" + Escape(t) + "\""
  }

  /** The step on a quoted text emits the whole literal with t as its value. */
  lemma QuotedStep(t: string)
    requires t == [] || t[|t| - 1] != '\\'
    ensures Step(Quoted(t), 0, 1) == StepResult(|Quoted(t)|, 1 + NewlineCount(t),
      Some(Token(String, Quoted(t), StringValue(t), 1 + NewlineCount(t))), None)
  {
    var src := Quoted(t);
    var n := |Escape(t)|;
    assert src[1..1 + n] == Escape(t);
    StringEndOfEscaped(src, 1, t);
    UnescapeEscape(t);
    EscapeNewlines(t);
    assert src[0..n + 2] == src;
    QuoteStep(src, 0, 1);
  }

  /** Scanning the text t written as a Lox string literal (quotes escaped)
      gives back t as the literal, unless t ends in a backslash; the token and
      Eof carry the line l reached after the newlines of t. */
  lemma StringLiteralRoundTrip(t: string, src: string, l: int)
    requires t == [] || t[|t| - 1] != '\\'
    requires src == Quoted(t) && l == 1 + NewlineCount(t)
    ensures ScanSource(src) == Scan([Token(String, src, StringValue(t), l), Token(Eof, "", NoValue, l)], [])
  {
    QuotedStep(t);
    ScanOneToken(src, Token(String, src, StringValue(t), l));
  }

  /** The step on a string whose closing quote never comes (the loop of
      string() runs to the end of input, escaped quotes included) consumes
      the rest of the input and reports the error at the line reached there. */
  lemma UnterminatedStep(src: string, cur: nat, line: int, l: int)
    requires cur < |src| && src[cur] == '"'
    requires StringEnd(src, cur + 1) == |src| && l == line + NewlineCount(src[cur + 1..])
    ensures Step(src, cur, line) == StepResult(|src|, l, None, Some((l, UnterminatedString)))
  {
    assert src[cur + 1..|src|] == src[cur + 1..];
    QuoteStep(src, cur, line);
    UnterminatedStringIs(src, cur, line, |src|, l);
    var st := StringStep(src, cur, line);
    assert st.token == None by { assert Elements(st.token) == []; }
    assert st.error == Some((l, UnterminatedString)) by { assert Elements(st.error) == [(l, UnterminatedString)]; }
  }

  /** A string whose closing quote never comes reports one error, at the line
      reached at the end of input, and emits no token. */
  lemma UnterminatedStringReported(src: string, cur: nat, line: int, l: int)
    requires cur < |src| && src[cur] == '"'
    requires StringEnd(src, cur + 1) == |src| && l == line + NewlineCount(src[cur + 1..])
    ensures ScanFrom(src, cur, line) == Scan([Token(Eof, "", NoValue, l)], [(l, UnterminatedString)])
  {
    UnterminatedStep(src, cur, line, l);
    ScanLastStep(src, cur, line, StepResult(|src|, l, None, Some((l, UnterminatedString))));
  }

  /** In particular a quote with no quote after it is unterminated. */
  lemma {:induction false} NoQuoteRunsToEnd(src: string, i: nat)
    requires i <= |src| && forall k :: i <= k < |src| ==> src[k] != '"'
    ensures StringEnd(src, i) == |src|
    decreases |src| - i
  {
    if i < |src| {
      NoQuoteRunsToEnd(src, i + 1);
    }
  }
}
