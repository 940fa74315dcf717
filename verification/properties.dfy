/**
  What the KVN line lexers promise, stated over the grammar of module
  KvnLayout: every lexer is run on the text `Render(l)` of a line `l` of its
  grammar, and its answer is given in terms of the spans of `l`.
*/
module KvnProperties {
  import opened Results
  import opened Text
  import opened KvnLayout
  import opened KvnGrammar
  import opened KvnErrors
  import opened KvnLexers

  // ---------------------------------------------------------------------------
  // The keyword matcher (parser.rs:123-142)

  /** After its leading white space a line starts with its keyword, then
      the white space before the `=`: the runs the head patterns take. */
  lemma HeadRuns(l: Line, k: CharClass)
    requires KeywordClass(k) && AllSpace(l.lead) && All(l.keyword, k) && AllSpace(l.gap1)
    requires l.keyword == [] ==> l.gap1 == []
    ensures TrimStart(Render(l)) == l.keyword + (l.gap1 + (['='] + HeadOf(l).rest))
    ensures SplitRun(TrimStart(Render(l)), k) == (l.keyword, l.gap1 + (['='] + HeadOf(l).rest))
    ensures TrimStart(l.gap1 + (['='] + HeadOf(l).rest)) == ['='] + HeadOf(l).rest
  {
    var z := ['='] + HeadOf(l).rest;
    var y := l.gap1 + z;
    var x := l.keyword + y;
    assert Render(l) == l.lead + x;
    assert y[0] == (if l.gap1 != [] then l.gap1[0] else '=');
    assert x[0] == (if l.keyword != [] then l.keyword[0] else y[0]);
    TrimStartOf(l.lead, x);
    SplitRunOf(l.keyword, y, k);
    TrimStartOf(l.gap1, z);
  }

  /** On a line of any lexer's grammar whose keyword is upper case, the
      matcher finds exactly that keyword: it answers true for it and false
      for every other key. */
  lemma MatcherSeesLineKeyword(l: Line, k: CharClass, key: string)
    requires KeywordClass(k) && HeadOk(l, k) && All(l.keyword, UpperKeyword)
    ensures KvnLineMatchesKey(key, Render(l)) == Ok(key == l.keyword)
  {
    HeadRuns(l, UpperKeyword);
    KeywordTrimEnd(l.keyword, UpperKeyword);
  }

  // ---------------------------------------------------------------------------
  // The COMMENT rule (parser.rs:147-156)

  /** A blank prefix of `trim_start` input does not change its result when it
      starts with a single space. */
  lemma TrimStartSpace(t: string)
    ensures TrimStart([' '] + t) == TrimStart(t)
  {
    assert ([' '] + t)[1..] == t;
  }

  /** Leading white space before `COMMENT` is what `trim_start` removes. */
  lemma CommentTrimStart(w: string, t: string)
    requires AllSpace(w)
    ensures TrimStart(w + (COMMENT + (" " + t))) == COMMENT + (" " + t)
  {
    var x := COMMENT + (" " + t);
    assert x[0] == 'C';
    TrimStartOf(w, x);
  }

  /** `trim_start_matches("COMMENT")` removes one `COMMENT`, since a space follows it. */
  lemma CommentStrip(t: string)
    ensures StartsWith(COMMENT + (" " + t), COMMENT + " ")
    ensures TrimStartMatches(COMMENT + (" " + t), COMMENT) == [' '] + t
  {
    var x := COMMENT + (" " + t);
    assert x[..|COMMENT + " "|] == COMMENT + " ";
    assert x[..|COMMENT|] == COMMENT;
    assert x[|COMMENT|..] == [' '] + t;
    assert !StartsWith([' '] + t, COMMENT) by {
      assert ([' '] + t)[0] != COMMENT[0];
    }
  }

  /** A line that reads `COMMENT ` after its leading white space is a
      comment: exactly one `COMMENT` is removed, then the white space after
      it; the rest of the line, trailing white space included, is the
      value, which may be empty. */
  lemma CommentLineValue(w: string, t: string)
    requires AllSpace(w)
    ensures ParseStringLine(w + (COMMENT + (" " + t))) == Ok(KvnValue(TrimStart(t), None))
  {
    CommentTrimStart(w, t);
    CommentStrip(t);
    TrimStartSpace(t);
  }

  // ---------------------------------------------------------------------------
  // The empty-value pre-check comes first (parser.rs:158-160, 206-208, 259-261, 301-303)

  /** Every lexer answers `EmptyValue` on a line of the empty-value grammar,
      whatever its keyword, even an empty one; the string lexer only
      after its `COMMENT` rule. */
  lemma EmptyValueComesFirst(l: Line, withUnit: bool, target: IntTarget)
    requires EmptyValueLineOk(l)
    ensures !IsCommentLine(Render(l)) ==>
      ParseStringLine(Render(l)) == Err(KvnStringParserErr.EmptyValue(Render(l)))
    ensures ParseIntegerLine(Render(l), withUnit, target) == Err(KvnNumberParserErr.EmptyValue(Render(l)))
    ensures ParseNumericLine(Render(l), withUnit) == Err(KvnNumberParserErr.EmptyValue(Render(l)))
    ensures ParseDateTimeLine(Render(l)) == Err(KvnDateTimeParserErr.EmptyValue(Render(l)))
  {
    MatchEmptyValueOf(l);
  }

  // ---------------------------------------------------------------------------
  // The string lexer (parser.rs:164-196)

  /** An `=` follows the leading white space, the run of `[0-9A-Z_]` and
      the white space after it. */
  predicate EqualsAfterKeyword(input: string) {
    var (keyword, rest) := SplitRun(TrimStart(input), UpperKeyword);
    var r := TrimStart(rest);
    r != [] && r[0] == '='
  }

  /** A line that is no comment, has a value, and has no `=` right after its
      upper-case keyword is rejected as malformed: a lower-case keyword, or
      no `=` at all. */
  lemma StringLineNeedsEquals(input: string)
    requires !IsCommentLine(input) && !IsEmptyValue(input)
    requires !EqualsAfterKeyword(input)
    ensures ParseStringLine(input) == Err(KvnStringParserErr.InvalidFormat(input))
  {
    if IsStringLine(input) {
      var l :| StringLineOk(l) && Render(l) == input;
      HeadRuns(l, UpperKeyword);
      assert false;
    }
  }

  /** Trailing white space after a text that does not end in white space is
      what `trim_end` drops, even when more white space follows. */
  lemma TrimEndValue(value: string, trail: string)
    requires AllSpace(trail)
    ensures TrimEnd(value + trail) == TrimEnd(value)
  {
    var a := TrimEnd(value);
    var sp := value[|a|..];
    assert value == a + sp;
    Assoc(a, sp, trail);
    AllAppend(sp, trail, Space);
    TrimEndOf(a, sp + trail);
  }

  /** On a line of the string grammar the lexer answers `EmptyKeyword` when
      the keyword is empty, and otherwise the text after the `=` with its
      white space trimmed at both ends, which is never empty. */
  lemma StringLineRoundTrip(l: Line)
    requires StringLineOk(l)
    requires !IsCommentLine(Render(l)) && !IsEmptyValue(Render(l))
    ensures ParseStringLine(Render(l)) ==
      if l.keyword == [] then Err(KvnStringParserErr.EmptyKeyword(Render(l)))
      else Ok(KvnValue(Trim(l.gap2 + (l.value + l.trail)), None))
    ensures l.keyword != [] ==> Trim(l.gap2 + (l.value + l.trail)) != []
  {
    MatchStringLineOf(l);
    KeywordTrimEnd(l.keyword, UpperKeyword);
    TrimStartOf(l.gap2, l.value + l.trail);
    TrimEndValue(l.value, l.trail);
    if l.keyword != [] {
      var r := ParseStringLine(Render(l));
      assert r.Ok?;
    }
  }

  // ---------------------------------------------------------------------------
  // The integer lexer (parser.rs:210-243)

  /** `from_str` accepts a numeral when it has no fraction, its sign is one
      the type takes, and its value is in range. */
  predicate IntAccepts(n: Numeral, target: IntTarget)
    requires All(n.digits, Digit)
  {
    && n.fraction.None?
    && (n.sign == Some('-') ==> target.lo < 0)
    && target.lo <= NumeralValue(n) <= target.hi
  }

  /** `from_str` reads an integer numeral as the integer it denotes, and
      rejects a fraction, a `-` for an unsigned type and a value out of range. */
  lemma IntFromStrOfNumeral(n: Numeral, target: IntTarget)
    requires NumeralOk(n, false)
    ensures IntFromStr(NumeralText(n), target) ==
      if IntAccepts(n, target) then Some(NumeralValue(n)) else None
  {
    var f := FractionText(n.fraction);
    var body := n.digits + f;
    var text := NumeralText(n);
    assert text == SignText(n.sign) + body;
    assert body[0] == n.digits[0];
    AllAppend(n.digits, f, Digit);
    assert All(body, Digit) <==> n.fraction.None? by {
      if n.fraction.Some? {
        assert f[0] == '.';
      }
    }
    if n.sign.Some? {
      assert text[0] == n.sign.value && text[1..] == body;
    } else {
      assert text == body;
    }
    if n.fraction.None? {
      assert body == n.digits;
    }
  }

  /** A run of zeros is a run of digits of value zero. */
  lemma {:induction false} DecimalValueZeros(zeros: string)
    requires forall i | 0 <= i < |zeros| :: zeros[i] == '0'
    ensures All(zeros, Digit) && DecimalValue(zeros) == 0
  {
    if zeros != [] {
      var init := zeros[..|zeros| - 1];
      DecimalValueZeros(init);
      assert zeros == init + ['0'];
      AllAppend(init, ['0'], Digit);
    }
  }

  /** Leading zeros do not change a decimal value. */
  lemma {:induction false} DecimalValueLeadingZeros(zeros: string, ds: string)
    requires forall i | 0 <= i < |zeros| :: zeros[i] == '0'
    requires All(ds, Digit)
    ensures All(zeros + ds, Digit)
    ensures DecimalValue(zeros + ds) == DecimalValue(ds)
  {
    if ds == [] {
      assert zeros + ds == zeros;
      DecimalValueZeros(zeros);
    } else {
      var init := ds[..|ds| - 1];
      var last := ds[|ds| - 1];
      AllInit(ds, Digit);
      DecimalValueLeadingZeros(zeros, init);
      var s := zeros + ds;
      assert s == (zeros + init) + [last];
      assert s[..|s| - 1] == zeros + init;
      AllAppend(zeros + init, [last], Digit);
    }
  }

  /** On a line of an integer grammar the lexer answers `EmptyKeyword` when
      the keyword is empty; otherwise the value the numeral denotes, with the
      unit written after it, when the target type accepts it, and
      `InvalidFormat` when it does not. */
  lemma IntegerLineRoundTrip(l: Line, n: Numeral, withUnit: bool, target: IntTarget)
    requires NumberLineOk(l, n, withUnit, false)
    ensures ParseIntegerLine(Render(l), withUnit, target) ==
      if l.keyword == [] then Err(KvnNumberParserErr.EmptyKeyword(Render(l)))
      else if IntAccepts(n, target) then Ok(KvnValue(NumeralValue(n), UnitOf(l)))
      else Err(KvnNumberParserErr.InvalidFormat(Render(l)))
  {
    NumberLineIsNotEmptyValue(l, n, withUnit, false);
    MatchNumberLineOf(l, n, withUnit, false);
    KeywordTrimEnd(l.keyword, Keyword);
    IntFromStrOfNumeral(n, target);
  }

  /** The number grammar with units admits every line of the one without. */
  lemma NumberLineWithUnit(l: Line, n: Numeral, withExponent: bool)
    requires NumberLineOk(l, n, false, withExponent)
    ensures NumberLineOk(l, n, true, withExponent) && l.unit.None?
  {
  }

  /** A line with a unit clause is no line of the pattern without units. */
  lemma BracketNeedsUnits(l: Line, n: Numeral, withExponent: bool)
    requires NumberLineOk(l, n, true, withExponent) && l.unit.Some?
    ensures !IsNumberLine(Render(l), false, withExponent)
  {
    if IsNumberLine(Render(l), false, withExponent) {
      var l2, n2 :| NumberLineOk(l2, n2, false, withExponent) && Render(l2) == Render(l);
      NumberLineWithUnit(l2, n2, withExponent);
      MatchNumberLineOf(l2, n2, true, withExponent);
      MatchNumberLineOf(l, n, true, withExponent);
      assert false;
    }
  }

  /** With units disabled, the integer and floating-point lexers reject a
      line that has a unit clause after its value. */
  lemma WithoutUnitsBracketIsInvalid(l: Line, n: Numeral, withExponent: bool, target: IntTarget)
    requires NumberLineOk(l, n, true, withExponent) && l.unit.Some?
    ensures !withExponent ==>
      ParseIntegerLine(Render(l), false, target) == Err(KvnNumberParserErr.InvalidFormat(Render(l)))
    ensures withExponent ==>
      ParseNumericLine(Render(l), false) == Err(KvnNumberParserErr.InvalidFormat(Render(l)))
  {
    NumberLineIsNotEmptyValue(l, n, true, withExponent);
    BracketNeedsUnits(l, n, withExponent);
  }

  // ---------------------------------------------------------------------------
  // The floating-point lexer (parser.rs:263-295)

  /** On a line of a floating-point grammar the lexer answers `EmptyKeyword`
      when the keyword is empty, and otherwise the numeral with the unit
      written after it. */
  lemma NumericLineRoundTrip(l: Line, n: Numeral, withUnit: bool)
    requires NumberLineOk(l, n, withUnit, true)
    ensures ParseNumericLine(Render(l), withUnit) ==
      if l.keyword == [] then Err(KvnNumberParserErr.EmptyKeyword(Render(l)))
      else Ok(KvnValue(n, UnitOf(l)))
  {
    NumberLineIsNotEmptyValue(l, n, withUnit, true);
    MatchNumberLineOf(l, n, withUnit, true);
    KeywordTrimEnd(l.keyword, Keyword);
  }

  // ---------------------------------------------------------------------------
  // The date-time lexer (parser.rs:305-376)

  /** On a line of the date-time grammar the corrected lexer answers
      `EmptyKeyword` when the keyword is empty, `InvalidFormat` when the
      seconds field has no digit, and otherwise the fields of the date, each
      the decimal value of its digits, with the matched date text as the
      full value. */
  lemma DateTimeLineRoundTrip(l: Line, d: DateFields)
    requires DateTimeLineOk(l, d)
    ensures ParseDateTimeLine(Render(l)) ==
      if l.keyword == [] then Err(KvnDateTimeParserErr.EmptyKeyword(Render(l)))
      else if !SecondsParse(d) then Err(KvnDateTimeParserErr.InvalidFormat(Render(l)))
      else Ok(DateTimeValueOf(d))
    ensures DateTimeValueOf(d).fullValue == l.value
  {
    DateTimeLineIsNotEmptyValue(l, d);
    MatchDateTimeLineOf(l, d);
    KeywordTrimEnd(l.keyword, UpperKeyword);
  }

  /** Where the lexer as written does not panic it returns what the corrected
      lexer returns; where it panics the corrected lexer reports a format error. */
  lemma DateTimeCorrectionAgrees(input: string)
    ensures ParseDateTimeLineAsWritten(input).Returned? ==>
      ParseDateTimeLineAsWritten(input).result == ParseDateTimeLine(input)
    ensures ParseDateTimeLineAsWritten(input).Panicked? ==>
      ParseDateTimeLine(input) == Err(KvnDateTimeParserErr.InvalidFormat(input))
  {
  }

  /** The lexer as written panics on every date-time line with a keyword
      whose seconds field has no digit: `ss` empty, or `ss` empty and a lone `.`. */
  lemma DateTimeAsWrittenPanics(l: Line, d: DateFields)
    requires DateTimeLineOk(l, d) && l.keyword != [] && !SecondsParse(d)
    ensures ParseDateTimeLineAsWritten(Render(l)).Panicked?
  {
    DateTimeLineIsNotEmptyValue(l, d);
    MatchDateTimeLineOf(l, d);
    KeywordTrimEnd(l.keyword, UpperKeyword);
  }
}
