/**
  The KVN line lexers of parser.rs: the keyword matcher, the string,
  integer, floating-point and date-time lexers, and the empty-value
  pre-check they share. Each lexer runs its checks in the order of the
  source: the `COMMENT` rule (string lexer only), the empty-value pattern,
  the lexer's own pattern, the empty keyword, and last the conversion of
  the value.
*/
module KvnLexers {
  import opened Results
  import opened Text
  import opened KvnLayout
  import opened KvnGrammar
  import opened KvnErrors

  /** A lexed value and the unit written after it, if any (parser.rs:104-108). */
  datatype KvnValue<V> = KvnValue(value: V, unit: Option<string>)

  /** A lexed date (parser.rs:110-120). The seconds field is kept as its
      integer part and the digits of its fraction. */
  datatype KvnDateTimeValue = KvnDateTimeValue(
    year: nat,
    month: nat,
    day: nat,
    hour: nat,
    minute: nat,
    second: nat,
    fractionDigits: string,
    fullValue: string)

  /** A keyword in both keyword classes has no white space to trim. */
  lemma KeywordTrimEnd(keyword: string, k: CharClass)
    requires KeywordClass(k) && All(keyword, k)
    ensures TrimEnd(keyword) == keyword
  {
    if keyword != [] {
      AllInit(keyword, k);
    }
    TrimEndOf(keyword, []);
    assert keyword + [] == keyword;
  }

  // ---------------------------------------------------------------------------
  // kvn_line_matches_key_new (parser.rs:123-142)

  /** The `[0-9A-Z_]` run that starts the line after its leading white space
      is exactly `key`. */
  predicate LeadingKeywordIs(input: string, key: string) {
    var t := TrimStart(input);
    && All(key, UpperKeyword)
    && StartsWith(t, key)
    && (|key| == |t| || !In(t[|key|], UpperKeyword))
  }

  /** The pattern `^\s*(?<keyword>[0-9A-Z_]*)\s*` matches every line, so the
      matcher never fails; it reports whether the keyword it captures is `key`. */
  function KvnLineMatchesKey(key: string, input: string): (r: Result<bool, KvnKeywordNotFoundErr>)
    ensures r.Ok?
    ensures r.value <==> LeadingKeywordIs(input, key)
  {
    var (keyword, rest) := SplitRun(TrimStart(input), UpperKeyword);
    KeywordTrimEnd(keyword, UpperKeyword);
    assert LeadingKeywordIs(input, key) <==> key == keyword by {
      var t := TrimStart(input);
      if LeadingKeywordIs(input, key) {
        assert t == key + t[|key|..];
        SplitRunOf(key, t[|key|..], UpperKeyword);
      }
      if key == keyword {
        assert t[..|key|] == key;
      }
    }
    Ok(TrimEnd(keyword) == key)
  }

  // ---------------------------------------------------------------------------
  // is_empty_value (parser.rs:246-253)

  /** The empty-value pattern: a keyword, `=`, and then nothing but white
      space or a bare unit clause. */
  function IsEmptyValue(input: string): (r: bool)
    ensures r <==> IsEmptyValueLine(input)
  {
    MatchEmptyValueIff(input);
    MatchEmptyValue(input).Some?
  }

  // ---------------------------------------------------------------------------
  // parse_kvn_string_line_new (parser.rs:144-197)

  const COMMENT: string := "COMMENT"

  /** The line, once its leading white space is trimmed, starts with `COMMENT `. */
  predicate IsCommentLine(input: string) {
    StartsWith(TrimStart(input), COMMENT + " ")
  }

  function ParseStringLine(input: string): (r: Result<KvnValue<string>, KvnStringParserErr>)
    ensures IsCommentLine(input) ==> r.Ok? && r.value.unit.None?
    ensures !IsCommentLine(input) && IsEmptyValue(input) ==> r == Err(KvnStringParserErr.EmptyValue(input))
    ensures !IsCommentLine(input) && !IsEmptyValue(input) && !IsStringLine(input)
      ==> r == Err(KvnStringParserErr.InvalidFormat(input))
    ensures r.Err? ==> r.error.input == input
    ensures r.Err? && r.error.InvalidFormat? ==> !IsStringLine(input)
    // the value's own emptiness test (parser.rs:192-194) never fires
    ensures r.Err? && r.error.EmptyValue? ==> IsEmptyValue(input)
    ensures r.Ok? && !IsCommentLine(input) ==>
      && r.value.unit.None?
      && r.value.value != []
      && !IsSpace(r.value.value[0])
      && !IsSpace(r.value.value[|r.value.value| - 1])
  {
    if IsCommentLine(input) then
      Ok(KvnValue(TrimStart(TrimStartMatches(TrimStart(input), COMMENT)), None))
    else if IsEmptyValue(input) then
      Err(KvnStringParserErr.EmptyValue(input))
    else
      MatchStringLineIff(input);
      match MatchStringLine(input)
      case None => Err(KvnStringParserErr.InvalidFormat(input))
      case Some(l) =>
        KeywordTrimEnd(l.keyword, UpperKeyword);
        var keyword := TrimEnd(l.keyword);
        if keyword == [] then
          Err(KvnStringParserErr.EmptyKeyword(input))
        else
          var value := TrimEnd(l.value);
          if value == [] then
            assert l.value == [] by {
              assert l.value == l.value[|value|..];
            }
            EmptyStringLineIsEmptyValue(l);
            Err(KvnStringParserErr.EmptyValue(input))
          else
            Ok(KvnValue(value, None))
  }

  // ---------------------------------------------------------------------------
  // parse_kvn_integer_line_new (parser.rs:199-244)

  /** A primitive integer type by its range; it is signed exactly when it
      has negative values. */
  datatype IntTarget = IntTarget(lo: int, hi: int)

  /** `from_str` of a primitive integer type: an optional `+`, or a `-` for a
      signed type, then decimal digits only, and a value within range. */
  function IntFromStr(text: string, target: IntTarget): (r: Option<int>)
    ensures r.Some? ==> target.lo <= r.value <= target.hi
  {
    if text == [] || ((text[0] == '+' || text[0] == '-') && |text| == 1) then
      None
    else
      var (negative, digits) :=
        if text[0] == '+' then (false, text[1..])
        else if text[0] == '-' && target.lo < 0 then (true, text[1..])
        else (false, text);
      if !All(digits, Digit) then
        None
      else
        var v: int := if negative then -(DecimalValue(digits) as int) else DecimalValue(digits);
        if target.lo <= v <= target.hi then Some(v) else None
  }

  /** The integer a numeral without fraction denotes. */
  function NumeralValue(n: Numeral): int
    requires All(n.digits, Digit)
  {
    if n.sign == Some('-') then -(DecimalValue(n.digits) as int) else DecimalValue(n.digits)
  }

  function ParseIntegerLine(input: string, withUnit: bool, target: IntTarget): (r: Result<KvnValue<int>, KvnNumberParserErr>)
    ensures IsEmptyValue(input) ==> r == Err(KvnNumberParserErr.EmptyValue(input))
    ensures !IsEmptyValue(input) && !IsNumberLine(input, withUnit, false)
      ==> r == Err(KvnNumberParserErr.InvalidFormat(input))
    ensures r.Err? ==> r.error.input == input
    ensures r.Err? && r.error.EmptyValue? ==> IsEmptyValue(input)
    ensures r.Err? && r.error.EmptyKeyword? ==> IsNumberLine(input, withUnit, false)
    ensures r.Ok? ==> target.lo <= r.value.value <= target.hi
    ensures r.Ok? && !withUnit ==> r.value.unit.None?
  {
    if IsEmptyValue(input) then
      Err(KvnNumberParserErr.EmptyValue(input))
    else
      MatchNumberLineIff(input, withUnit, false);
      match MatchNumberLine(input, withUnit, false)
      case None => Err(KvnNumberParserErr.InvalidFormat(input))
      case Some(m) =>
        if TrimEnd(m.line.keyword) == [] then
          Err(KvnNumberParserErr.EmptyKeyword(input))
        else
          match IntFromStr(m.line.value, target)
          case None => Err(KvnNumberParserErr.InvalidFormat(input))
          case Some(v) => Ok(KvnValue(v, UnitOf(m.line)))
  }

  // ---------------------------------------------------------------------------
  // parse_kvn_numeric_line_new (parser.rs:255-296)

  /** The floating-point lexer; the value is the numeral the pattern
      captured, before its conversion to a double. */
  function ParseNumericLine(input: string, withUnit: bool): (r: Result<KvnValue<Numeral>, KvnNumberParserErr>)
    ensures IsEmptyValue(input) ==> r == Err(KvnNumberParserErr.EmptyValue(input))
    ensures !IsEmptyValue(input) && !IsNumberLine(input, withUnit, true)
      ==> r == Err(KvnNumberParserErr.InvalidFormat(input))
    ensures r.Err? ==> r.error.input == input
    ensures r.Err? && r.error.EmptyValue? ==> IsEmptyValue(input)
    ensures r.Err? && r.error.InvalidFormat? ==> !IsNumberLine(input, withUnit, true)
    ensures r.Ok? ==> NumeralOk(r.value.value, true)
    ensures r.Ok? && !withUnit ==> r.value.unit.None?
  {
    if IsEmptyValue(input) then
      Err(KvnNumberParserErr.EmptyValue(input))
    else
      MatchNumberLineIff(input, withUnit, true);
      match MatchNumberLine(input, withUnit, true)
      case None => Err(KvnNumberParserErr.InvalidFormat(input))
      case Some(m) =>
        if TrimEnd(m.line.keyword) == [] then
          Err(KvnNumberParserErr.EmptyKeyword(input))
        else
          Ok(KvnValue(m.numeral, UnitOf(m.line)))
  }

  // ---------------------------------------------------------------------------
  // parse_kvn_datetime_line_new (parser.rs:298-377)

  /** `parse::<f64>` of the seconds capture `ss[.f]` succeeds: a text of
      digits and at most one point reads as a number unless it is empty or
      the point alone. */
  function SecondsParse(d: DateFields): (ok: bool)
    requires All(d.seconds, Digit)
    ensures ok <==> (var text := d.seconds + FractionText(d.fraction); text != [] && text != ['.'])
  {
    var text := d.seconds + FractionText(d.fraction);
    assert d.seconds != [] ==> text[0] == d.seconds[0] && In(d.seconds[0], Digit);
    assert d.seconds == [] ==> text == FractionText(d.fraction);
    d.seconds != [] || (d.fraction.Some? && d.fraction.value != [])
  }

  /** Ten to the power `k`: one more than the largest value of `k` digits. */
  function Pow10(k: nat): (p: nat)
    ensures p >= 1
  {
    if k == 0 then 1 else 10 * Pow10(k - 1)
  }

  lemma {:induction false} DecimalValueBound(ds: string)
    requires All(ds, Digit)
    ensures DecimalValue(ds) < Pow10(|ds|)
  {
    if ds != [] {
      AllInit(ds, Digit);
      DecimalValueBound(ds[..|ds| - 1]);
    }
  }

  /** The fields of a matched date, each the decimal value of its digits.
      Four digits fit the `u16` year and two digits each `u8` field, so the
      conversions at parser.rs:329-352 never fail. */
  function DateTimeValueOf(d: DateFields): (v: KvnDateTimeValue)
    requires DateOk(d)
    ensures v.year < 10000 && v.month < 100 && v.day < 100
    ensures v.hour < 100 && v.minute < 100 && v.second < 100
    ensures v.year == DecimalValue(d.year) && v.month == DecimalValue(d.month)
    ensures v.day == DecimalValue(d.day) && v.hour == DecimalValue(d.hour)
    ensures v.minute == DecimalValue(d.minute) && v.second == DecimalValue(d.seconds)
  {
    DecimalValueBound(d.year);
    DecimalValueBound(d.month);
    DecimalValueBound(d.day);
    DecimalValueBound(d.hour);
    DecimalValueBound(d.minute);
    DecimalValueBound(d.seconds);
    KvnDateTimeValue(
      DecimalValue(d.year),
      DecimalValue(d.month),
      DecimalValue(d.day),
      DecimalValue(d.hour),
      DecimalValue(d.minute),
      DecimalValue(d.seconds),
      if d.fraction.Some? then d.fraction.value else [],
      DateText(d))
  }

  /** What a call does: return a result, or panic. */
  datatype Outcome<T> = Returned(result: T) | Panicked

  /** The date-time lexer as written: the `unwrap` of the seconds
      conversion (parser.rs:354-359) panics when the seconds capture is
      empty or a lone `.`. */
  function ParseDateTimeLineAsWritten(input: string): (r: Outcome<Result<KvnDateTimeValue, KvnDateTimeParserErr>>)
    ensures IsEmptyValue(input) ==> r == Returned(Err(KvnDateTimeParserErr.EmptyValue(input)))
    ensures r.Panicked? ==> IsDateTimeLine(input)
  {
    if IsEmptyValue(input) then
      Returned(Err(KvnDateTimeParserErr.EmptyValue(input)))
    else
      MatchDateTimeLineIff(input);
      match MatchDateTimeLine(input)
      case None => Returned(Err(KvnDateTimeParserErr.InvalidFormat(input)))
      case Some(m) =>
        if TrimEnd(m.line.keyword) == [] then
          Returned(Err(KvnDateTimeParserErr.EmptyKeyword(input)))
        else if !SecondsParse(m.date) then
          Panicked
        else
          Returned(Ok(DateTimeValueOf(m.date)))
  }

  /** The date-time lexer with a seconds field that does not convert
      reported as a format error. */
  function ParseDateTimeLine(input: string): (r: Result<KvnDateTimeValue, KvnDateTimeParserErr>)
    ensures IsEmptyValue(input) ==> r == Err(KvnDateTimeParserErr.EmptyValue(input))
    ensures !IsEmptyValue(input) && !IsDateTimeLine(input)
      ==> r == Err(KvnDateTimeParserErr.InvalidFormat(input))
    ensures r.Err? ==> r.error.input == input
    ensures r.Err? && r.error.EmptyValue? ==> IsEmptyValue(input)
    ensures r.Err? && r.error.EmptyKeyword? ==> IsDateTimeLine(input)
    ensures r.Ok? ==> r.value.year < 10000 && r.value.month < 100 && r.value.day < 100
    ensures r.Ok? ==> r.value.hour < 100 && r.value.minute < 100 && r.value.second < 100
  {
    if IsEmptyValue(input) then
      Err(KvnDateTimeParserErr.EmptyValue(input))
    else
      MatchDateTimeLineIff(input);
      match MatchDateTimeLine(input)
      case None => Err(KvnDateTimeParserErr.InvalidFormat(input))
      case Some(m) =>
        if TrimEnd(m.line.keyword) == [] then
          Err(KvnDateTimeParserErr.EmptyKeyword(input))
        else if !SecondsParse(m.date) then
          Err(KvnDateTimeParserErr.InvalidFormat(input))
        else
          Ok(DateTimeValueOf(m.date))
  }
}
