/**
  Lines from the lexer tests of parser.rs (parser.rs:385-802), each derived
  from the round-trip lemmas of module KvnProperties by naming the spans of
  the line, and the line on which the date-time lexer as written panics.
*/
module KvnCases {
  import opened Results
  import opened Text
  import opened KvnLayout
  import opened KvnGrammar
  import opened KvnErrors
  import opened KvnLexers
  import opened KvnProperties

  /** The ranges of `i32` and `u32`. */
  const I32: IntTarget := IntTarget(-0x8000_0000, 0x7fff_ffff)
  const U32: IntTarget := IntTarget(0, 0xffff_ffff)

  /** A digit string read through its decimal text. */
  lemma DigitsOf(v: nat, ds: string)
    requires DecimalText(v) == ds
    ensures All(ds, Digit) && DecimalValue(ds) == v
  {
    DecimalRoundTrip(v);
  }

  // ---------------------------------------------------------------------------
  // Comments (parser.rs:457-471)

  lemma BlankComment()
    ensures ParseStringLine("  COMMENT ") == Ok(KvnValue("", None))
  {
    assert COMMENT == "COMMENT";
    LiteralComment();
    TwoSpaces();
    CommentLineValue("  ", "");
  }

  lemma TextComment()
    ensures ParseStringLine("  COMMENT asd a    asd a ads as ") == Ok(KvnValue("asd a    asd a ads as ", None))
  {
    assert COMMENT == "COMMENT";
    LiteralCommentText();
    TwoSpaces();
    CommentLineValue("  ", "asd a    asd a ads as ");
    CommentTextTrimmed();
  }

  lemma LiteralComment()
    ensures "  " + ("COMMENT" + (" " + "")) == "  COMMENT "
  {
  }

  lemma LiteralCommentText()
    ensures "  " + ("COMMENT" + (" " + "asd a    asd a ads as ")) == "  COMMENT asd a    asd a ads as "
  {
  }

  /** A line whose text after its leading white space starts with another letter is no comment. */
  lemma NotComment(input: string, w: string, t: string)
    requires AllSpace(w) && input == w + t
    requires t != [] && !IsSpace(t[0]) && t[0] != 'C'
    ensures !IsCommentLine(input)
  {
    TrimStartOf(w, t);
    assert (COMMENT + " ")[0] == 'C';
  }

  lemma TwoSpaces()
    ensures AllSpace("  ") && AllSpace(" ") && AllSpace([])
  {
  }

  lemma CommentTextTrimmed()
    ensures TrimStart("asd a    asd a ads as ") == "asd a    asd a ads as "
  {
    var t := "asd a    asd a ads as ";
    TrimStartOf([], t);
    assert [] + t == t;
  }

  // ---------------------------------------------------------------------------
  // String lines (parser.rs:389-455)

  function AsdLine(): Line {
    Line("  ", "ASD", "  ", " ", "ASDFG", None, "")
  }

  lemma AsdLineOk()
    ensures StringLineOk(AsdLine())
  {
    TwoSpaces();
    assert All("ASD", UpperKeyword);
    assert All("ASDFG", NotNewline);
  }

  lemma AsdLineText()
    ensures Render(AsdLine()) == "  ASD  = ASDFG"
  {
  }

  lemma AsdLineNoComment()
    ensures !IsCommentLine("  ASD  = ASDFG")
  {
    TwoSpaces();
    assert "  " + "ASD  = ASDFG" == "  ASD  = ASDFG";
    NotComment("  ASD  = ASDFG", "  ", "ASD  = ASDFG");
  }

  lemma AsdValue()
    ensures Trim(" " + ("ASDFG" + "")) == "ASDFG"
  {
    TwoSpaces();
    assert " " + ("ASDFG" + "") == " " + "ASDFG";
    TrimStartOf(" ", "ASDFG");
    TrimEndOf("ASDFG", []);
    assert "ASDFG" + [] == "ASDFG";
  }

  /** White space around the keyword and the `=` is not significant. */
  lemma StringCase()
    ensures ParseStringLine("  ASD  = ASDFG") == Ok(KvnValue("ASDFG", None))
  {
    AsdLineOk();
    AsdLineText();
    AsdLineNoComment();
    StringLineIsNotEmptyValue(AsdLine());
    StringLineRoundTrip(AsdLine());
    AsdValue();
  }

  function NoKeywordLine(): Line {
    Line(" ", "", "", " ", "asd [km]", None, "")
  }

  lemma NoKeywordLineOk()
    ensures StringLineOk(NoKeywordLine())
  {
    TwoSpaces();
    var v := "asd [km]";
    assert forall i | 0 <= i < |v| :: In(v[i], NotNewline);
    AllOf(v, NotNewline);
  }

  lemma NoKeywordLineText()
    ensures Render(NoKeywordLine()) == " = asd [km]"
  {
  }

  lemma NoKeywordNoComment()
    ensures !IsCommentLine(" = asd [km]")
  {
    TwoSpaces();
    assert " " + "= asd [km]" == " = asd [km]";
    NotComment(" = asd [km]", " ", "= asd [km]");
  }

  /** A line with no keyword before its `=`. */
  lemma EmptyKeywordCase()
    ensures ParseStringLine(" = asd [km]") == Err(KvnStringParserErr.EmptyKeyword(" = asd [km]"))
  {
    NoKeywordLineOk();
    NoKeywordLineText();
    NoKeywordNoComment();
    StringLineIsNotEmptyValue(NoKeywordLine());
    StringLineRoundTrip(NoKeywordLine());
  }

  // ---------------------------------------------------------------------------
  // Integer lines (parser.rs:478-598)

  lemma SclkKeyword()
    ensures All("SCLK_OFFSET_AT_EPOCH", UpperKeyword) && All("SCLK_OFFSET_AT_EPOCH", Keyword)
  {
    var k := "SCLK_OFFSET_AT_EPOCH";
    assert forall i | 0 <= i < |k| :: In(k[i], UpperKeyword);
    AllOf(k, UpperKeyword);
    UpperIsKeyword(k);
  }

  /** The number lines of the tests: `SCLK_OFFSET_AT_EPOCH = <value>`, with `[s]` or without. */
  function SclkLine(value: string, unit: bool): Line {
    Line("", "SCLK_OFFSET_AT_EPOCH", " ", " ", value, if unit then Some(UnitPart(" ", "s", true)) else None, "")
  }

  lemma SclkHead(value: string, unit: bool)
    ensures HeadOk(SclkLine(value, unit), Keyword)
    ensures UnitTailOk(SclkLine(value, unit).unit, [], true)
  {
    SclkKeyword();
    TwoSpaces();
    assert All("s", UnitName);
  }

  lemma Value28800()
    ensures All("28800", Digit) && DecimalValue("28800") == 28800
  {
    assert DecimalText(28800) == "28800";
    DigitsOf(28800, "28800");
  }

  function PaddedNumeral(): Numeral {
    Numeral(None, "00028800", None, None)
  }

  lemma PaddedValue()
    ensures All("00028800", Digit) && NumeralValue(PaddedNumeral()) == 28800
  {
    Value28800();
    DecimalValueLeadingZeros("000", "28800");
    assert "000" + "28800" == "00028800";
  }

  lemma PaddedLineOk()
    ensures NumberLineOk(SclkLine("00028800", true), PaddedNumeral(), true, false)
  {
    SclkHead("00028800", true);
    PaddedValue();
    assert NumeralText(PaddedNumeral()) == "00028800";
  }

  lemma PaddedLineText()
    ensures Render(SclkLine("00028800", true)) == "SCLK_OFFSET_AT_EPOCH = 00028800 [s]"
  {
  }

  /** Leading zeros are read, and the unit is reported. */
  lemma PaddedIntegerCase()
    ensures ParseIntegerLine("SCLK_OFFSET_AT_EPOCH = 00028800 [s]", true, I32)
         == Ok(KvnValue(28800, Some("s")))
  {
    PaddedLineOk();
    PaddedLineText();
    PaddedValue();
    IntegerLineRoundTrip(SclkLine("00028800", true), PaddedNumeral(), true, I32);
  }

  function PlainNumeral(): Numeral {
    Numeral(None, "28800", None, None)
  }

  lemma UnitLineOk()
    ensures NumberLineOk(SclkLine("28800", true), PlainNumeral(), true, false)
  {
    SclkHead("28800", true);
    Value28800();
    assert NumeralText(PlainNumeral()) == "28800";
  }

  lemma UnitLineText()
    ensures Render(SclkLine("28800", true)) == "SCLK_OFFSET_AT_EPOCH = 28800 [s]"
  {
  }

  /** With units disabled a unit clause makes the line malformed. */
  lemma UnitDisabledCase()
    ensures ParseIntegerLine("SCLK_OFFSET_AT_EPOCH = 28800 [s]", false, U32)
         == Err(KvnNumberParserErr.InvalidFormat("SCLK_OFFSET_AT_EPOCH = 28800 [s]"))
  {
    UnitLineOk();
    UnitLineText();
    WithoutUnitsBracketIsInvalid(SclkLine("28800", true), PlainNumeral(), false, U32);
  }

  function NegativeNumeral(): Numeral {
    Numeral(Some('-'), "28800", None, None)
  }

  lemma NegativeValue()
    ensures All("28800", Digit) && NumeralValue(NegativeNumeral()) == -28800
  {
    Value28800();
  }

  lemma NegativeText()
    ensures NumeralText(NegativeNumeral()) == "-28800"
  {
  }

  lemma NegativeLineOk()
    ensures NumberLineOk(SclkLine("-28800", false), NegativeNumeral(), true, false)
  {
    SclkHead("-28800", false);
    Value28800();
    NegativeText();
  }

  lemma NegativeLineText()
    ensures Render(SclkLine("-28800", false)) == "SCLK_OFFSET_AT_EPOCH = -28800"
  {
  }

  /** A negative value is read for a signed type and refused for an unsigned one. */
  lemma NegativeIntegerCases()
    ensures ParseIntegerLine("SCLK_OFFSET_AT_EPOCH = -28800", true, I32) == Ok(KvnValue(-28800, None))
    ensures ParseIntegerLine("SCLK_OFFSET_AT_EPOCH = -28800", true, U32)
         == Err(KvnNumberParserErr.InvalidFormat("SCLK_OFFSET_AT_EPOCH = -28800"))
  {
    NegativeLineOk();
    NegativeValue();
    NegativeLineText();
    IntegerLineRoundTrip(SclkLine("-28800", false), NegativeNumeral(), true, I32);
    IntegerLineRoundTrip(SclkLine("-28800", false), NegativeNumeral(), true, U32);
  }

  // ---------------------------------------------------------------------------
  // Floating-point lines (parser.rs:604-689)

  function SmallNumeral(): Numeral {
    Numeral(None, "5", Some("801003223606"), Some(Exponent('e', Some('-'), "05")))
  }

  function SmallLine(): Line {
    Line("", "CX_X", " ", "  ", "5.801003223606e-05", None, "")
  }

  lemma SmallNumeralOk()
    ensures NumeralOk(SmallNumeral(), true)
  {
    var f := "801003223606";
    assert forall i | 0 <= i < |f| :: In(f[i], Digit);
    AllOf(f, Digit);
    assert All("5", Digit) && All("05", Digit);
  }

  lemma SmallNumeralText()
    ensures NumeralText(SmallNumeral()) == "5.801003223606e-05"
  {
  }

  lemma SmallHead()
    ensures HeadOk(SmallLine(), Keyword)
  {
    TwoSpaces();
    assert All("CX_X", Keyword);
  }

  lemma SmallLineOk()
    ensures NumberLineOk(SmallLine(), SmallNumeral(), true, true)
  {
    SmallHead();
    SmallNumeralOk();
    SmallNumeralText();
    TwoSpaces();
  }

  lemma SmallLineText()
    ensures Render(SmallLine()) == "CX_X =  5.801003223606e-05"
  {
  }

  /** A fraction and a signed exponent are captured as written. */
  lemma ExponentCase()
    ensures ParseNumericLine("CX_X =  5.801003223606e-05", true) == Ok(KvnValue(SmallNumeral(), None))
  {
    SmallLineOk();
    SmallLineText();
    NumericLineRoundTrip(SmallLine(), SmallNumeral(), true);
  }

  // ---------------------------------------------------------------------------
  // Date-time lines (parser.rs:693-805)

  lemma CreationDateKeyword()
    ensures All("CREATION_DATE", UpperKeyword)
  {
    var k := "CREATION_DATE";
    assert forall i | 0 <= i < |k| :: In(k[i], UpperKeyword);
    AllOf(k, UpperKeyword);
  }

  /** The date-time lines of the tests: `CREATION_DATE = <date>`. */
  function CreationLine(d: DateFields): Line {
    Line("", "CREATION_DATE", " ", " ", DateText(d), None, "")
  }

  lemma CreationHead(d: DateFields)
    ensures HeadOk(CreationLine(d), UpperKeyword)
  {
    CreationDateKeyword();
    TwoSpaces();
  }

  function MillisDate(): DateFields {
    DateFields("2021", "06", "03", "05", "33", "00", Some("123"))
  }

  /** A field with one leading zero has the value of its last digit. */
  lemma PaddedDigit(c: char)
    requires '0' <= c <= '9'
    ensures All(['0', c], Digit) && DecimalValue(['0', c]) == c as int - '0' as int
  {
    assert All([c], Digit);
    DecimalValueLeadingZeros("0", [c]);
    assert "0" + [c] == ['0', c];
    assert [c][..0] == [];
  }

  lemma Value2021()
    ensures All("2021", Digit) && DecimalValue("2021") == 2021
  {
    assert DecimalText(2021) == "2021";
    DigitsOf(2021, "2021");
  }

  lemma Value33()
    ensures All("33", Digit) && DecimalValue("33") == 33
  {
    assert DecimalText(33) == "33";
    DigitsOf(33, "33");
  }

  lemma MillisOk()
    ensures DateOk(MillisDate())
  {
    Value2021();
    Value33();
    PaddedDigit('6');
    PaddedDigit('3');
    PaddedDigit('5');
    PaddedDigit('0');
    assert All("123", Digit);
  }

  lemma MillisText()
    ensures DateText(MillisDate()) == "2021-06-03T05:33:00.123"
  {
  }

  lemma MillisValue()
    ensures DateTimeValueOf(MillisDate()) == KvnDateTimeValue(2021, 6, 3, 5, 33, 0, "123", "2021-06-03T05:33:00.123")
  {
    MillisOk();
    Value2021();
    Value33();
    PaddedDigit('6');
    PaddedDigit('3');
    PaddedDigit('5');
    PaddedDigit('0');
    MillisText();
  }

  lemma CreationLineText(d: DateFields)
    ensures Render(CreationLine(d)) == "CREATION_DATE = " + DateText(d)
  {
  }

  lemma MillisLineLiteral()
    ensures "CREATION_DATE = " + "2021-06-03T05:33:00.123" == "CREATION_DATE = 2021-06-03T05:33:00.123"
  {
  }

  lemma MillisLineText()
    ensures Render(CreationLine(MillisDate())) == "CREATION_DATE = 2021-06-03T05:33:00.123"
  {
    CreationLineText(MillisDate());
    MillisText();
    MillisLineLiteral();
  }

  /** Every field of the date is read, the fraction of the seconds as its digits. */
  lemma DateTimeCase()
    ensures ParseDateTimeLine("CREATION_DATE = 2021-06-03T05:33:00.123")
         == Ok(KvnDateTimeValue(2021, 6, 3, 5, 33, 0, "123", "2021-06-03T05:33:00.123"))
  {
    CreationHead(MillisDate());
    MillisOk();
    MillisText();
    MillisLineText();
    MillisValue();
    DateTimeLineRoundTrip(CreationLine(MillisDate()), MillisDate());
  }

  // ---------------------------------------------------------------------------
  // A seconds field without digits

  /** The date of the line `CREATION_DATE = 2021-06-03T05:33:`: the seconds
      field is empty. */
  function TruncatedDate(): DateFields {
    DateFields("2021", "06", "03", "05", "33", "", None)
  }

  lemma TruncatedDateText()
    ensures DateText(TruncatedDate()) == "2021-06-03T05:33:"
  {
  }

  lemma TruncatedLineLiteral()
    ensures "CREATION_DATE = " + "2021-06-03T05:33:" == "CREATION_DATE = 2021-06-03T05:33:"
  {
  }

  lemma TruncatedLineText()
    ensures Render(CreationLine(TruncatedDate())) == "CREATION_DATE = 2021-06-03T05:33:"
  {
    CreationLineText(TruncatedDate());
    TruncatedDateText();
    TruncatedLineLiteral();
  }

  lemma TruncatedDateOk()
    ensures DateOk(TruncatedDate())
  {
  }

  lemma TruncatedLineOk()
    ensures DateTimeLineOk(CreationLine(TruncatedDate()), TruncatedDate())
  {
    CreationHead(TruncatedDate());
    TruncatedDateOk();
  }

  /** A concrete line the pattern accepts and the lexer as written panics on. */
  lemma SecondsWithoutDigitsPanics()
    ensures ParseDateTimeLineAsWritten("CREATION_DATE = 2021-06-03T05:33:").Panicked?
    ensures ParseDateTimeLine("CREATION_DATE = 2021-06-03T05:33:")
      == Err(KvnDateTimeParserErr.InvalidFormat("CREATION_DATE = 2021-06-03T05:33:"))
  {
    TruncatedLineText();
    TruncatedLineOk();
    DateTimeAsWrittenPanics(CreationLine(TruncatedDate()), TruncatedDate());
    DateTimeCorrectionAgrees(Render(CreationLine(TruncatedDate())));
  }
}
