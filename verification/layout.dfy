/**
  The shape of a KVN line (section 7.4 of CCSDS 502.0-B-3) as the patterns of
  parser.rs see it:

      lead KEYWORD gap1 = gap2 VALUE [ unit-gap '[' UNIT ']'? ] trail

  A `Line` names every span of a match, the named captures (keyword, value,
  unit) and the unnamed white-space groups around them. `Render` puts the
  spans back together; the predicates below are the grammars of the five
  patterns written as conditions on the spans. Each pattern's recognizer in
  module KvnGrammar is proved to be the inverse of `Render` on the lines its
  grammar admits.
*/
module KvnLayout {
  import opened Results
  import opened Text

  /** The unit clause: white space, `[`, the unit name and an optional `]`. */
  datatype UnitPart = UnitPart(gap: seq<char>, name: seq<char>, closed: bool)

  datatype Line = Line(
    lead: seq<char>,
    keyword: seq<char>,
    gap1: seq<char>,
    gap2: seq<char>,
    value: seq<char>,
    unit: Option<UnitPart>,
    trail: seq<char>)

  function ClosedText(closed: bool): seq<char> {
    if closed then [']'] else []
  }

  function UnitText(u: Option<UnitPart>): seq<char> {
    match u
    case None => []
    case Some(p) => p.gap + (['['] + (p.name + ClosedText(p.closed)))
  }

  /** The text of a line: the spans in order, with the `=` between the gaps. */
  function Render(l: Line): seq<char> {
    l.lead + (l.keyword + (l.gap1 + (['='] + (l.gap2 + (l.value + (UnitText(l.unit) + l.trail))))))
  }

  /** The unit a lexer reports: the name between the brackets, when there are brackets. */
  function UnitOf(l: Line): Option<seq<char>> {
    match l.unit
    case None => None
    case Some(p) => Some(p.name)
  }

  /** `lead KEYWORD gap1 =` and `gap2`, with the leading `\s*` taking all the
      white space when the keyword is empty (the greedy first choice). */
  predicate HeadOk(l: Line, k: CharClass) {
    && AllSpace(l.lead)
    && All(l.keyword, k)
    && AllSpace(l.gap1)
    && (l.keyword == [] ==> l.gap1 == [])
    && AllSpace(l.gap2)
  }

  /** `[-+]?[0-9]+(\.\d*)?` and, for floating point, `([eE][+-]?\d+)?`. */
  datatype Exponent = Exponent(marker: char, sign: Option<char>, digits: seq<char>)

  datatype Numeral = Numeral(
    sign: Option<char>,
    digits: seq<char>,
    fraction: Option<seq<char>>,
    exponent: Option<Exponent>)

  function SignText(sign: Option<char>): seq<char> {
    match sign
    case None => []
    case Some(c) => [c]
  }

  function FractionText(fraction: Option<seq<char>>): seq<char> {
    match fraction
    case None => []
    case Some(ds) => ['.'] + ds
  }

  function ExponentText(e: Option<Exponent>): seq<char> {
    match e
    case None => []
    case Some(x) => [x.marker] + (SignText(x.sign) + x.digits)
  }

  function NumeralText(n: Numeral): seq<char> {
    SignText(n.sign) + (n.digits + (FractionText(n.fraction) + ExponentText(n.exponent)))
  }

  // The same texts followed by more text, nested the way a scanner reads them.

  function SignThen(sign: Option<char>, rest: seq<char>): seq<char> {
    match sign
    case None => rest
    case Some(c) => [c] + rest
  }

  function FractionThen(fraction: Option<seq<char>>, rest: seq<char>): seq<char> {
    match fraction
    case None => rest
    case Some(ds) => ['.'] + (ds + rest)
  }

  function ExponentThen(e: Option<Exponent>, rest: seq<char>): seq<char> {
    match e
    case None => rest
    case Some(x) => [x.marker] + SignThen(x.sign, x.digits + rest)
  }

  function NumeralThen(n: Numeral, rest: seq<char>): seq<char> {
    SignThen(n.sign, n.digits + FractionThen(n.fraction, ExponentThen(n.exponent, rest)))
  }

  function UnitThen(u: Option<UnitPart>, rest: seq<char>): seq<char> {
    match u
    case None => rest
    case Some(p) => p.gap + (['['] + (p.name + (ClosedText(p.closed) + rest)))
  }

  lemma SignThenIs(sign: Option<char>, rest: seq<char>)
    ensures SignText(sign) + rest == SignThen(sign, rest)
  {
  }

  lemma FractionThenIs(fraction: Option<seq<char>>, rest: seq<char>)
    ensures FractionText(fraction) + rest == FractionThen(fraction, rest)
  {
  }

  lemma ExponentThenIs(e: Option<Exponent>, rest: seq<char>)
    ensures ExponentText(e) + rest == ExponentThen(e, rest)
  {
    if e.Some? {
      SignThenIs(e.value.sign, e.value.digits + rest);
    }
  }

  lemma NumeralThenIs(n: Numeral, rest: seq<char>)
    ensures NumeralText(n) + rest == NumeralThen(n, rest)
  {
    var e := ExponentText(n.exponent);
    var f := FractionText(n.fraction);
    ExponentThenIs(n.exponent, rest);
    FractionThenIs(n.fraction, e + rest);
    SignThenIs(n.sign, n.digits + (f + (e + rest)));
    Assoc(f, e, rest);
    Assoc(n.digits, f + e, rest);
    Assoc(SignText(n.sign), n.digits + (f + e), rest);
  }

  lemma UnitThenIs(u: Option<UnitPart>, rest: seq<char>)
    ensures UnitText(u) + rest == UnitThen(u, rest)
  {
  }

  predicate SignOk(sign: Option<char>) {
    sign.Some? ==> sign.value == '+' || sign.value == '-'
  }

  predicate NumeralOk(n: Numeral, withExponent: bool) {
    && SignOk(n.sign)
    && n.digits != []
    && All(n.digits, Digit)
    && (n.fraction.Some? ==> All(n.fraction.value, Digit))
    && (n.exponent.Some? ==>
          && withExponent
          && (n.exponent.value.marker == 'e' || n.exponent.value.marker == 'E')
          && SignOk(n.exponent.value.sign)
          && n.exponent.value.digits != []
          && All(n.exponent.value.digits, Digit))
  }

  /** What may follow a number: `(\s*\[[0-9A-Za-z/_*]*\]?)?\s*$`, the unit
      clause only when units are enabled. */
  predicate UnitTailOk(u: Option<UnitPart>, trail: seq<char>, withUnit: bool) {
    && AllSpace(trail)
    && (u.Some? ==> withUnit && AllSpace(u.value.gap) && All(u.value.name, UnitName))
  }

  /** The integer and floating-point line patterns (parser.rs:211, 213, 265, 267). */
  predicate NumberLineOk(l: Line, n: Numeral, withUnit: bool, withExponent: bool) {
    && HeadOk(l, Keyword)
    && NumeralOk(n, withExponent)
    && l.value == NumeralText(n)
    && UnitTailOk(l.unit, l.trail, withUnit)
  }

  /** The string pattern (parser.rs:165): `.*` takes the value up to the first
      line feed; what follows must be white space. */
  predicate StringLineOk(l: Line) {
    && HeadOk(l, UpperKeyword)
    && All(l.value, NotNewline)
    && (l.value == [] ==> l.trail == [])
    && (l.value != [] ==> !IsSpace(l.value[0]))
    && l.unit.None?
    && AllSpace(l.trail)
    && (l.trail != [] ==> l.trail[0] == '\n')
  }

  /** The empty-value pattern (parser.rs:248): nothing, or a bare unit clause,
      after the `=`; nothing at all after the bracket. */
  predicate EmptyValueLineOk(l: Line) {
    && HeadOk(l, Keyword)
    && l.value == []
    && l.trail == []
    && (l.unit.Some? ==> l.unit.value.gap == [] && All(l.unit.value.name, UnitName))
  }

  /** The date `YYYY-MM-DDThh:mm:ss[.f]` of the date-time pattern (parser.rs:306). */
  datatype DateFields = DateFields(
    year: seq<char>,
    month: seq<char>,
    day: seq<char>,
    hour: seq<char>,
    minute: seq<char>,
    seconds: seq<char>,
    fraction: Option<seq<char>>)

  function DateText(d: DateFields): seq<char> {
    d.year + (['-'] + (d.month + (['-'] + (d.day + (['T'] + (d.hour + ([':'] + (d.minute + ([':']
      + (d.seconds + FractionText(d.fraction)))))))))))
  }

  function DateThen(d: DateFields, rest: seq<char>): seq<char> {
    d.year + (['-'] + (d.month + (['-'] + (d.day + (['T'] + (d.hour + ([':'] + (d.minute + ([':']
      + (d.seconds + FractionThen(d.fraction, rest)))))))))))
  }

  lemma DateThenIs(d: DateFields, rest: seq<char>)
    ensures DateText(d) + rest == DateThen(d, rest)
  {
    var f := FractionText(d.fraction);
    FractionThenIs(d.fraction, rest);
    var x10 := d.seconds + f;
    Assoc(d.seconds, f, rest);
    var x9 := [':'] + x10;
    Assoc([':'], x10, rest);
    var x8 := d.minute + x9;
    Assoc(d.minute, x9, rest);
    var x7 := [':'] + x8;
    Assoc([':'], x8, rest);
    var x6 := d.hour + x7;
    Assoc(d.hour, x7, rest);
    var x5 := ['T'] + x6;
    Assoc(['T'], x6, rest);
    var x4 := d.day + x5;
    Assoc(d.day, x5, rest);
    var x3 := ['-'] + x4;
    Assoc(['-'], x4, rest);
    var x2 := d.month + x3;
    Assoc(d.month, x3, rest);
    var x1 := ['-'] + x2;
    Assoc(['-'], x2, rest);
    Assoc(d.year, x1, rest);
  }

  /** One or two digits: `\d{1,2}`. */
  predicate ShortField(ds: seq<char>) {
    1 <= |ds| <= 2 && All(ds, Digit)
  }

  predicate DateOk(d: DateFields) {
    && |d.year| == 4 && All(d.year, Digit)
    && ShortField(d.month)
    && ShortField(d.day)
    && ShortField(d.hour)
    && ShortField(d.minute)
    && |d.seconds| <= 2 && All(d.seconds, Digit)
    && (d.fraction.Some? ==> All(d.fraction.value, Digit))
  }

  predicate DateTimeLineOk(l: Line, d: DateFields) {
    && HeadOk(l, UpperKeyword)
    && DateOk(d)
    && l.value == DateText(d)
    && l.unit.None?
    && AllSpace(l.trail)
  }
}
