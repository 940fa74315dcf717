/**
  Hand-written recognizers for seven of the eight regular expressions of
  parser.rs: the string pattern (parser.rs:165), the four number patterns
  (parser.rs:211, 213, 265, 267), the empty-value pattern (parser.rs:248) and
  the date-time pattern (parser.rs:306). The matcher's pattern (parser.rs:127)
  only splits off a greedy run; it is modelled with `Text.SplitRun` in module
  KvnLexers. Each
  returns the spans of the match a leftmost-first regex engine reports (every
  quantifier greedy), as a `KvnLayout.Line`, or None when the pattern does not
  match. For each pattern two facts are proved: what the recognizer returns
  renders back to its input and satisfies the pattern's grammar (soundness,
  in the recognizer's ensures), and every line the grammar admits is
  recognized with exactly its spans (completeness, a lemma), so the captures
  are unique.
*/
module KvnGrammar {
  import opened Results
  import opened Text
  import opened KvnLayout

  /** A keyword class: disjoint from white space and from `=`. */
  predicate KeywordClass(k: CharClass) {
    k == UpperKeyword || k == Keyword
  }

  // ---------------------------------------------------------------------------
  // The head `^\s*(?<keyword>K*)\s*=` shared by every pattern

  datatype Head = Head(lead: seq<char>, keyword: seq<char>, gap1: seq<char>, rest: seq<char>)

  function HeadText(h: Head): seq<char> {
    h.lead + (h.keyword + (h.gap1 + (['='] + h.rest)))
  }

  predicate HeadShape(h: Head, k: CharClass) {
    && AllSpace(h.lead)
    && All(h.keyword, k)
    && AllSpace(h.gap1)
    && (h.keyword == [] ==> h.gap1 == [])
  }

  function MatchHead(s: seq<char>, k: CharClass): (r: Option<Head>)
    requires KeywordClass(k)
    ensures r.Some? ==> HeadText(r.value) == s && HeadShape(r.value, k)
  {
    var (lead, s1) := SplitRun(s, Space);
    var (keyword, s2) := SplitRun(s1, k);
    var (gap1, s3) := SplitRun(s2, Space);
    if s3 != [] && s3[0] == '=' then
      HeadOfRuns(s, k, lead, s1, keyword, s2, gap1, s3);
      Some(Head(lead, keyword, gap1, s3[1..]))
    else
      None
  }

  /** The three runs of `MatchHead` and the `=` after them make a head. */
  lemma HeadOfRuns(s: seq<char>, k: CharClass, lead: seq<char>, s1: seq<char>,
                   keyword: seq<char>, s2: seq<char>, gap1: seq<char>, s3: seq<char>)
    requires lead + s1 == s && AllSpace(lead) && (s1 == [] || !In(s1[0], Space))
    requires keyword + s2 == s1 && All(keyword, k)
    requires gap1 + s3 == s2 && AllSpace(gap1)
    requires s3 != [] && s3[0] == '='
    ensures HeadText(Head(lead, keyword, gap1, s3[1..])) == s
    ensures HeadShape(Head(lead, keyword, gap1, s3[1..]), k)
  {
    Uncons(s3);
  }

  lemma MatchHeadOf(h: Head, k: CharClass)
    requires KeywordClass(k)
    requires HeadShape(h, k)
    ensures MatchHead(HeadText(h), k) == Some(h)
  {
    var z := ['='] + h.rest;
    var y := h.gap1 + z;
    var x := h.keyword + y;
    assert x[0] == (if h.keyword != [] then h.keyword[0] else '=');
    SplitRunOf(h.lead, x, Space);
    SplitRunOf(h.keyword, y, k);
    SplitRunOf(h.gap1, z, Space);
    assert z[1..] == h.rest;
  }

  // ---------------------------------------------------------------------------
  // What follows the `=`: `gap2 VALUE [unit clause] trail`

  datatype Tail = Tail(gap2: seq<char>, value: seq<char>, unit: Option<UnitPart>, trail: seq<char>)

  function TailText(t: Tail): seq<char> {
    t.gap2 + (t.value + (UnitText(t.unit) + t.trail))
  }

  /** The line made of a head and the tail after its `=`. */
  function Assemble(h: Head, t: Tail): (l: Line)
    ensures h.rest == TailText(t) ==> Render(l) == HeadText(h)
  {
    Line(h.lead, h.keyword, h.gap1, t.gap2, t.value, t.unit, t.trail)
  }

  /** The head and tail of a line. */
  function HeadOf(l: Line): Head {
    Head(l.lead, l.keyword, l.gap1, l.gap2 + (l.value + (UnitText(l.unit) + l.trail)))
  }

  function TailOf(l: Line): Tail {
    Tail(l.gap2, l.value, l.unit, l.trail)
  }

  // ---------------------------------------------------------------------------
  // The string pattern (parser.rs:165)

  function MatchStringTail(rest: seq<char>): (r: Option<Tail>)
    ensures r.Some? ==> TailText(r.value) == rest
    ensures r.Some? ==>
      var t := r.value;
      && AllSpace(t.gap2) && All(t.value, NotNewline)
      && (t.value == [] ==> t.trail == [])
      && (t.value != [] ==> !IsSpace(t.value[0]))
      && t.unit.None?
      && AllSpace(t.trail)
      && (t.trail != [] ==> t.trail[0] == '\n')
  {
    var (gap2, t) := SplitRun(rest, Space);
    var (value, trail) := SplitRun(t, NotNewline);
    if AllSpace(trail) then
      assert value != [] ==> value[0] == t[0];
      assert [] + trail == trail;
      Some(Tail(gap2, value, None, trail))
    else
      None
  }

  function MatchStringLine(s: seq<char>): (r: Option<Line>)
    ensures r.Some? ==> Render(r.value) == s && StringLineOk(r.value)
  {
    match MatchHead(s, UpperKeyword)
    case None => None
    case Some(h) =>
      match MatchStringTail(h.rest)
      case None => None
      case Some(t) => Some(Assemble(h, t))
  }

  lemma MatchStringTailOf(t: Tail)
    requires AllSpace(t.gap2) && All(t.value, NotNewline)
    requires t.value == [] ==> t.trail == []
    requires t.value != [] ==> !IsSpace(t.value[0])
    requires t.unit.None?
    requires AllSpace(t.trail)
    requires t.trail != [] ==> t.trail[0] == '\n'
    ensures MatchStringTail(TailText(t)) == Some(t)
  {
    var x := t.value + t.trail;
    assert UnitText(t.unit) + t.trail == t.trail;
    assert x == [] || x[0] == t.value[0];
    SplitRunOf(t.gap2, x, Space);
    SplitRunOf(t.value, t.trail, NotNewline);
  }

  /** Every line of the string grammar is matched, with exactly its spans. */
  lemma MatchStringLineOf(l: Line)
    requires StringLineOk(l)
    ensures MatchStringLine(Render(l)) == Some(l)
  {
    MatchHeadOf(HeadOf(l), UpperKeyword);
    MatchStringTailOf(TailOf(l));
  }

  // ---------------------------------------------------------------------------
  // The empty-value pattern (parser.rs:248)

  predicate EmptyTailOk(t: Tail) {
    && AllSpace(t.gap2)
    && t.value == []
    && t.trail == []
    && (t.unit.Some? ==> t.unit.value.gap == [] && All(t.unit.value.name, UnitName))
  }

  /** The text of a tail, nested the way it is scanned. */
  lemma TailTextThen(t: Tail)
    ensures TailText(t) == t.gap2 + (t.value + UnitThen(t.unit, t.trail))
  {
    UnitThenIs(t.unit, t.trail);
  }

  /** `(\[(?<unit>[0-9A-Za-z/_*]*)\]?)?$`: nothing, or a bare unit clause that ends the line. */
  function MatchBareUnit(t: seq<char>): (r: Option<Option<UnitPart>>)
    ensures r.Some? ==> UnitThen(r.value, []) == t
    ensures r.Some? && r.value.Some? ==> r.value.value.gap == [] && All(r.value.value.name, UnitName)
  {
    if t == [] then
      Some(None)
    else if t[0] != '[' then
      None
    else
      var (name, c) := SplitRun(t[1..], UnitName);
      if c == [] || c == [']'] then
        var u := UnitPart([], name, c != []);
        assert ClosedText(u.closed) + [] == c;
        Uncons(t);
        Some(Some(u))
      else
        None
  }

  function MatchEmptyTail(rest: seq<char>): (r: Option<Tail>)
    ensures r.Some? ==> TailText(r.value) == rest && EmptyTailOk(r.value)
  {
    var (gap2, t) := SplitRun(rest, Space);
    match MatchBareUnit(t)
    case None => None
    case Some(u) =>
      var r := Tail(gap2, [], u, []);
      TailTextThen(r);
      assert [] + t == t;
      Some(r)
  }

  function MatchEmptyValue(s: seq<char>): (r: Option<Line>)
    ensures r.Some? ==> Render(r.value) == s && EmptyValueLineOk(r.value)
  {
    match MatchHead(s, Keyword)
    case None => None
    case Some(h) =>
      match MatchEmptyTail(h.rest)
      case None => None
      case Some(t) => Some(Assemble(h, t))
  }

  lemma MatchBareUnitOf(u: Option<UnitPart>)
    requires u.Some? ==> u.value.gap == [] && All(u.value.name, UnitName)
    ensures MatchBareUnit(UnitThen(u, [])) == Some(u)
    ensures NumeralStop(UnitThen(u, []))
  {
    if u.Some? {
      var p := u.value;
      var c := ClosedText(p.closed) + [];
      var x := ['['] + (p.name + c);
      assert UnitThen(u, []) == x;
      assert x[1..] == p.name + c;
      SplitRunOf(p.name, c, UnitName);
    }
  }

  lemma MatchEmptyTailOf(t: Tail)
    requires EmptyTailOk(t)
    ensures MatchEmptyTail(TailText(t)) == Some(t)
  {
    TailTextThen(t);
    var x := UnitThen(t.unit, []);
    assert t.value + x == x;
    MatchBareUnitOf(t.unit);
    SplitRunOf(t.gap2, x, Space);
  }

  /** Every line of the empty-value grammar is matched, with exactly its spans. */
  lemma MatchEmptyValueOf(l: Line)
    requires EmptyValueLineOk(l)
    ensures MatchEmptyValue(Render(l)) == Some(l)
  {
    MatchHeadOf(HeadOf(l), Keyword);
    MatchEmptyTailOf(TailOf(l));
  }

  // ---------------------------------------------------------------------------
  // The numeral `[-+]?[0-9]+(\.\d*)?`, with `([eE][+-]?\d+)?` for floating point

  function ScanSign(s: seq<char>): (r: (Option<char>, seq<char>))
    ensures SignThen(r.0, r.1) == s
    ensures SignOk(r.0)
  {
    if s != [] && (s[0] == '+' || s[0] == '-') then
      Uncons(s);
      (Some(s[0]), s[1..])
    else
      (None, s)
  }

  function ScanFraction(s: seq<char>): (r: (Option<seq<char>>, seq<char>))
    ensures FractionThen(r.0, r.1) == s
    ensures r.0.Some? ==> All(r.0.value, Digit)
  {
    if s != [] && s[0] == '.' then
      var (ds, t) := SplitRun(s[1..], Digit);
      Uncons(s);
      (Some(ds), t)
    else
      (None, s)
  }

  predicate ExponentOk(e: Exponent) {
    && (e.marker == 'e' || e.marker == 'E')
    && SignOk(e.sign)
    && e.digits != []
    && All(e.digits, Digit)
  }

  /** A marker not followed by digits is not part of the numeral. */
  function ScanExponent(s: seq<char>): (r: (Option<Exponent>, seq<char>))
    ensures ExponentThen(r.0, r.1) == s
    ensures r.0.Some? ==> ExponentOk(r.0.value)
  {
    if s != [] && (s[0] == 'e' || s[0] == 'E') then
      var (sign, t) := ScanSign(s[1..]);
      var (ds, u) := SplitRun(t, Digit);
      if ds != [] then
        Uncons(s);
        (Some(Exponent(s[0], sign, ds)), u)
      else
        (None, s)
    else
      (None, s)
  }

  function ScanNumeral(s: seq<char>, withExponent: bool): (r: Option<(Numeral, seq<char>)>)
    ensures r.Some? ==> NumeralThen(r.value.0, r.value.1) == s && NumeralOk(r.value.0, withExponent)
  {
    var (sign, s1) := ScanSign(s);
    var (digits, s2) := SplitRun(s1, Digit);
    if digits == [] then
      None
    else
      var (fraction, s3) := ScanFraction(s2);
      var (exponent, s4) := if withExponent then ScanExponent(s3) else (None, s3);
      Some((Numeral(sign, digits, fraction, exponent), s4))
  }

  /** A numeral starts with a sign or a digit, never with white space. */
  lemma NumeralStart(n: Numeral, rest: seq<char>)
    requires NumeralOk(n, true) || NumeralOk(n, false)
    ensures NumeralThen(n, rest) != [] && !IsSpace(NumeralThen(n, rest)[0])
  {
    var x := n.digits + FractionThen(n.fraction, ExponentThen(n.exponent, rest));
    assert x[0] == n.digits[0];
  }

  /** What may follow a numeral: the end, white space or a unit's `[`. */
  predicate NumeralStop(s: seq<char>) {
    s == [] || IsSpace(s[0]) || s[0] == '['
  }

  lemma ScanSignOf(sign: Option<char>, x: seq<char>)
    requires SignOk(sign)
    requires x != [] && IsDigit(x[0])
    ensures ScanSign(SignThen(sign, x)) == (sign, x)
  {
    if sign.Some? {
      assert ([sign.value] + x)[1..] == x;
    }
  }

  lemma ScanFractionOf(f: Option<seq<char>>, z: seq<char>)
    requires f.Some? ==> All(f.value, Digit)
    requires z == [] || (!IsDigit(z[0]) && z[0] != '.')
    ensures ScanFraction(FractionThen(f, z)) == (f, z)
  {
    if f.Some? {
      assert (['.'] + (f.value + z))[1..] == f.value + z;
      SplitRunOf(f.value, z, Digit);
    }
  }

  lemma ScanExponentOf(e: Option<Exponent>, rest: seq<char>)
    requires e.Some? ==> ExponentOk(e.value)
    requires NumeralStop(rest)
    ensures ScanExponent(ExponentThen(e, rest)) == (e, rest)
  {
    if e.Some? {
      var x := e.value;
      var y := SignThen(x.sign, x.digits + rest);
      assert ([x.marker] + y)[1..] == y;
      ScanSignOf(x.sign, x.digits + rest);
      SplitRunOf(x.digits, rest, Digit);
    }
  }

  /** A numeral followed by the end, white space or `[` is scanned back exactly. */
  lemma ScanNumeralOf(n: Numeral, withExponent: bool, rest: seq<char>)
    requires NumeralOk(n, withExponent)
    requires NumeralStop(rest)
    ensures ScanNumeral(NumeralThen(n, rest), withExponent) == Some((n, rest))
  {
    var z := ExponentThen(n.exponent, rest);
    var y := FractionThen(n.fraction, z);
    assert z == [] || (!IsDigit(z[0]) && z[0] != '.');
    assert y == [] || !IsDigit(y[0]);
    ScanSignOf(n.sign, n.digits + y);
    SplitRunOf(n.digits, y, Digit);
    ScanFractionOf(n.fraction, z);
    if withExponent {
      ScanExponentOf(n.exponent, rest);
    }
  }

  // ---------------------------------------------------------------------------
  // The unit clause `(\s*\[(?<unit>[0-9A-Za-z/_*]*)\]?)?\s*$`, or `\s*$` without units

  function MatchUnitTail(s: seq<char>, withUnit: bool): (r: Option<(Option<UnitPart>, seq<char>)>)
    ensures r.Some? ==> UnitThen(r.value.0, r.value.1) == s && UnitTailOk(r.value.0, r.value.1, withUnit)
  {
    if !withUnit then
      if AllSpace(s) then Some((None, s)) else None
    else
      var (gap, t) := SplitRun(s, Space);
      if t == [] then
        assert gap == s;
        Some((None, s))
      else if t[0] != '[' then
        None
      else
        var (name, c) := SplitRun(t[1..], UnitName);
        var closed := c != [] && c[0] == ']';
        var trail := if closed then c[1..] else c;
        if AllSpace(trail) then
          assert c == ClosedText(closed) + trail by {
            if closed { Uncons(c); }
          }
          Uncons(t);
          Some((Some(UnitPart(gap, name, closed)), trail))
        else
          None
  }

  lemma MatchUnitTailOf(u: Option<UnitPart>, trail: seq<char>, withUnit: bool)
    requires UnitTailOk(u, trail, withUnit)
    ensures MatchUnitTail(UnitThen(u, trail), withUnit) == Some((u, trail))
    ensures NumeralStop(UnitThen(u, trail))
  {
    if u.None? {
      assert trail + [] == trail;
      if withUnit {
        SplitRunOf(trail, [], Space);
      }
    } else {
      MatchUnitPartOf(u.value, trail);
    }
  }

  lemma MatchUnitPartOf(p: UnitPart, trail: seq<char>)
    requires AllSpace(p.gap) && All(p.name, UnitName) && AllSpace(trail)
    ensures MatchUnitTail(UnitThen(Some(p), trail), true) == Some((Some(p), trail))
    ensures NumeralStop(UnitThen(Some(p), trail))
  {
    var c := ClosedText(p.closed) + trail;
    var x := ['['] + (p.name + c);
    SplitRunOf(p.gap, x, Space);
    assert x[1..] == p.name + c;
    if p.closed {
      assert c[0] == ']' && c[1..] == trail;
    } else {
      assert c == trail;
    }
    SplitRunOf(p.name, c, UnitName);
    assert (p.gap + x)[0] == (if p.gap != [] then p.gap[0] else '[');
  }

  // ---------------------------------------------------------------------------
  // The integer (parser.rs:211, 213) and floating-point (parser.rs:265, 267) patterns

  datatype NumberMatch = NumberMatch(line: Line, numeral: Numeral)

  function MatchNumberTail(rest: seq<char>, withUnit: bool, withExponent: bool): (r: Option<(Tail, Numeral)>)
    ensures r.Some? ==>
      var (t, n) := r.value;
      && TailText(t) == rest
      && AllSpace(t.gap2)
      && NumeralOk(n, withExponent)
      && t.value == NumeralText(n)
      && UnitTailOk(t.unit, t.trail, withUnit)
  {
    var (gap2, t) := SplitRun(rest, Space);
    match ScanNumeral(t, withExponent)
    case None => None
    case Some((n, u)) =>
      match MatchUnitTail(u, withUnit)
      case None => None
      case Some((unit, trail)) =>
        var tail := Tail(gap2, NumeralText(n), unit, trail);
        TailTextThen(tail);
        NumeralThenIs(n, UnitThen(unit, trail));
        Some((tail, n))
  }

  /** The integer patterns when `withExponent` is false, the floating-point
      patterns when it is true; `withUnit` selects the pattern with a unit clause. */
  function MatchNumberLine(s: seq<char>, withUnit: bool, withExponent: bool): (r: Option<NumberMatch>)
    ensures r.Some? ==>
      Render(r.value.line) == s && NumberLineOk(r.value.line, r.value.numeral, withUnit, withExponent)
  {
    match MatchHead(s, Keyword)
    case None => None
    case Some(h) =>
      match MatchNumberTail(h.rest, withUnit, withExponent)
      case None => None
      case Some((t, n)) => Some(NumberMatch(Assemble(h, t), n))
  }

  lemma MatchNumberTailOf(t: Tail, n: Numeral, withUnit: bool, withExponent: bool)
    requires AllSpace(t.gap2)
    requires NumeralOk(n, withExponent)
    requires t.value == NumeralText(n)
    requires UnitTailOk(t.unit, t.trail, withUnit)
    ensures MatchNumberTail(TailText(t), withUnit, withExponent) == Some((t, n))
  {
    var u := UnitThen(t.unit, t.trail);
    TailTextThen(t);
    NumeralThenIs(n, u);
    MatchUnitTailOf(t.unit, t.trail, withUnit);
    ScanNumeralOf(n, withExponent, u);
    NumeralStart(n, u);
    SplitRunOf(t.gap2, NumeralThen(n, u), Space);
  }

  /** Every line of a number grammar is matched, with exactly its spans and numeral. */
  lemma MatchNumberLineOf(l: Line, n: Numeral, withUnit: bool, withExponent: bool)
    requires NumberLineOk(l, n, withUnit, withExponent)
    ensures MatchNumberLine(Render(l), withUnit, withExponent) == Some(NumberMatch(l, n))
  {
    MatchHeadOf(HeadOf(l), Keyword);
    MatchNumberTailOf(TailOf(l), n, withUnit, withExponent);
  }

  // ---------------------------------------------------------------------------
  // The date-time pattern (parser.rs:306)

  /** `\d{lo,hi}` followed by the separator `sep`. */
  function ScanField(s: seq<char>, lo: nat, hi: nat, sep: char): (r: Option<(seq<char>, seq<char>)>)
    ensures r.Some? ==> r.value.0 + ([sep] + r.value.1) == s
    ensures r.Some? ==> lo <= |r.value.0| <= hi && All(r.value.0, Digit)
  {
    var (ds, t) := SplitRun(s, Digit);
    if lo <= |ds| <= hi && t != [] && t[0] == sep then
      Uncons(t);
      Some((ds, t[1..]))
    else
      None
  }

  /** `\d{0,2}(\.\d*)?`: the seconds field. */
  function ScanSeconds(s: seq<char>): (r: Option<(seq<char>, Option<seq<char>>, seq<char>)>)
    ensures r.Some? ==> r.value.0 + FractionThen(r.value.1, r.value.2) == s
    ensures r.Some? ==> |r.value.0| <= 2 && All(r.value.0, Digit)
    ensures r.Some? && r.value.1.Some? ==> All(r.value.1.value, Digit)
  {
    var (ds, t) := SplitRun(s, Digit);
    if |ds| <= 2 then
      var (fraction, u) := ScanFraction(t);
      Some((ds, fraction, u))
    else
      None
  }

  function ScanDate(s: seq<char>): (r: Option<(DateFields, seq<char>)>)
    ensures r.Some? ==> DateThen(r.value.0, r.value.1) == s && DateOk(r.value.0)
  {
    match ScanField(s, 4, 4, '-')
    case None => None
    case Some((year, s1)) =>
      match ScanField(s1, 1, 2, '-')
      case None => None
      case Some((month, s2)) =>
        match ScanField(s2, 1, 2, 'T')
        case None => None
        case Some((day, s3)) =>
          match ScanField(s3, 1, 2, ':')
          case None => None
          case Some((hour, s4)) =>
            match ScanField(s4, 1, 2, ':')
            case None => None
            case Some((minute, s5)) =>
              match ScanSeconds(s5)
              case None => None
              case Some((seconds, fraction, rest)) =>
                Some((DateFields(year, month, day, hour, minute, seconds, fraction), rest))
  }

  lemma ScanFieldOf(ds: seq<char>, lo: nat, hi: nat, sep: char, rest: seq<char>)
    requires lo <= |ds| <= hi && All(ds, Digit)
    requires !IsDigit(sep)
    ensures ScanField(ds + ([sep] + rest), lo, hi, sep) == Some((ds, rest))
  {
    SplitRunOf(ds, [sep] + rest, Digit);
    assert ([sep] + rest)[1..] == rest;
  }

  lemma ScanSecondsOf(ds: seq<char>, f: Option<seq<char>>, rest: seq<char>)
    requires |ds| <= 2 && All(ds, Digit)
    requires f.Some? ==> All(f.value, Digit)
    requires rest == [] || IsSpace(rest[0])
    ensures ScanSeconds(ds + FractionThen(f, rest)) == Some((ds, f, rest))
  {
    var y := FractionThen(f, rest);
    assert y == [] || !IsDigit(y[0]);
    SplitRunOf(ds, y, Digit);
    ScanFractionOf(f, rest);
  }

  /** A date followed by the end or white space is scanned back exactly. */
  lemma ScanDateOf(d: DateFields, rest: seq<char>)
    requires DateOk(d)
    requires rest == [] || IsSpace(rest[0])
    ensures ScanDate(DateThen(d, rest)) == Some((d, rest))
  {
    var x5 := d.seconds + FractionThen(d.fraction, rest);
    var x4 := d.minute + ([':'] + x5);
    var x3 := d.hour + ([':'] + x4);
    var x2 := d.day + (['T'] + x3);
    var x1 := d.month + (['-'] + x2);
    ScanFieldOf(d.year, 4, 4, '-', x1);
    ScanFieldOf(d.month, 1, 2, '-', x2);
    ScanFieldOf(d.day, 1, 2, 'T', x3);
    ScanFieldOf(d.hour, 1, 2, ':', x4);
    ScanFieldOf(d.minute, 1, 2, ':', x5);
    ScanSecondsOf(d.seconds, d.fraction, rest);
  }

  datatype DateTimeMatch = DateTimeMatch(line: Line, date: DateFields)

  function MatchDateTimeTail(rest: seq<char>): (r: Option<(Tail, DateFields)>)
    ensures r.Some? ==>
      var (t, d) := r.value;
      && TailText(t) == rest
      && AllSpace(t.gap2)
      && DateOk(d)
      && t.value == DateText(d)
      && t.unit.None?
      && AllSpace(t.trail)
  {
    var (gap2, t) := SplitRun(rest, Space);
    match ScanDate(t)
    case None => None
    case Some((d, trail)) =>
      if AllSpace(trail) then
        var tail := Tail(gap2, DateText(d), None, trail);
        TailTextThen(tail);
        DateThenIs(d, trail);
        Some((tail, d))
      else
        None
  }

  function MatchDateTimeLine(s: seq<char>): (r: Option<DateTimeMatch>)
    ensures r.Some? ==> Render(r.value.line) == s && DateTimeLineOk(r.value.line, r.value.date)
  {
    match MatchHead(s, UpperKeyword)
    case None => None
    case Some(h) =>
      match MatchDateTimeTail(h.rest)
      case None => None
      case Some((t, d)) => Some(DateTimeMatch(Assemble(h, t), d))
  }

  lemma MatchDateTimeTailOf(t: Tail, d: DateFields)
    requires AllSpace(t.gap2) && DateOk(d) && t.value == DateText(d)
    requires t.unit.None? && AllSpace(t.trail)
    ensures MatchDateTimeTail(TailText(t)) == Some((t, d))
  {
    TailTextThen(t);
    DateThenIs(d, t.trail);
    ScanDateOf(d, t.trail);
    var x := DateThen(d, t.trail);
    assert x[0] == d.year[0];
    SplitRunOf(t.gap2, x, Space);
  }

  /** Every line of the date-time grammar is matched, with exactly its spans and fields. */
  lemma MatchDateTimeLineOf(l: Line, d: DateFields)
    requires DateTimeLineOk(l, d)
    ensures MatchDateTimeLine(Render(l)) == Some(DateTimeMatch(l, d))
  {
    MatchHeadOf(HeadOf(l), UpperKeyword);
    MatchDateTimeTailOf(TailOf(l), d);
  }

  // ---------------------------------------------------------------------------
  // Each recognizer decides its grammar

  ghost predicate IsStringLine(s: seq<char>) {
    exists l :: StringLineOk(l) && Render(l) == s
  }

  ghost predicate IsEmptyValueLine(s: seq<char>) {
    exists l :: EmptyValueLineOk(l) && Render(l) == s
  }

  ghost predicate IsNumberLine(s: seq<char>, withUnit: bool, withExponent: bool) {
    exists l, n :: NumberLineOk(l, n, withUnit, withExponent) && Render(l) == s
  }

  ghost predicate IsDateTimeLine(s: seq<char>) {
    exists l, d :: DateTimeLineOk(l, d) && Render(l) == s
  }

  lemma MatchStringLineIff(s: seq<char>)
    ensures MatchStringLine(s).Some? <==> IsStringLine(s)
  {
    if IsStringLine(s) {
      var l :| StringLineOk(l) && Render(l) == s;
      MatchStringLineOf(l);
    }
  }

  lemma MatchEmptyValueIff(s: seq<char>)
    ensures MatchEmptyValue(s).Some? <==> IsEmptyValueLine(s)
  {
    if IsEmptyValueLine(s) {
      var l :| EmptyValueLineOk(l) && Render(l) == s;
      MatchEmptyValueOf(l);
    }
  }

  lemma MatchNumberLineIff(s: seq<char>, withUnit: bool, withExponent: bool)
    ensures MatchNumberLine(s, withUnit, withExponent).Some? <==> IsNumberLine(s, withUnit, withExponent)
  {
    if IsNumberLine(s, withUnit, withExponent) {
      var l, n :| NumberLineOk(l, n, withUnit, withExponent) && Render(l) == s;
      MatchNumberLineOf(l, n, withUnit, withExponent);
    }
  }

  lemma MatchDateTimeLineIff(s: seq<char>)
    ensures MatchDateTimeLine(s).Some? <==> IsDateTimeLine(s)
  {
    if IsDateTimeLine(s) {
      var l, d :| DateTimeLineOk(l, d) && Render(l) == s;
      MatchDateTimeLineOf(l, d);
    }
  }

  // ---------------------------------------------------------------------------
  // Which lines are empty-value lines

  /** A string line with nothing after the `=` is an empty-value line. */
  lemma EmptyStringLineIsEmptyValue(l: Line)
    requires StringLineOk(l) && l.value == []
    ensures MatchEmptyValue(Render(l)).Some?
  {
    UpperIsKeyword(l.keyword);
    MatchEmptyValueOf(l);
  }

  /** A string line whose value does not open a bracket is no empty-value line. */
  lemma StringLineIsNotEmptyValue(l: Line)
    requires StringLineOk(l) && l.value != [] && l.value[0] != '['
    ensures MatchEmptyValue(Render(l)).None?
  {
    UpperIsKeyword(l.keyword);
    MatchHeadOf(HeadOf(l), Keyword);
    TailTextThen(TailOf(l));
    var x := l.value + l.trail;
    assert x[0] == l.value[0];
    EmptyTailRejects(l.gap2, x);
  }

  /** After `=` and white space, anything but the end or `[` rules out an empty value. */
  lemma EmptyTailRejects(gap2: seq<char>, x: seq<char>)
    requires AllSpace(gap2)
    requires x != [] && !IsSpace(x[0]) && x[0] != '['
    ensures MatchEmptyTail(gap2 + x).None?
  {
    SplitRunOf(gap2, x, Space);
  }

  /** A number line has a numeral after the `=`, so it is no empty-value line. */
  lemma NumberLineIsNotEmptyValue(l: Line, n: Numeral, withUnit: bool, withExponent: bool)
    requires NumberLineOk(l, n, withUnit, withExponent)
    ensures MatchEmptyValue(Render(l)).None?
  {
    MatchHeadOf(HeadOf(l), Keyword);
    var u := UnitThen(l.unit, l.trail);
    TailTextThen(TailOf(l));
    NumeralThenIs(n, u);
    NumeralStart(n, u);
    var x := NumeralThen(n, u);
    assert x[0] != '[' by {
      assert x[0] == (if n.sign.Some? then n.sign.value else n.digits[0]);
    }
    EmptyTailRejects(l.gap2, x);
  }

  /** A date-time line has a date after the `=`, so it is no empty-value line. */
  lemma DateTimeLineIsNotEmptyValue(l: Line, d: DateFields)
    requires DateTimeLineOk(l, d)
    ensures MatchEmptyValue(Render(l)).None?
  {
    UpperIsKeyword(l.keyword);
    MatchHeadOf(HeadOf(l), Keyword);
    TailTextThen(TailOf(l));
    DateThenIs(d, l.trail);
    var x := DateThen(d, l.trail);
    assert x[0] == d.year[0];
    EmptyTailRejects(l.gap2, x);
  }
}
