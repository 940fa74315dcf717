/**
  Character classes of the KVN line patterns, longest runs of a class, and the
  string trims of Rust's `str` (`trim_start`, `trim_end`, `trim_start_matches`,
  `starts_with`) over `seq<char>`.
*/
module Text {

  /** Unicode White_Space: the set matched by the regex class `\s` and by
      `char::is_whitespace`, which `str::trim_start` and `str::trim_end` use. */
  predicate IsSpace(c: char) {
    || ('\t' <= c <= '\r')
    || c == ' '
    || c == '\U{85}'
    || c == '\U{A0}'
    || c == '\U{1680}'
    || ('\U{2000}' <= c <= '\U{200A}')
    || c == '\U{2028}'
    || c == '\U{2029}'
    || c == '\U{202F}'
    || c == '\U{205F}'
    || c == '\U{3000}'
  }

  predicate IsDigit(c: char) {
    '0' <= c <= '9'
  }

  /** The character classes the patterns of parser.rs use. */
  datatype CharClass =
    | Space        // \s
    | Digit        // [0-9] and \d
    | UpperKeyword // [0-9A-Z_]
    | Keyword      // [0-9A-Za-z_]
    | UnitName     // [0-9A-Za-z/_*]
    | NotNewline   // .

  predicate In(c: char, k: CharClass) {
    match k
    case Space => IsSpace(c)
    case Digit => IsDigit(c)
    case UpperKeyword => IsDigit(c) || ('A' <= c <= 'Z') || c == '_'
    case Keyword => IsDigit(c) || ('A' <= c <= 'Z') || ('a' <= c <= 'z') || c == '_'
    case UnitName => IsDigit(c) || ('A' <= c <= 'Z') || ('a' <= c <= 'z') || c == '_' || c == '/' || c == '*'
    case NotNewline => c != '\n'
  }

  /** A non-empty text is its first character followed by the rest. */
  lemma Uncons(s: seq<char>)
    requires s != []
    ensures s == [s[0]] + s[1..]
  {
  }

  lemma Assoc(a: seq<char>, b: seq<char>, c: seq<char>)
    ensures (a + b) + c == a + (b + c)
  {
  }

  /** Every character of `s` is in `k`. */
  predicate All(s: seq<char>, k: CharClass) {
    s == [] || (In(s[0], k) && All(s[1..], k))
  }

  predicate AllSpace(s: seq<char>) {
    All(s, Space)
  }

  lemma {:induction false} AllAppend(a: seq<char>, b: seq<char>, k: CharClass)
    ensures All(a + b, k) <==> All(a, k) && All(b, k)
  {
    if a == [] {
      assert a + b == b;
    } else {
      assert (a + b)[0] == a[0];
      assert (a + b)[1..] == a[1..] + b;
      AllAppend(a[1..], b, k);
    }
  }

  /** The characters before the last one, and the last one. */
  lemma AllInit(s: seq<char>, k: CharClass)
    requires All(s, k)
    requires s != []
    ensures All(s[..|s| - 1], k) && In(s[|s| - 1], k)
  {
    assert s == s[..|s| - 1] + [s[|s| - 1]];
    AllAppend(s[..|s| - 1], [s[|s| - 1]], k);
  }

  lemma {:induction false} AllAt(s: seq<char>, k: CharClass, i: nat)
    requires All(s, k)
    requires i < |s|
    ensures In(s[i], k)
  {
    if i > 0 {
      AllAt(s[1..], k, i - 1);
    }
  }

  /** `All` from the characters one by one. */
  lemma {:induction false} AllOf(s: seq<char>, k: CharClass)
    requires forall i | 0 <= i < |s| :: In(s[i], k)
    ensures All(s, k)
  {
    if s != [] {
      assert forall i | 0 <= i < |s[1..]| :: s[1..][i] == s[i + 1];
      AllOf(s[1..], k);
    }
  }

  /** Every keyword character of the upper-case class is one of the mixed-case class. */
  lemma {:induction false} UpperIsKeyword(s: seq<char>)
    requires All(s, UpperKeyword)
    ensures All(s, Keyword)
  {
    if s != [] {
      UpperIsKeyword(s[1..]);
    }
  }

  /** The run of `k` at the front of `s`, and what follows it: what a greedy
      `k*` consumes and where matching goes on. */
  function SplitRun(s: seq<char>, k: CharClass): (r: (seq<char>, seq<char>))
    ensures r.0 + r.1 == s
    ensures All(r.0, k)
    ensures r.1 == [] || !In(r.1[0], k)
  {
    if s == [] || !In(s[0], k) then
      assert [] + s == s;
      ([], s)
    else
      var (a, b) := SplitRun(s[1..], k);
      assert ([s[0]] + a)[1..] == a;
      assert [s[0]] + a + b == s;
      ([s[0]] + a, b)
  }

  /** A run of `k` followed by a character outside `k` (or by nothing) is
      exactly what `SplitRun` splits off. */
  lemma {:induction false} SplitRunOf(a: seq<char>, b: seq<char>, k: CharClass)
    requires All(a, k)
    requires b == [] || !In(b[0], k)
    ensures SplitRun(a + b, k) == (a, b)
  {
    if a != [] {
      assert (a + b)[0] == a[0];
      assert (a + b)[1..] == a[1..] + b;
      SplitRunOf(a[1..], b, k);
      assert [a[0]] + a[1..] == a;
    } else {
      assert a + b == b;
    }
  }

  /** `str::trim_start`. */
  function TrimStart(s: seq<char>): (r: seq<char>)
    ensures |r| <= |s|
    ensures r == s[|s| - |r|..]
    ensures AllSpace(s[..|s| - |r|])
    ensures r == [] || !IsSpace(r[0])
  {
    var (w, r) := SplitRun(s, Space);
    assert s[..|w|] == w && s[|w|..] == r;
    r
  }

  /** `str::trim_end`. */
  function TrimEnd(s: seq<char>): (r: seq<char>)
    ensures |r| <= |s|
    ensures r == s[..|r|]
    ensures AllSpace(s[|r|..])
    ensures r == [] || !IsSpace(r[|r| - 1])
  {
    if s != [] && IsSpace(s[|s| - 1]) then
      var init := s[..|s| - 1];
      var r := TrimEnd(init);
      assert s[|r|..] == init[|r|..] + [s[|s| - 1]];
      AllAppend(init[|r|..], [s[|s| - 1]], Space);
      r
    else s
  }

  /** `str::trim`. */
  function Trim(s: seq<char>): seq<char> {
    TrimEnd(TrimStart(s))
  }

  /** Leading white space does not change what `trim_start` returns. */
  lemma TrimStartOf(w: seq<char>, b: seq<char>)
    requires AllSpace(w)
    requires b == [] || !IsSpace(b[0])
    ensures TrimStart(w + b) == b
  {
    SplitRunOf(w, b, Space);
  }

  /** `trim_end` drops a last white-space character and goes on. */
  lemma TrimEndStep(s: seq<char>)
    requires s != [] && IsSpace(s[|s| - 1])
    ensures TrimEnd(s) == TrimEnd(s[..|s| - 1])
  {
  }

  /** Trailing white space is exactly what `trim_end` removes. */
  lemma {:induction false} TrimEndOf(a: seq<char>, w: seq<char>)
    requires AllSpace(w)
    requires a == [] || !IsSpace(a[|a| - 1])
    ensures TrimEnd(a + w) == a
    decreases |w|
  {
    if w == [] {
      assert a + w == a;
    } else {
      var s := a + w;
      var init := w[..|w| - 1];
      assert s[|s| - 1] == w[|w| - 1];
      assert s[..|s| - 1] == a + init;
      AllInit(w, Space);
      TrimEndStep(s);
      TrimEndOf(a, init);
    }
  }

  predicate StartsWith(s: seq<char>, prefix: seq<char>) {
    |prefix| <= |s| && s[..|prefix|] == prefix
  }

  lemma DropDrop(s: seq<char>, i: nat, j: nat)
    requires i + j <= |s|
    ensures s[i..][j..] == s[i + j..]
  {
  }

  /** `k` copies of `p`, one after the other. */
  function Repeat(p: seq<char>, k: nat): seq<char> {
    if k == 0 then [] else p + Repeat(p, k - 1)
  }

  /** One more copy of `p` in front of `k` copies followed by `r`. */
  lemma RepeatStep(p: seq<char>, t: seq<char>, r: seq<char>)
    requires exists k: nat :: t == Repeat(p, k) + r
    ensures exists k: nat :: p + t == Repeat(p, k) + r
  {
    var k: nat :| t == Repeat(p, k) + r;
    assert p + t == Repeat(p, k + 1) + r;
  }

  /** `str::trim_start_matches` with a non-empty literal pattern: removes the
      pattern from the front for as long as it is there. What it drops is a
      number of copies of the pattern. */
  function TrimStartMatches(s: seq<char>, p: seq<char>): (r: seq<char>)
    requires p != []
    ensures |r| <= |s|
    ensures exists k: nat :: s == Repeat(p, k) + r
    ensures !StartsWith(r, p)
    decreases |s|
  {
    if StartsWith(s, p) then
      var t := s[|p|..];
      var r := TrimStartMatches(t, p);
      assert s == p + t;
      RepeatStep(p, t, r);
      r
    else
      assert s == Repeat(p, 0) + s;
      s
  }

  /** Decimal value of a run of ASCII digits, read most significant first. */
  function DigitValue(c: char): nat
    requires IsDigit(c)
  {
    c as int - '0' as int
  }

  function DecimalValue(ds: seq<char>): (v: nat)
    requires All(ds, Digit)
  {
    if ds == [] then 0
    else
      AllInit(ds, Digit);
      DecimalValue(ds[..|ds| - 1]) * 10 + DigitValue(ds[|ds| - 1])
  }

  /** Decimal text of a natural number: the reference the values are checked against. */
  function DecimalText(v: nat): (ds: seq<char>)
    ensures All(ds, Digit)
    ensures ds != []
  {
    var d := ['0' + ((v % 10) as char)];
    if v < 10 then d
    else
      var p := DecimalText(v / 10);
      AllAppend(p, d, Digit);
      p + d
  }

  /** `DecimalValue` reads back what `DecimalText` writes. */
  lemma {:induction false} DecimalRoundTrip(v: nat)
    ensures DecimalValue(DecimalText(v)) == v
  {
    var d := ['0' + ((v % 10) as char)];
    if v >= 10 {
      var p := DecimalText(v / 10);
      DecimalRoundTrip(v / 10);
      AllAppend(p, d, Digit);
      assert (p + d)[..|p + d| - 1] == p;
    }
  }
}
