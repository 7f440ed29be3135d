/**
 * Date strings as `strftime` writes them and `strptime` reads them, for the
 * three formats the core uses: "%Y-%m-%d" (the market-data client),
 * "%d/%m/%Y" (the broker client) and "%Y-%m-%dT%H:%M:%S%z" (broker cash
 * movements), with `%z` as Python 3.7 and later read it. Texts are ASCII: among them, a parser accepts exactly the
 * strings that Python's `_strptime` regular expression matches in full and
 * whose fields make a valid date.
 */
module DateFormats {
  import opened Wrappers
  import opened Calendar

  /** A `datetime.date` object: always a valid calendar date. */
  type PyDate = d: Date | ValidDate(d) witness Date(1, 1, 1)

  predicate IsDigit(c: char) { '0' <= c <= '9' }

  function DigitValue(c: char): int
    requires IsDigit(c)
  {
    c as int - '0' as int
  }

  function DigitChar(n: int): (c: char)
    requires 0 <= n <= 9
    ensures IsDigit(c) && DigitValue(c) == n
  {
    (n + '0' as int) as char
  }

  // ---------------------------------------------------------------------------
  // Splitting at a separator (Python's `str.split(sep)`)

  function Split(s: string, sep: char): (parts: seq<string>)
    ensures |parts| >= 1
  {
    if s == [] then [[]]
    else
      var rest := Split(s[1..], sep);
      if s[0] == sep then [[]] + rest else [[s[0]] + rest[0]] + rest[1..]
  }

  lemma {:induction false} SplitNoSeparator(s: string, sep: char)
    requires sep !in s
    ensures Split(s, sep) == [s]
  {
    if s != [] {
      assert s[1..] + [] == s[1..];
      SplitNoSeparator(s[1..], sep);
      assert [s[0]] + s[1..] == s;
    }
  }

  lemma {:induction false} SplitJoin(a: string, sep: char, b: string)
    requires sep !in a
    ensures Split(a + [sep] + b, sep) == [a] + Split(b, sep)
  {
    if a == [] {
      assert a + [sep] + b == [sep] + b;
      assert ([sep] + b)[1..] == b;
    } else {
      var s := a + [sep] + b;
      assert s[0] == a[0] && s[1..] == a[1..] + [sep] + b;
      SplitJoin(a[1..], sep, b);
      assert [a[0]] + a[1..] == a;
    }
  }

  // ---------------------------------------------------------------------------
  // Fields of `_strptime`'s regular expression

  /** `%Y`: exactly four digits. */
  function YearField(s: string): Option<int> {
    if |s| == 4 && IsDigit(s[0]) && IsDigit(s[1]) && IsDigit(s[2]) && IsDigit(s[3])
    then Some(1000 * DigitValue(s[0]) + 100 * DigitValue(s[1]) + 10 * DigitValue(s[2]) + DigitValue(s[3]))
    else None
  }

  /** `%m`: `1[0-2]|0[1-9]|[1-9]`. */
  function MonthField(s: string): Option<int> {
    if |s| == 1 && '1' <= s[0] <= '9' then Some(DigitValue(s[0]))
    else if |s| == 2 && s[0] == '1' && '0' <= s[1] <= '2' then Some(10 + DigitValue(s[1]))
    else if |s| == 2 && s[0] == '0' && '1' <= s[1] <= '9' then Some(DigitValue(s[1]))
    else None
  }

  /** `%d`: `3[01]|[12]\d|0[1-9]|[1-9]| [1-9]`. */
  function DayField(s: string): Option<int> {
    if |s| == 1 && '1' <= s[0] <= '9' then Some(DigitValue(s[0]))
    else if |s| == 2 && s[0] == '3' && '0' <= s[1] <= '1' then Some(30 + DigitValue(s[1]))
    else if |s| == 2 && '1' <= s[0] <= '2' && IsDigit(s[1]) then Some(10 * DigitValue(s[0]) + DigitValue(s[1]))
    else if |s| == 2 && (s[0] == '0' || s[0] == ' ') && '1' <= s[1] <= '9' then Some(DigitValue(s[1]))
    else None
  }

  /** `%H`: `2[0-3]|[0-1]\d|\d`. */
  function HourField(s: string): Option<int> {
    if |s| == 1 && IsDigit(s[0]) then Some(DigitValue(s[0]))
    else if |s| == 2 && s[0] == '2' && '0' <= s[1] <= '3' then Some(20 + DigitValue(s[1]))
    else if |s| == 2 && '0' <= s[0] <= '1' && IsDigit(s[1]) then Some(10 * DigitValue(s[0]) + DigitValue(s[1]))
    else None
  }

  /** `%M`: `[0-5]\d|\d`. */
  function MinuteField(s: string): Option<int> {
    if |s| == 1 && IsDigit(s[0]) then Some(DigitValue(s[0]))
    else if |s| == 2 && '0' <= s[0] <= '5' && IsDigit(s[1]) then Some(10 * DigitValue(s[0]) + DigitValue(s[1]))
    else None
  }

  /** `%S`: `6[0-1]|[0-5]\d|\d`; 60 and 61 pass the expression but `datetime` rejects them. */
  function SecondField(s: string): Option<int> {
    if |s| == 2 && s[0] == '6' && '0' <= s[1] <= '1' then None
    else MinuteField(s)
  }

  /** A date from its three fields, or None where `datetime.date` raises ValueError. */
  function MakeDate(y: Option<int>, m: Option<int>, d: Option<int>): (r: Option<PyDate>)
    ensures r.Some? ==> y == Some(r.value.year) && m == Some(r.value.month) && d == Some(r.value.day)
  {
    if y.Some? && m.Some? && d.Some? && ValidDate(Date(y.value, m.value, d.value))
    then Some(Date(y.value, m.value, d.value))
    else None
  }

  // ---------------------------------------------------------------------------
  // "%Y-%m-%d" and "%d/%m/%Y"

  /** `datetime.strptime(s, "%Y-%m-%d")`, None where it raises ValueError. */
  function ParseIso(s: string): Option<PyDate> {
    var parts := Split(s, '-');
    if |parts| != 3 then None
    else MakeDate(YearField(parts[0]), MonthField(parts[1]), DayField(parts[2]))
  }

  /** `datetime.strptime(s, "%d/%m/%Y")`, None where it raises ValueError. */
  function ParseDmy(s: string): Option<PyDate> {
    var parts := Split(s, '/');
    if |parts| != 3 then None
    else MakeDate(YearField(parts[2]), MonthField(parts[1]), DayField(parts[0]))
  }

  function Pad2(n: int): (s: string)
    requires 0 <= n <= 99
    ensures |s| == 2 && IsDigit(s[0]) && IsDigit(s[1])
    ensures 10 * DigitValue(s[0]) + DigitValue(s[1]) == n
  {
    [DigitChar(n / 10), DigitChar(n % 10)]
  }

  function Pad4(n: int): (s: string)
    requires 0 <= n <= 9999
    ensures |s| == 4 && forall i :: 0 <= i < 4 ==> IsDigit(s[i])
    ensures YearField(s) == Some(n)
  {
    var q1, d := n / 10, n % 10;
    var q2, c := q1 / 10, q1 % 10;
    var a, b := q2 / 10, q2 % 10;
    assert n == 10 * q1 + d && q1 == 10 * q2 + c && q2 == 10 * a + b;
    [DigitChar(a), DigitChar(b), DigitChar(c), DigitChar(d)]
  }

  /** `date.strftime("%Y-%m-%d")`. */
  function FormatIso(d: PyDate): (s: string)
    ensures |s| == 10 && s[4] == '-' && s[7] == '-'
    ensures forall i :: 0 <= i < 10 && i != 4 && i != 7 ==> IsDigit(s[i])
  {
    Pad4(d.year) + "-" + Pad2(d.month) + "-" + Pad2(d.day)
  }

  /** `date.strftime("%d/%m/%Y")`. */
  function FormatDmy(d: PyDate): (s: string)
    ensures |s| == 10 && s[2] == '/' && s[5] == '/'
    ensures forall i :: 0 <= i < 10 && i != 2 && i != 5 ==> IsDigit(s[i])
  {
    Pad2(d.day) + "/" + Pad2(d.month) + "/" + Pad4(d.year)
  }

  lemma PadFields(d: PyDate)
    ensures MonthField(Pad2(d.month)) == Some(d.month)
    ensures DayField(Pad2(d.day)) == Some(d.day)
  {
  }

  /** Reading back a formatted date gives the date. */
  lemma {:induction false} ParseIsoFormatIso(d: PyDate)
    ensures ParseIso(FormatIso(d)) == Some(d)
  {
    var y, m, dd := Pad4(d.year), Pad2(d.month), Pad2(d.day);
    assert FormatIso(d) == y + ['-'] + (m + ['-'] + dd);
    SplitJoin(y, '-', m + ['-'] + dd);
    SplitJoin(m, '-', dd);
    SplitNoSeparator(dd, '-');
    PadFields(d);
  }

  lemma {:induction false} ParseDmyFormatDmy(d: PyDate)
    ensures ParseDmy(FormatDmy(d)) == Some(d)
  {
    var y, m, dd := Pad4(d.year), Pad2(d.month), Pad2(d.day);
    assert FormatDmy(d) == dd + ['/'] + (m + ['/'] + y);
    SplitJoin(dd, '/', m + ['/'] + y);
    SplitJoin(m, '/', y);
    SplitNoSeparator(y, '/');
    PadFields(d);
  }

  // ---------------------------------------------------------------------------
  // `_get_date_string` of both API clients

  /** The `Union[str, date]` argument of `_get_date_string`. */
  datatype DateArg = DateValue(date: PyDate) | Text(text: string)

  /** `YF._get_date_string`: a date is formatted, a well-formed string passes unchanged. */
  function IsoDateString(x: DateArg): (r: Result<string>)
    ensures r.Ok? <==> x.DateValue? || ParseIso(x.text).Some?
    ensures r.Err? ==> r.error == ValueError
    ensures x.Text? && r.Ok? ==> r.value == x.text
    ensures x.DateValue? ==> r.Ok? && ParseIso(r.value) == Some(x.date)
  {
    match x
    case DateValue(d) => ParseIsoFormatIso(d); Ok(FormatIso(d))
    case Text(s) => if ParseIso(s).Some? then Ok(s) else Err(ValueError)
  }

  /** `DegiroAPI._get_date_string`, the same for "%d/%m/%Y". */
  function DmyDateString(x: DateArg): (r: Result<string>)
    ensures r.Ok? <==> x.DateValue? || ParseDmy(x.text).Some?
    ensures r.Err? ==> r.error == ValueError
    ensures x.Text? && r.Ok? ==> r.value == x.text
    ensures x.DateValue? ==> r.Ok? && ParseDmy(r.value) == Some(x.date)
  {
    match x
    case DateValue(d) => ParseDmyFormatDmy(d); Ok(FormatDmy(d))
    case Text(s) => if ParseDmy(s).Some? then Ok(s) else Err(ValueError)
  }

  /** Passing an accepted result back in returns it unchanged. */
  lemma IsoDateStringIdempotent(x: DateArg)
    requires IsoDateString(x).Ok?
    ensures IsoDateString(Text(IsoDateString(x).value)) == IsoDateString(x)
  {
  }

  lemma DmyDateStringIdempotent(x: DateArg)
    requires DmyDateString(x).Ok?
    ensures DmyDateString(Text(DmyDateString(x).value)) == DmyDateString(x)
  {
  }

  // ---------------------------------------------------------------------------
  // `re.compile(r'\d{4}-\d{2}-\d{2}').findall(s)[0]`

  predicate IsoPatternAt(s: string, i: nat) {
    i + 10 <= |s|
    && IsDigit(s[i]) && IsDigit(s[i + 1]) && IsDigit(s[i + 2]) && IsDigit(s[i + 3])
    && s[i + 4] == '-' && IsDigit(s[i + 5]) && IsDigit(s[i + 6])
    && s[i + 7] == '-' && IsDigit(s[i + 8]) && IsDigit(s[i + 9])
  }

  /** The start of the leftmost match at or after `from`, which is the first element `findall` returns. */
  function FirstIsoMatch(s: string, from: nat): (r: Option<nat>)
    ensures r.Some? ==> from <= r.value && IsoPatternAt(s, r.value)
    ensures forall j :: from <= j && (r.None? || j < r.value) ==> !IsoPatternAt(s, j)
    decreases |s| - from
  {
    if from + 10 > |s| then None
    else if IsoPatternAt(s, from) then Some(from)
    else FirstIsoMatch(s, from + 1)
  }

  // ---------------------------------------------------------------------------
  // Broker timestamps: "%Y-%m-%dT%H:%M:%S%z" (Python 3.7 or later)

  /**
   * A timezone-aware `datetime`; `date` is what `.date()` returns. The offset
   * is `_strptime`'s gmtoff in seconds and its gmtoff_fraction in
   * microseconds, the fraction carrying the sign of the offset.
   */
  datatype Timestamp = Timestamp(date: PyDate, hour: int, minute: int, second: int, offsetSeconds: int, offsetMicros: int)

  /** Index of the first `T` (the pattern is case-insensitive, so `t` too). */
  function FindT(s: string, from: nat): (r: Option<nat>)
    ensures r.Some? ==> from <= r.value < |s| && (s[r.value] == 'T' || s[r.value] == 't')
    decreases |s| - from
  {
    if from >= |s| then None
    else if s[from] == 'T' || s[from] == 't' then Some(from)
    else FindT(s, from + 1)
  }

  /** Index of the first `c` at or after `from`. */
  function CharIndex(s: string, c: char, from: nat): (r: Option<nat>)
    ensures r.Some? ==> from <= r.value < |s| && s[r.value] == c
    ensures forall j :: from <= j < |s| && (r.None? || j < r.value) ==> s[j] != c
    decreases |s| - from
  {
    if from >= |s| then None
    else if s[from] == c then Some(from)
    else CharIndex(s, c, from + 1)
  }

  /** Length of the run of digits at the start of `s`. */
  function DigitPrefix(s: string): (n: nat)
    ensures n <= |s| && forall i :: 0 <= i < n ==> IsDigit(s[i])
    ensures n < |s| ==> !IsDigit(s[n])
  {
    if s == [] || !IsDigit(s[0]) then 0 else 1 + DigitPrefix(s[1..])
  }

  function TwoDigits(s: string): Option<int> {
    if |s| == 2 && IsDigit(s[0]) && IsDigit(s[1]) then Some(10 * DigitValue(s[0]) + DigitValue(s[1])) else None
  }

  function Pow10(n: nat): (p: nat)
    ensures p >= 1
  {
    if n == 0 then 1 else 10 * Pow10(n - 1)
  }

  /** The decimal value of a run of digits, below ten to the power of its length. */
  function DigitsValue(ds: string): (v: nat)
    requires forall i :: 0 <= i < |ds| ==> IsDigit(ds[i])
    ensures v < Pow10(|ds|)
  {
    if ds == [] then 0 else 10 * DigitsValue(ds[..|ds| - 1]) + DigitValue(ds[|ds| - 1])
  }

  /** The `\d{1,6}` after the point, right-padded with zeros to six digits: microseconds. */
  function Microseconds(ds: string): (r: Option<int>)
    ensures r.Some? ==> 1 <= |ds| <= 6 && 0 <= r.value < 1000000
  {
    if 1 <= |ds| <= 6 && forall i :: 0 <= i < |ds| ==> IsDigit(ds[i]) then
      var padded := ds + seq(6 - |ds|, _ => '0');
      assert Pow10(6) == 1000000;
      Some(DigitsValue(padded))
    else None
  }

  /**
   * `%z` once its colons are gone: a sign, then `HHMM`, `HHMMSS` or
   * `HHMMSS.f` with one to six fraction digits; the offset must stay below
   * 24 hours, as `datetime.timezone` demands.
   */
  function CompactOffset(w: string): (r: Option<(int, int)>)
    requires |w| >= 5
    ensures r.Some? ==> -86400 < r.value.0 < 86400 && -1000000 < r.value.1 < 1000000
    ensures r.Some? ==> (r.value.0 <= 0 && r.value.1 <= 0) || (r.value.0 >= 0 && r.value.1 >= 0)
  {
    var h := TwoDigits(w[1..3]);
    var m := if '0' <= w[3] <= '5' then TwoDigits(w[3..5]) else None;
    var sec := if |w| == 5 then Some(0) else if |w| >= 7 && '0' <= w[5] <= '5' then TwoDigits(w[5..7]) else None;
    var frac := if |w| <= 7 then Some(0) else if w[7] == '.' then Microseconds(w[8..]) else None;
    if (w[0] == '+' || w[0] == '-') && h.Some? && m.Some? && sec.Some? && frac.Some? && h.value < 24 then
      var magnitude := 3600 * h.value + 60 * m.value + sec.value;
      if w[0] == '-' then Some((-magnitude, -frac.value)) else Some((magnitude, frac.value))
    else None
  }

  /**
   * `%z`: `Z`, or a sign and `HH:MM`, `HH:MM:SS`, `HH:MM:SS.f` with the colons
   * used both times or not at all (ValueError for a mix), as `_strptime`
   * reads it since Python 3.7. Seconds and microseconds of the offset.
   */
  function OffsetField(z: string): (r: Option<(int, int)>)
    ensures r.Some? ==> -86400 < r.value.0 < 86400 && -1000000 < r.value.1 < 1000000
  {
    if z == "Z" then Some((0, 0))
    else if |z| < 5 then None
    else if z[3] != ':' then CompactOffset(z)
    else if |z| == 6 then CompactOffset(z[..3] + z[4..])
    else if |z| > 6 && z[6] == ':' then CompactOffset(z[..3] + z[4..6] + z[7..])
    else None
  }

  /** An offset reads the same with its colons as without them: `+01:00` as `+0100`, `+01:00:30.5` as `+010030.5`. */
  lemma OffsetColonsAgree(sign: char, hh: string, mm: string, tail: string)
    requires |hh| == 2 && |mm| == 2 && mm[0] != ':'
    ensures OffsetField([sign] + hh + [':'] + mm + (if tail == [] then [] else [':'] + tail))
            == OffsetField([sign] + hh + mm + tail)
  {
    var w := [sign] + hh + mm + tail;
    var z := [sign] + hh + [':'] + mm + (if tail == [] then [] else [':'] + tail);
    assert w[3] == mm[0] && z[3] == ':';
    if tail == [] {
      assert z[..3] + z[4..] == w;
    } else {
      assert z[6] == ':';
      assert z[..3] + z[4..6] + z[7..] == w;
    }
  }

  /** The `%H:%M:%S%z` part of the format: hour, minute, second and the offset, split at its first two colons. */
  function ParseClock(s: string): Option<(int, int, int, int, int)> {
    match CharIndex(s, ':', 0)
    case None => None
    case Some(i) =>
      match CharIndex(s, ':', i + 1)
      case None => None
      case Some(j) =>
        var rest := s[j + 1..];
        var n := DigitPrefix(rest);
        var h, m, sec := HourField(s[..i]), MinuteField(s[i + 1..j]), SecondField(rest[..n]);
        var z := OffsetField(rest[n..]);
        if h.Some? && m.Some? && sec.Some? && z.Some? then Some((h.value, m.value, sec.value, z.value.0, z.value.1)) else None
  }

  /** `datetime.strptime(s, '%Y-%m-%dT%H:%M:%S%z')`, None where it raises ValueError. */
  function ParseTimestamp(s: string): (r: Option<Timestamp>)
    ensures r.Some? ==> exists i :: 0 <= i < |s| && ParseIso(s[..i]) == Some(r.value.date)
  {
    match FindT(s, 0)
    case None => None
    case Some(i) =>
      var date := ParseIso(s[..i]);
      var clock := ParseClock(s[i + 1..]);
      if date.None? || clock.None? then None
      else
        var (h, m, sec, z, zf) := clock.value;
        Some(Timestamp(date.value, h, m, sec, z, zf))
  }
}
