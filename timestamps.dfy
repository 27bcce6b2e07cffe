/** UTC date-times as the scripts write and read them: the text format
    "%Y-%m-%d %H:%M:%S" (always 19 characters, fields zero-padded), the
    difference of two date-times in seconds as Python's `datetime`
    subtraction computes it (proleptic Gregorian calendar), and the
    "%Y-%m" month key that names the monthly log file. */
module Timestamps {
  import opened Wrappers

  datatype DateTime = DateTime(year: int, month: int, day: int, hour: int, minute: int, second: int)

  predicate IsLeapYear(y: int) {
    y % 4 == 0 && (y % 100 != 0 || y % 400 == 0)
  }

  function DaysInMonth(y: int, m: int): int
    requires 1 <= m <= 12
  {
    if m == 2 then (if IsLeapYear(y) then 29 else 28)
    else if m == 4 || m == 6 || m == 9 || m == 11 then 30
    else 31
  }

  /** The range `datetime` accepts: years 1 to 9999, real calendar days,
      seconds 0 to 59. */
  predicate Valid(t: DateTime) {
    1 <= t.year <= 9999 && 1 <= t.month <= 12 && 1 <= t.day <= DaysInMonth(t.year, t.month)
    && 0 <= t.hour < 24 && 0 <= t.minute < 60 && 0 <= t.second < 60
  }

  /** A date-time `datetime` can hold. */
  type Instant = t: DateTime | Valid(t) witness DateTime(1970, 1, 1, 0, 0, 0)

  // ---- digits ----

  predicate IsDigit(c: char) { '0' <= c <= '9' }

  function DigitChar(n: int): (c: char)
    requires 0 <= n < 10
    ensures IsDigit(c)
  {
    (48 + n) as char
  }

  function DigitValue(c: char): (n: int)
    requires IsDigit(c)
    ensures 0 <= n < 10 && DigitChar(n) == c
  {
    c as int - 48
  }

  /** `n` zero-padded to two digits, as `%m`, `%d`, `%H`, `%M`, `%S` print it. */
  function Pad2(n: int): (s: string)
    requires 0 <= n < 100
    ensures |s| == 2 && IsDigit(s[0]) && IsDigit(s[1])
  {
    [DigitChar(n / 10), DigitChar(n % 10)]
  }

  /** `n` zero-padded to four digits, as `%Y` prints it. */
  function Pad4(n: int): (s: string)
    requires 0 <= n < 10000
    ensures |s| == 4 && forall i :: 0 <= i < 4 ==> IsDigit(s[i])
  {
    [DigitChar(n / 1000), DigitChar(n / 100 % 10), DigitChar(n / 10 % 10), DigitChar(n % 10)]
  }

  function Value2(s: string): (n: int)
    requires |s| == 2 && IsDigit(s[0]) && IsDigit(s[1])
    ensures 0 <= n < 100
  {
    10 * DigitValue(s[0]) + DigitValue(s[1])
  }

  function Value4(s: string): (n: int)
    requires |s| == 4 && forall i :: 0 <= i < 4 ==> IsDigit(s[i])
    ensures 0 <= n < 10000
  {
    1000 * DigitValue(s[0]) + 100 * DigitValue(s[1]) + 10 * DigitValue(s[2]) + DigitValue(s[3])
  }

  lemma Pad2RoundTrip(n: int)
    requires 0 <= n < 100
    ensures Value2(Pad2(n)) == n
  {
  }

  lemma Value2RoundTrip(s: string)
    requires |s| == 2 && IsDigit(s[0]) && IsDigit(s[1])
    ensures Pad2(Value2(s)) == s
  {
    var a, b := DigitValue(s[0]), DigitValue(s[1]);
    assert (10 * a + b) / 10 == a && (10 * a + b) % 10 == b;
  }

  lemma Pad4RoundTrip(n: int)
    requires 0 <= n < 10000
    ensures Value4(Pad4(n)) == n
  {
    var a, b, c, d := n / 1000, n / 100 % 10, n / 10 % 10, n % 10;
    assert n == 1000 * a + 100 * b + 10 * c + d by {
      assert n == 10 * (n / 10) + d;
      assert n / 10 == 10 * (n / 100) + c;
      assert n / 100 == 10 * a + b;
    }
  }

  lemma Value4RoundTrip(s: string)
    requires |s| == 4 && forall i :: 0 <= i < 4 ==> IsDigit(s[i])
    ensures Pad4(Value4(s)) == s
  {
    var a, b, c, d := DigitValue(s[0]), DigitValue(s[1]), DigitValue(s[2]), DigitValue(s[3]);
    var n := 1000 * a + 100 * b + 10 * c + d;
    assert n / 1000 == a;
    assert n / 100 == 10 * a + b;
    assert n / 100 % 10 == b;
    assert n / 10 == 100 * a + 10 * b + c;
    assert n / 10 % 10 == c;
    assert n % 10 == d;
  }

  // ---- text form ----

  /** `t.strftime("%Y-%m-%d %H:%M:%S")`. */
  function Format(t: DateTime): (s: string)
    requires Valid(t)
    ensures |s| == 19 && forall i :: 0 <= i < 19 ==> IsDigit(s[i]) || s[i] in "- :"
  {
    Pad4(t.year) + "-" + Pad2(t.month) + "-" + Pad2(t.day) + " "
    + Pad2(t.hour) + ":" + Pad2(t.minute) + ":" + Pad2(t.second)
  }

  /** The digit positions of the 19-character format. */
  predicate DigitsAt(s: string)
    requires |s| == 19
  {
    forall i :: 0 <= i < 19 && i != 4 && i != 7 && i != 10 && i != 13 && i != 16 ==> IsDigit(s[i])
  }

  /** `datetime.strptime(s, "%Y-%m-%d %H:%M:%S")` for fixed-width text:
      `None` where Python raises `ValueError` (wrong shape, or a field out
      of range such as month 13, 30 February or second 60). */
  function Parse(s: string): (r: Option<DateTime>)
    ensures r.Some? ==> Valid(r.value)
  {
    if |s| == 19 && s[4] == '-' && s[7] == '-' && s[10] == ' ' && s[13] == ':' && s[16] == ':'
       && DigitsAt(s)
    then
      var t := DateTime(Value4(s[0..4]), Value2(s[5..7]), Value2(s[8..10]),
                        Value2(s[11..13]), Value2(s[14..16]), Value2(s[17..19]));
      if Valid(t) then Some(t) else None
    else None
  }

  /** Every date-time the scripts write is read back as itself. */
  lemma ParseFormat(t: DateTime)
    requires Valid(t)
    ensures Parse(Format(t)) == Some(t)
  {
    var s := Format(t);
    assert s[0..4] == Pad4(t.year);
    assert s[5..7] == Pad2(t.month);
    assert s[8..10] == Pad2(t.day);
    assert s[11..13] == Pad2(t.hour);
    assert s[14..16] == Pad2(t.minute);
    assert s[17..19] == Pad2(t.second);
    Pad4RoundTrip(t.year);
    Pad2RoundTrip(t.month);
    Pad2RoundTrip(t.day);
    Pad2RoundTrip(t.hour);
    Pad2RoundTrip(t.minute);
    Pad2RoundTrip(t.second);
  }

  /** Conversely, the text the parser accepts is exactly the formatted text
      of what it returns, so the parser accepts nothing but that format. */
  lemma FormatParse(s: string)
    requires Parse(s).Some?
    ensures Format(Parse(s).value) == s
  {
    var t := Parse(s).value;
    Value4RoundTrip(s[0..4]);
    Value2RoundTrip(s[5..7]);
    Value2RoundTrip(s[8..10]);
    Value2RoundTrip(s[11..13]);
    Value2RoundTrip(s[14..16]);
    Value2RoundTrip(s[17..19]);
    assert s == s[0..4] + "-" + s[5..7] + "-" + s[8..10] + " " + s[11..13] + ":" + s[14..16] + ":" + s[17..19];
  }

  // ---- arithmetic on date-times ----

  /** Days before 1 January of year `y`, counted from 1 January of year 1. */
  function DaysBeforeYear(y: int): int {
    var y1 := y - 1;
    y1 * 365 + y1 / 4 - y1 / 100 + y1 / 400
  }

  /** Days in the months of year `y` before month `m`. */
  function DaysBeforeMonth(y: int, m: int): int
    requires 1 <= m <= 12
  {
    var table := [0, 31, 59, 90, 120, 151, 181, 212, 243, 273, 304, 334];
    table[m - 1] + (if m > 2 && IsLeapYear(y) then 1 else 0)
  }

  /** `t.toordinal()`: 1 January of year 1 is day 1. */
  function Ordinal(t: DateTime): int
    requires Valid(t)
  {
    DaysBeforeYear(t.year) + DaysBeforeMonth(t.year, t.month) + t.day
  }

  /** Seconds since the start of day 0 of the ordinal count; differences of
      these are what `(a - b).total_seconds()` gives for whole-second values. */
  function EpochSeconds(t: DateTime): int
    requires Valid(t)
  {
    Ordinal(t) * 86400 + t.hour * 3600 + t.minute * 60 + t.second
  }

  /** `(now - then).total_seconds()` for whole-second date-times. */
  function ElapsedSeconds(now: DateTime, last: DateTime): int
    requires Valid(now) && Valid(last)
  {
    EpochSeconds(now) - EpochSeconds(last)
  }

  // ---- the monthly partition ----

  /** `t.strftime("%Y-%m")`. */
  function MonthKey(t: DateTime): (s: string)
    requires Valid(t)
    ensures |s| == 7
  {
    Pad4(t.year) + "-" + Pad2(t.month)
  }

  /** Two date-times share a month key exactly when they fall in the same
      calendar month of the same year: one log file per month. */
  lemma MonthKeySame(a: DateTime, b: DateTime)
    requires Valid(a) && Valid(b)
    ensures MonthKey(a) == MonthKey(b) <==> a.year == b.year && a.month == b.month
  {
    if MonthKey(a) == MonthKey(b) {
      assert MonthKey(a)[0..4] == Pad4(a.year) && MonthKey(b)[0..4] == Pad4(b.year);
      assert MonthKey(a)[5..7] == Pad2(a.month) && MonthKey(b)[5..7] == Pad2(b.month);
      Pad4RoundTrip(a.year);
      Pad4RoundTrip(b.year);
      Pad2RoundTrip(a.month);
      Pad2RoundTrip(b.month);
    }
  }
}
