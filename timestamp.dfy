/** The `meta.lastDownloaded` timestamps: instants in whole seconds, written
    by `strftime("%Y-%m-%dT%H:%M:%S.000Z")` and read back by `strptime` with
    the same format, in UTC on the proleptic Gregorian calendar.

    An instant is the number of seconds since 0001-01-01T00:00:00Z, the
    earliest instant Python's `datetime` represents; the last one it
    represents is 9999-12-31T23:59:59Z. */
module Timestamp {
  import opened Wrappers

  const SecondsPerDay: int := 86400

  predicate Leap(y: int) {
    y % 4 == 0 && (y % 100 != 0 || y % 400 == 0)
  }

  function YearLength(y: int): int {
    if Leap(y) then 366 else 365
  }

  /** Days from 0001-01-01 to the first day of year `y`. */
  function DaysBeforeYear(y: int): int
    requires y >= 1
  {
    var n := y - 1;
    365 * n + n / 4 - n / 100 + n / 400
  }

  /** Stepping the dividend by one steps the quotient by one exactly at a
      multiple, for the three divisors of the leap-year rule. */
  lemma QuotientStep(n: int)
    requires n >= 0
    ensures (n + 1) / 4 == n / 4 + (if (n + 1) % 4 == 0 then 1 else 0)
    ensures (n + 1) / 100 == n / 100 + (if (n + 1) % 100 == 0 then 1 else 0)
    ensures (n + 1) / 400 == n / 400 + (if (n + 1) % 400 == 0 then 1 else 0)
  {
  }

  lemma DaysBeforeNextYear(y: int)
    requires y >= 1
    ensures DaysBeforeYear(y + 1) == DaysBeforeYear(y) + YearLength(y)
  {
    QuotientStep(y - 1);
  }

  lemma {:induction false} DaysBeforeYearMonotone(a: int, b: int)
    requires 1 <= a <= b
    ensures DaysBeforeYear(a) <= DaysBeforeYear(b)
    decreases b - a
  {
    if a < b {
      DaysBeforeNextYear(a);
      DaysBeforeYearMonotone(a + 1, b);
    }
  }

  function MonthLength(y: int, m: int): int
    requires 1 <= m <= 12
  {
    if m == 2 then (if Leap(y) then 29 else 28)
    else if m == 4 || m == 6 || m == 9 || m == 11 then 30
    else 31
  }

  /** Days from the first of January to the first day of month `m` of year `y`. */
  function DaysBeforeMonth(y: int, m: int): int
    requires 1 <= m <= 12
  {
    (if m > 2 && Leap(y) then 1 else 0) +
    (if m == 1 then 0 else if m == 2 then 31 else if m == 3 then 59
     else if m == 4 then 90 else if m == 5 then 120 else if m == 6 then 151
     else if m == 7 then 181 else if m == 8 then 212 else if m == 9 then 243
     else if m == 10 then 273 else if m == 11 then 304 else 334)
  }

  /** The year that day `days` (counted from the first day of year `y`) falls
      in, and the day of that year. */
  function YearOf(days: nat, y: int): (r: (int, nat))
    requires y >= 1
    ensures r.0 >= y && r.1 < YearLength(r.0)
    ensures DaysBeforeYear(r.0) + r.1 == DaysBeforeYear(y) + days
    decreases days
  {
    if days < YearLength(y) then (y, days)
    else
      DaysBeforeNextYear(y);
      YearOf(days - YearLength(y), y + 1)
  }

  /** The month, from `m` on, that day `doy` of year `y` falls in. */
  function MonthOf(y: int, doy: int, m: int): (r: int)
    requires 1 <= m <= 12 && DaysBeforeMonth(y, m) <= doy < YearLength(y)
    ensures m <= r <= 12
    ensures DaysBeforeMonth(y, r) <= doy < DaysBeforeMonth(y, r) + MonthLength(y, r)
    decreases 12 - m
  {
    if doy < DaysBeforeMonth(y, m) + MonthLength(y, m) then m
    else MonthOf(y, doy, m + 1)
  }

  datatype DateTime = DateTime(year: int, month: int, day: int, hour: int, minute: int, second: int)

  /** The date-times `datetime` accepts. */
  predicate Valid(c: DateTime) {
    && 1 <= c.year <= 9999
    && 1 <= c.month <= 12
    && 1 <= c.day <= MonthLength(c.year, c.month)
    && 0 <= c.hour < 24 && 0 <= c.minute < 60 && 0 <= c.second < 60
  }

  function ToInstant(c: DateTime): int
    requires Valid(c)
  {
    (DaysBeforeYear(c.year) + DaysBeforeMonth(c.year, c.month) + c.day - 1) * SecondsPerDay
    + c.hour * 3600 + c.minute * 60 + c.second
  }

  /** The first instant after 9999-12-31T23:59:59Z. */
  const EndOfTime: int := DaysBeforeYear(10000) * SecondsPerDay

  predicate InRange(t: int) {
    0 <= t < EndOfTime
  }

  /** The calendar date and time of an instant. */
  function ToDateTime(t: int): (c: DateTime)
    requires InRange(t)
    ensures Valid(c) && ToInstant(c) == t
  {
    var days := t / SecondsPerDay;
    var sod := t % SecondsPerDay;
    var (y, doy) := YearOf(days, 1);
    assert y <= 9999 by {
      if y > 9999 { DaysBeforeYearMonotone(10000, y); }
    }
    var m := MonthOf(y, doy, 1);
    DateTime(y, m, doy - DaysBeforeMonth(y, m) + 1, sod / 3600, sod % 3600 / 60, sod % 60)
  }

  function Pow10(n: nat): nat {
    if n == 0 then 1 else 10 * Pow10(n - 1)
  }

  predicate IsDigit(c: char) {
    '0' <= c <= '9'
  }

  function DigitChar(d: int): (c: char)
    requires 0 <= d < 10
    ensures IsDigit(c) && c as int - '0' as int == d
  {
    ('0' as int + d) as char
  }

  /** `n` in decimal, zero-padded to `width` digits (`%Y` pads to four,
      `%m %d %H %M %S` to two). */
  function Digits(n: nat, width: nat): (s: string)
    ensures |s| == width
  {
    if width == 0 then "" else Digits(n / 10, width - 1) + [DigitChar(n % 10)]
  }

  /** The value of a string of decimal digits; None if some character is not a digit. */
  function ParseDigits(s: string): Option<nat> {
    if s == [] then Some(0)
    else
      match ParseDigits(s[..|s| - 1])
      case None => None
      case Some(v) =>
        if IsDigit(s[|s| - 1]) then Some(v * 10 + (s[|s| - 1] as int - '0' as int)) else None
  }

  lemma {:induction false} ParseDigitsOfDigits(n: nat, width: nat)
    requires n < Pow10(width)
    ensures ParseDigits(Digits(n, width)) == Some(n)
  {
    if width > 0 {
      var s := Digits(n, width);
      assert s[..|s| - 1] == Digits(n / 10, width - 1);
      ParseDigitsOfDigits(n / 10, width - 1);
    }
  }

  /** A date-time in the `%Y-%m-%dT%H:%M:%S.000Z` layout. */
  function FormatDateTime(c: DateTime): (s: string)
    requires Valid(c)
    ensures |s| == 24
  {
    Digits(c.year, 4) + "-" + Digits(c.month, 2) + "-" + Digits(c.day, 2) + "T" +
    Digits(c.hour, 2) + ":" + Digits(c.minute, 2) + ":" + Digits(c.second, 2) + ".000Z"
  }

  /** `strftime("%Y-%m-%dT%H:%M:%S.000Z")`. */
  function Format(t: int): (s: string)
    requires InRange(t)
    ensures |s| == 24
  {
    FormatDateTime(ToDateTime(t))
  }

  /** `strptime(s, "%Y-%m-%dT%H:%M:%S.000Z")` on the fixed-width form; None
      where Python raises ValueError. */
  function Parse(s: string): Option<int> {
    if |s| != 24 || s[4] != '-' || s[7] != '-' || s[10] != 'T' || s[13] != ':' || s[16] != ':'
       || s[19..] != ".000Z"
    then None
    else
      var year, month, day := ParseDigits(s[0..4]), ParseDigits(s[5..7]), ParseDigits(s[8..10]);
      var hour, minute, second := ParseDigits(s[11..13]), ParseDigits(s[14..16]), ParseDigits(s[17..19]);
      if year.None? || month.None? || day.None? || hour.None? || minute.None? || second.None? then None
      else
        var c := DateTime(year.value, month.value, day.value, hour.value, minute.value, second.value);
        if Valid(c) then Some(ToInstant(c)) else None
  }

  /** The fields of the layout sit at fixed positions. */
  lemma LayoutSlices(y: string, mo: string, d: string, h: string, mi: string, se: string)
    requires |y| == 4 && |mo| == 2 && |d| == 2 && |h| == 2 && |mi| == 2 && |se| == 2
    ensures var s := y + "-" + mo + "-" + d + "T" + h + ":" + mi + ":" + se + ".000Z";
      && s[4] == '-' && s[7] == '-' && s[10] == 'T' && s[13] == ':' && s[16] == ':'
      && s[0..4] == y && s[5..7] == mo && s[8..10] == d
      && s[11..13] == h && s[14..16] == mi && s[17..19] == se && s[19..] == ".000Z"
  {
  }

  lemma ParseFormatDateTime(c: DateTime)
    requires Valid(c)
    ensures Parse(FormatDateTime(c)) == Some(ToInstant(c))
  {
    assert Pow10(2) == 100 && Pow10(4) == 10000;
    LayoutSlices(Digits(c.year, 4), Digits(c.month, 2), Digits(c.day, 2),
      Digits(c.hour, 2), Digits(c.minute, 2), Digits(c.second, 2));
    ParseDigitsOfDigits(c.year, 4);
    ParseDigitsOfDigits(c.month, 2);
    ParseDigitsOfDigits(c.day, 2);
    ParseDigitsOfDigits(c.hour, 2);
    ParseDigitsOfDigits(c.minute, 2);
    ParseDigitsOfDigits(c.second, 2);
  }

  /** Reading back what was written gives the same instant: the writer and
      the reader use one whole-second format. */
  lemma ParseFormat(t: int)
    requires InRange(t)
    ensures Parse(Format(t)) == Some(t)
  {
    ParseFormatDateTime(ToDateTime(t));
  }
}
