/** Time scales of the astronomy package: Julian Date, Greenwich and local
    sidereal time, and the fixed-width clock formatting used for sidereal
    time (internal/astro/time.go). */
module AstroTime {
  import opened GoMath
  import opened GoTime
  import Text

  /** Julian Date of the J2000.0 epoch, 2000-01-01 12:00 TT. */
  const J2000: real := 2451545.0

  // ---------------------------------------------------------- Julian Date

  /** The fraction of the month elapsed, counted in days from day 0; whole
      seconds only. */
  function DayFraction(c: Civil): real {
    c.day as real + c.hour as real / 24.0 + c.minute as real / 1440.0 + c.second as real / 86400.0
  }

  /** Meeus' formula on a date whose January and February have already been
      renumbered as months 13 and 14 of the previous year. The Gregorian
      correction uses Go's truncating integer division. */
  function MeeusJD(year: int, month: int, dayFraction: real): real {
    var a := Quot(year, 100);
    var b := 2 - a + Quot(a, 4);
    Floor(365.25 * (year + 4716) as real) as real + Floor(30.6001 * (month + 1) as real) as real
      + dayFraction + b as real - 1524.5
  }

  function JulianDateOfCivil(c: Civil): real {
    if c.month <= 2 then MeeusJD(c.year - 1, c.month + 12, DayFraction(c))
    else MeeusJD(c.year, c.month, DayFraction(c))
  }

  /** `JulianDate(t)`: the Julian Date of `t` read in UTC. */
  function JulianDate(t: Instant): real {
    JulianDateOfCivil(CivilOf(t))
  }

  /** The package's tests expect J2000.0 at 2000-01-01 12:00 UTC (exact
      here, not just within 0.001). */
  lemma JulianDateAtJ2000()
    ensures JulianDate(Date(2000, 1, 1, 12, 0, 0, 0)) == J2000
  {
    JulianDateAtJ2000Date();
    JulianDateAtJ2000Civil();
    JulianDateAtJ2000Meeus();
  }

  /** The instant of that date. */
  lemma JulianDateAtJ2000Date()
    ensures Date(2000, 1, 1, 12, 0, 0, 0) == Instant(946728000 * Second)
  {
    assert 1999 / 400 == 4 && (153 * 10 + 2) / 5 == 306 && 399 / 4 == 99 && 399 / 100 == 3;
    assert DaysFromCivil(2000, 1, 1) == 10957;
  }

  /** The civil date of day 10957 of the Unix calendar. */
  lemma JulianDateAtJ2000Days()
    ensures CivilFromDays(10957) == (2000, 1, 1)
  {
    assert 730425 / 146097 == 4 && 146037 / 1460 == 100 && 146037 / 36524 == 3;
    assert 146037 / 146096 == 0 && 145940 / 365 == 399 && (5 * 306 + 2) / 153 == 10;
  }

  /** The calendar fields of that instant. */
  lemma JulianDateAtJ2000Civil()
    ensures CivilOf(Instant(946728000 * Second)) == Civil(2000, 1, 1, 12, 0, 0, 0)
  {
    JulianDateAtJ2000Days();
    var t := Instant(946728000 * Second);
    assert t.ns / Second == 946728000;
    assert 946728000 / SecondsPerDay == 10957 && 946728000 % SecondsPerDay == 43200;
    assert 43200 / 3600 == 12 && 43200 % 3600 / 60 == 0 && 43200 % 60 == 0;
  }

  /** Meeus' formula on those fields. */
  lemma JulianDateAtJ2000Meeus()
    ensures JulianDateOfCivil(Civil(2000, 1, 1, 12, 0, 0, 0)) == J2000
  {
    assert Quot(1999, 100) == 19 && Quot(19, 4) == 4;
    assert Floor(365.25 * 6715.0) == 2452653;
    assert Floor(30.6001 * 14.0) == 428;
  }

  /** The package's tests expect 2440587.5 at the Unix epoch. */
  lemma JulianDateAtUnixEpoch()
    ensures JulianDate(Date(1970, 1, 1, 0, 0, 0, 0)) == 2440587.5
  {
    JulianDateAtUnixEpochDate();
    JulianDateAtUnixEpochCivil();
    JulianDateAtUnixEpochMeeus();
  }

  /** The instant of that date. */
  lemma JulianDateAtUnixEpochDate()
    ensures Date(1970, 1, 1, 0, 0, 0, 0) == Instant(0)
  {
    assert 1969 / 400 == 4 && (153 * 10 + 2) / 5 == 306 && 369 / 4 == 92 && 369 / 100 == 3;
    assert DaysFromCivil(1970, 1, 1) == 0;
  }

  /** The civil date of day 0 of the Unix calendar. */
  lemma JulianDateAtUnixEpochDays()
    ensures CivilFromDays(0) == (1970, 1, 1)
  {
    assert 719468 / 146097 == 4 && 135080 / 1460 == 92 && 135080 / 36524 == 3;
    assert 135080 / 146096 == 0 && 134991 / 365 == 369 && (5 * 306 + 2) / 153 == 10;
  }

  /** The calendar fields of that instant. */
  lemma JulianDateAtUnixEpochCivil()
    ensures CivilOf(Instant(0)) == Civil(1970, 1, 1, 0, 0, 0, 0)
  {
    JulianDateAtUnixEpochDays();
    var t := Instant(0);
    assert t.ns / Second == 0;
    assert 0 / SecondsPerDay == 0 && 0 % SecondsPerDay == 0;
    assert 0 / 3600 == 0 && 0 % 3600 / 60 == 0 && 0 % 60 == 0;
  }

  /** Meeus' formula on those fields. */
  lemma JulianDateAtUnixEpochMeeus()
    ensures JulianDateOfCivil(Civil(1970, 1, 1, 0, 0, 0, 0)) == 2440587.5
  {
    assert Quot(1969, 100) == 19 && Quot(19, 4) == 4;
    assert Floor(365.25 * 6685.0) == 2441696;
    assert Floor(30.6001 * 14.0) == 428;
  }

  /** The package's tests expect 2460676.5 at 2025-01-01 00:00 UTC. */
  lemma JulianDateAt2025()
    ensures JulianDate(Date(2025, 1, 1, 0, 0, 0, 0)) == 2460676.5
  {
    JulianDateAt2025Date();
    JulianDateAt2025Civil();
    JulianDateAt2025Meeus();
  }

  /** The instant of that date. */
  lemma JulianDateAt2025Date()
    ensures Date(2025, 1, 1, 0, 0, 0, 0) == Instant(1735689600 * Second)
  {
    assert 2024 / 400 == 5 && (153 * 10 + 2) / 5 == 306 && 24 / 4 == 6 && 24 / 100 == 0;
    assert DaysFromCivil(2025, 1, 1) == 20089;
  }

  /** The civil date of day 20089 of the Unix calendar. */
  lemma JulianDateAt2025Days()
    ensures CivilFromDays(20089) == (2025, 1, 1)
  {
    assert 739557 / 146097 == 5 && 9072 / 1460 == 6 && 9072 / 36524 == 0;
    assert 9072 / 146096 == 0 && 9066 / 365 == 24 && (5 * 306 + 2) / 153 == 10;
  }

  /** The calendar fields of that instant. */
  lemma JulianDateAt2025Civil()
    ensures CivilOf(Instant(1735689600 * Second)) == Civil(2025, 1, 1, 0, 0, 0, 0)
  {
    JulianDateAt2025Days();
    var t := Instant(1735689600 * Second);
    assert t.ns / Second == 1735689600;
    assert 1735689600 / SecondsPerDay == 20089 && 1735689600 % SecondsPerDay == 0;
  }

  /** Meeus' formula on those fields. */
  lemma JulianDateAt2025Meeus()
    ensures JulianDateOfCivil(Civil(2025, 1, 1, 0, 0, 0, 0)) == 2460676.5
  {
    assert Quot(2024, 100) == 20 && Quot(20, 4) == 5;
    assert Floor(365.25 * 6740.0) == 2461785;
    assert Floor(30.6001 * 14.0) == 428;
  }

  /** January and February count as months 13 and 14 of the previous year:
      the formula gives the same Julian Date either way. */
  lemma {:induction false} JanFebAsPreviousYear(c: Civil)
    requires c.month == 1 || c.month == 2
    ensures JulianDateOfCivil(c) == JulianDateOfCivil(c.(year := c.year - 1, month := c.month + 12))
  {
  }

  /** Within a month, one more day is one more Julian day, and one more hour
      is 1/24 of a day. */
  lemma {:induction false} JulianDateLinearInDay(c: Civil)
    ensures JulianDateOfCivil(c.(day := c.day + 1)) == JulianDateOfCivil(c) + 1.0
    ensures JulianDateOfCivil(c.(hour := c.hour + 1)) == JulianDateOfCivil(c) + 1.0 / 24.0
  {
    var (y, mo) := if c.month <= 2 then (c.year - 1, c.month + 12) else (c.year, c.month);
    assert DayFraction(c.(day := c.day + 1)) == DayFraction(c) + 1.0;
    assert DayFraction(c.(hour := c.hour + 1)) == DayFraction(c) + 1.0 / 24.0;
    MeeusJDShift(y, mo, DayFraction(c), 1.0);
    MeeusJDShift(y, mo, DayFraction(c), 1.0 / 24.0);
  }

  /** Meeus' formula is a translation in the day fraction. */
  lemma MeeusJDShift(year: int, month: int, f: real, delta: real)
    ensures MeeusJD(year, month, f + delta) == MeeusJD(year, month, f) + delta
  {
  }

  /** For non-negative years the correction term equals the Gregorian rule
      "drop the century leap days, restore every fourth". */
  lemma GregorianCorrection(year: int)
    requires year >= 0
    ensures 2 - Quot(year, 100) + Quot(Quot(year, 100), 4) == 2 - year / 100 + year / 400
  {
    var a := year / 100;
    assert Quot(year, 100) == a;
    assert Quot(a, 4) == a / 4;
    assert year == 100 * a + year % 100;
    assert a == 4 * (a / 4) + a % 4;
    assert year == 400 * (a / 4) + (100 * (a % 4) + year % 100);
  }

  /** A date's Julian Date does not depend on its sub-second part. */
  lemma JulianDateWholeSeconds(t: Instant)
    ensures JulianDate(t) == JulianDate(Instant(t.ns - t.ns % Second))
  {
    var u := Instant(t.ns - t.ns % Second);
    assert u.ns / Second == t.ns / Second;
    SameSecondSameFields(t, u);
  }

  /** `DaysSinceJ2000(t)`. */
  function DaysSinceJ2000(t: Instant): (d: real)
    ensures d + J2000 == JulianDate(t)
  {
    JulianDate(t) - J2000
  }

  // ------------------------------------------------------ sidereal time

  /** Greenwich Mean Sidereal Time in hours, for a Julian Date. */
  function GMST(jd: real): (h: real)
    ensures 0.0 <= h < 24.0
  {
    var d := jd - J2000;
    var t := d / 36525.0;
    var g := 280.46061837 + 360.98564736629 * d + 0.000387933 * t * t - t * t * t / 38710000.0;
    var g' := Fmod(g, 360.0);
    var g'' := if g' < 0.0 then g' + 360.0 else g';
    g'' / 15.0
  }

  /** The residue of `x` modulo 24 hours, in [0, 24). */
  function Wrap24(x: real): (r: real)
    ensures 0.0 <= r < 24.0
    ensures 0.0 <= x < 24.0 ==> r == x
  {
    x - 24.0 * Floor(x / 24.0) as real
  }

  /** Local sidereal time as a function: GMST plus the east longitude in
      hours, wrapped into [0, 24). */
  function LocalSiderealTime(jd: real, longitude: real): real {
    Wrap24(GMST(jd) + longitude / 15.0)
  }

  /** `LST(jd, longitude)`. */
  method LST(jd: real, longitude: real) returns (lst: real)
    ensures lst == LocalSiderealTime(jd, longitude)
    ensures 0.0 <= lst < 24.0
  {
    var gmst := GMST(jd);
    var lonHours := longitude / 15.0;
    lst := WrapHours(gmst + lonHours);
  }

  /** The two normalisation loops that `LST` and `calculateTransit` both
      run: add 24 while negative, then subtract 24 while 24 or more. */
  method WrapHours(x: real) returns (r: real)
    ensures r == Wrap24(x)
  {
    r := x;
    ghost var k: int := 0;
    while r < 0.0
      invariant r == x + 24.0 * k as real
      invariant k > 0 ==> r < 24.0
      decreases Floor(-r) + 1
    {
      r := r + 24.0;
      k := k + 1;
    }
    while r >= 24.0
      invariant r == x + 24.0 * k as real
      invariant r >= 0.0
      decreases Floor(r)
    {
      r := r - 24.0;
      k := k - 1;
    }
    Wrap24Shift(x, k);
  }

  /** Wrapping ignores whole turns of 24 hours. */
  lemma Wrap24Shift(x: real, k: int)
    requires 0.0 <= x + 24.0 * k as real < 24.0
    ensures Wrap24(x) == x + 24.0 * k as real
  {
    var f := Floor(x / 24.0);
    assert x / 24.0 + k as real == (x + 24.0 * k as real) / 24.0;
    assert f == -k;
  }

  /** Wrapping is unchanged by adding whole days of sidereal hours. */
  lemma Wrap24Periodic(x: real, k: int)
    ensures Wrap24(x + 24.0 * k as real) == Wrap24(x)
  {
    var r := Wrap24(x);
    Wrap24Shift(x, -Floor(x / 24.0));
    Wrap24Shift(x + 24.0 * k as real, -Floor(x / 24.0) - k);
  }

  /** At Greenwich local sidereal time is GMST, as the package's test of
      `LST(jd, 0)` expects. */
  lemma LocalSiderealTimeAtGreenwich(jd: real)
    ensures LocalSiderealTime(jd, 0.0) == GMST(jd)
  {
  }

  /** Moving 15 degrees east adds one hour, modulo 24. */
  lemma {:induction false} LocalSiderealTimeEastward(jd: real, longitude: real)
    ensures LocalSiderealTime(jd, longitude + 15.0) == Wrap24(LocalSiderealTime(jd, longitude) + 1.0)
  {
    var x := GMST(jd) + longitude / 15.0;
    var k := Floor(x / 24.0);
    Wrap24Shift(x, -k);
    assert LocalSiderealTime(jd, longitude) == x - 24.0 * k as real;
    assert (longitude + 15.0) / 15.0 == longitude / 15.0 + 1.0;
    Wrap24Periodic(x + 1.0, -k);
  }

  // ---------------------------------------------------------- formatting

  /** The character `rune('0' + d)` for a remainder `d` of Go's `%` by 10;
      a negative remainder gives a character below '0'. */
  function RemDigit(d: int): char
    requires -9 <= d <= 9
  {
    ('0' as int + d) as char
  }

  /** What `formatInt(n, width)` returns: the `width` lowest decimal digits of
      `n`, most significant first, using Go's truncating `%` and `/`. */
  function FixedDigits(n: int, width: nat): string
    decreases width
  {
    if width == 0 then ""
    else FixedDigits(Quot(n, 10), width - 1) + [RemDigit(Rem(n, 10))]
  }

  /** `formatInt(n, width)`: the loop prepends one digit per iteration. */
  method FormatInt(n: int, width: int) returns (s: string)
    ensures s == FixedDigits(n, if width < 0 then 0 else width)
    ensures |s| == if width < 0 then 0 else width
  {
    s := "";
    var m := n;
    var i := 0;
    ghost var w: nat := if width < 0 then 0 else width;
    while i < width
      invariant 0 <= i <= w
      invariant FixedDigits(n, w) == FixedDigits(m, w - i) + s
      invariant |s| == i
    {
      FixedDigitsSplit(m, w - i);
      s := [RemDigit(Rem(m, 10))] + s;
      m := Quot(m, 10);
      i := i + 1;
    }
  }

  lemma {:induction false} FixedDigitsSplit(n: int, k: nat)
    requires k > 0
    ensures FixedDigits(n, k) == FixedDigits(Quot(n, 10), k - 1) + [RemDigit(Rem(n, 10))]
  {
  }

  function Pow10(k: nat): (p: nat)
    ensures p >= 1
  {
    if k == 0 then 1 else 10 * Pow10(k - 1)
  }

  /** For a non-negative `n`, `formatInt` yields exactly `width` decimal digits
      denoting `n mod 10^width`: zero-padded when `n` is short, the high
      digits dropped when it is long. */
  lemma {:induction false} FixedDigitsValue(n: int, width: nat)
    requires n >= 0
    decreases width
    ensures |FixedDigits(n, width)| == width
    ensures forall i :: 0 <= i < width ==> '0' <= FixedDigits(n, width)[i] <= '9'
    ensures Text.DecimalValue(FixedDigits(n, width)) == n % Pow10(width)
  {
    if width > 0 {
      var q := n / 10;
      FixedDigitsValue(q, width - 1);
      var s := FixedDigits(n, width);
      assert s[..|s| - 1] == FixedDigits(q, width - 1);
      assert Text.DecimalValue(s) == (q % Pow10(width - 1)) * 10 + n % 10;
      ModPow10(n, width);
    }
  }

  lemma ModPow10(n: nat, width: nat)
    requires width > 0
    ensures n % Pow10(width) == (n / 10 % Pow10(width - 1)) * 10 + n % 10
  {
    var p := Pow10(width - 1);
    var q, d := n / 10, n % 10;
    var a, r := q / p, q % p;
    assert Pow10(width) == 10 * p;
    assert n == (a * p + r) * 10 + d;
    assert n == a * (10 * p) + (r * 10 + d);
    assert r * 10 + d < 10 * p;
    DivModUnique(n, 10 * p, a, r * 10 + d);
  }

  /** The Euclidean quotient and remainder are the only such pair. */
  lemma DivModUnique(n: int, b: int, a: int, r: int)
    requires b > 0 && n == a * b + r && 0 <= r < b
    ensures n % b == r
  {
    var q, s := n / b, n % b;
    assert n == q * b + s;
    assert (q - a) * b == r - s;
    if q > a {
      MulAtLeast(q - a, b);
    } else if q < a {
      assert (a - q) * b == s - r;
      MulAtLeast(a - q, b);
    }
  }

  lemma MulAtLeast(k: int, b: int)
    requires k >= 1 && b > 0
    ensures k * b >= b
  {
  }

  /** `formatTime(h, m, s)`: three fixed two-digit fields. */
  function FormatTime(h: int, m: int, s: int): (r: string)
    ensures |r| == 8 && r[2] == ':' && r[5] == ':'
    ensures r[0..2] == FixedDigits(h, 2) && r[3..5] == FixedDigits(m, 2) && r[6..8] == FixedDigits(s, 2)
  {
    FixedDigitsLength(h, 2);
    FixedDigitsLength(m, 2);
    FixedDigitsLength(s, 2);
    FixedDigits(h, 2) + ":" + FixedDigits(m, 2) + ":" + FixedDigits(s, 2)
  }

  lemma {:induction false} FixedDigitsLength(n: int, width: nat)
    ensures |FixedDigits(n, width)| == width
    decreases width
  {
    if width > 0 {
      FixedDigitsLength(Quot(n, 10), width - 1);
    }
  }

  /** The hour, minute and second `FormatSiderealTime` takes apart, each by
      truncating `int()` conversion. */
  function SiderealFields(hours: real): (int, int, int) {
    var h := Trunc(hours);
    var m := Trunc((hours - h as real) * 60.0);
    var s := Trunc(((hours - h as real) * 60.0 - m as real) * 60.0);
    (h, m, s)
  }

  /** `FormatSiderealTime(hours)`. */
  function FormatSiderealTime(hours: real): string {
    var (h, m, s) := SiderealFields(hours);
    FormatTime(h, m, s)
  }

  /** Two-digit formatting of a number below 100. */
  lemma {:induction false} TwoDigits(n: int)
    requires 0 <= n < 100
    ensures FixedDigits(n, 2) == [Text.DigitChar(n / 10), Text.DigitChar(n % 10)]
  {
    assert FixedDigits(n, 2) == FixedDigits(Quot(n, 10), 1) + [RemDigit(Rem(n, 10))];
    assert FixedDigits(Quot(n, 10), 1) == FixedDigits(Quot(Quot(n, 10), 10), 0) + [RemDigit(Rem(Quot(n, 10), 10))];
  }

  /** For a sidereal time in [0, 24) the fields are a valid clock reading. */
  lemma SiderealFieldsRange(hours: real)
    requires 0.0 <= hours < 24.0
    ensures var (h, m, s) := SiderealFields(hours);
      0 <= h < 24 && 0 <= m < 60 && 0 <= s < 60
  {
    var (h, m, s) := SiderealFields(hours);
    var f := hours - h as real;
    assert 0.0 <= f < 1.0;
    assert 0.0 <= f * 60.0 < 60.0;
    var g := f * 60.0 - m as real;
    assert 0.0 <= g < 1.0;
    assert 0.0 <= g * 60.0 < 60.0;
  }

  /** For a sidereal time in [0, 24) the text is "hh:mm:ss", two digits
      each, denoting exactly the hour, minute and second fields. */
  lemma FormatSiderealTimeShape(hours: real)
    requires 0.0 <= hours < 24.0
    ensures var (h, m, s) := SiderealFields(hours);
      var r := FormatSiderealTime(hours);
      |r| == 8 && r[2] == ':' && r[5] == ':'
      && Text.DecimalValue(r[0..2]) == h && Text.DecimalValue(r[3..5]) == m
      && Text.DecimalValue(r[6..8]) == s
  {
    var (h, m, s) := SiderealFields(hours);
    SiderealFieldsRange(hours);
    TwoDigits(h);
    TwoDigits(m);
    TwoDigits(s);
        TwoDigitValue(h);
    TwoDigitValue(m);
    TwoDigitValue(s);
  }

  lemma TwoDigitValue(n: int)
    requires 0 <= n < 100
    ensures Text.DecimalValue([Text.DigitChar(n / 10), Text.DigitChar(n % 10)]) == n
  {
    var t := [Text.DigitChar(n / 10), Text.DigitChar(n % 10)];
    assert t[..1] == [Text.DigitChar(n / 10)];
    assert t[..1][..0] == [];
    assert Text.DecimalValue(t[..1]) == n / 10;
    assert Text.DecimalValue(t) == (n / 10) * 10 + n % 10;
  }

  /** The package's test: 23.9999 hours reads "23:59:59" (truncated, not
      rounded up to the next day). */
  lemma FormatSiderealTimeAlmostMidnight()
    ensures FormatSiderealTime(23.9999) == "23:59:59"
  {
    assert SiderealFields(23.9999) == (23, 59, 59);
    TwoDigits(23);
    TwoDigits(59);
  }

  /** The package's test: 6.5 hours reads "06:30:00". */
  lemma FormatSiderealTimeHalfPastSix()
    ensures FormatSiderealTime(6.5) == "06:30:00"
  {
    assert SiderealFields(6.5) == (6, 30, 0);
    TwoDigits(6);
    TwoDigits(30);
    TwoDigits(0);
  }

  /** The package's tests: 0 and 12 hours read "00:00:00" and "12:00:00". */
  lemma FormatSiderealTimeWholeHours()
    ensures FormatSiderealTime(0.0) == "00:00:00"
    ensures FormatSiderealTime(12.0) == "12:00:00"
  {
    assert SiderealFields(0.0) == (0, 0, 0);
    assert SiderealFields(12.0) == (12, 0, 0);
    TwoDigits(12);
    TwoDigits(0);
  }
}
