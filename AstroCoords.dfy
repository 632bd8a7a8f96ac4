/** Conversions between equatorial (RA/Dec) and horizontal (Alt/Az)
    coordinates, and the RA/Dec text formats (internal/astro/coords.go).
    Right ascension is in hours, everything else in degrees; azimuth is
    measured from north through east. */
module AstroCoords {
  import opened GoMath
  import opened GoTime
  import opened AstroTime
  import opened AstroObserver
  import Text

  datatype Equatorial = Equatorial(ra: real, dec: real)
  datatype Horizontal = Horizontal(altitude: real, azimuth: real)

  /** `2.0 * math.Pi`, written out (doubling is exact in float64). */
  const TwoPi: real := 6.283185307179586

  lemma TwoPiIsTwicePi()
    ensures TwoPi == 2.0 * Pi
  {
  }

  function Radians(deg: real): real {
    deg * Pi / 180.0
  }

  function Degrees(rad: real): real {
    rad * 180.0 / Pi
  }

  // ------------------------------------------------ equatorial -> horizontal

  /** The hour angle, in radians, of right ascension `ra` at local sidereal
      time `lst` (both in hours). */
  function HourAngle(ra: real, lst: real): real {
    lst * 15.0 * Pi / 180.0 - ra * 15.0 * Pi / 180.0
  }

  /** The sine rule step both conversions share: the sine of the third
      coordinate from `sin a sin b + cos a cos b cos c`. */
  function SphericalSine(m: MathLib, a: real, b: real, c: real): real {
    m.sin(a) * m.sin(b) + m.cos(a) * m.cos(b) * m.cos(c)
  }

  /** The cosine rule step both conversions share, clamped into [-1, 1]
      before `math.Acos`: `(sin a - sin lat * s) / (cos lat * cos asin(s))`. */
  function ClampedCosine(m: MathLib, a: real, lat: real, s: real): real {
    ClampedQuotient(m.sin(a) - m.sin(lat) * s, m.cos(lat) * m.cos(m.asin(s)))
  }

  /** The angle from `math.Acos`, reflected to the other half-turn when the
      sine of `side` is positive. */
  function Quadrant(m: MathLib, cosine: real, side: real): real {
    var angle := m.acos(cosine);
    if m.sin(side) > 0.0 then 2.0 * Pi - angle else angle
  }

  /** The spherical-triangle step of `EquatorialToHorizontal`, for a known
      local sidereal time. */
  function HorizontalAt(m: MathLib, eq: Equatorial, lat: real, lst: real): Horizontal {
    var decRad := Radians(eq.dec);
    var latRad := Radians(lat);
    var ha := HourAngle(eq.ra, lst);
    var sinAlt := SphericalSine(m, decRad, latRad, ha);
    var azimuth := Quadrant(m, ClampedCosine(m, decRad, latRad, sinAlt), ha);
    Horizontal(Degrees(m.asin(sinAlt)), Degrees(azimuth))
  }

  /** `EquatorialToHorizontal(eq, observer, t)`. */
  function EquatorialToHorizontal(m: MathLib, eq: Equatorial, o: Observer, t: Instant): Horizontal {
    HorizontalAt(m, eq, o.latitude, LocalSiderealTimeAt(o, t))
  }

  /** Given the ranges of `math.Asin` and `math.Acos`, the altitude is in
      [-90, 90] and the azimuth in [0, 360]; objects west of the meridian
      (positive sine of the hour angle) get an azimuth of at least 180. */
  lemma {:induction false} HorizontalInRange(m: MathLib, eq: Equatorial, lat: real, lst: real)
    requires AsinInRange(m) && AcosInRange(m)
    ensures var hz := HorizontalAt(m, eq, lat, lst);
      -90.0 <= hz.altitude <= 90.0 && 0.0 <= hz.azimuth <= 360.0
    ensures var hz := HorizontalAt(m, eq, lat, lst);
      m.sin(HourAngle(eq.ra, lst)) > 0.0 ==> 180.0 <= hz.azimuth
    ensures var hz := HorizontalAt(m, eq, lat, lst);
      m.sin(HourAngle(eq.ra, lst)) <= 0.0 ==> hz.azimuth <= 180.0
  {
    var decRad := Radians(eq.dec);
    var latRad := Radians(lat);
    var ha := HourAngle(eq.ra, lst);
    var sinAlt := SphericalSine(m, decRad, latRad, ha);
    var altitude := m.asin(sinAlt);
    var az0 := m.acos(ClampedCosine(m, decRad, latRad, sinAlt));
    assert -Pi / 2.0 <= altitude <= Pi / 2.0;
    assert 0.0 <= az0 <= Pi;
    DegreesMonotone(-Pi / 2.0, altitude);
    DegreesMonotone(altitude, Pi / 2.0);
    DegreesMonotone(0.0, az0);
    DegreesMonotone(az0, Pi);
    DegreesMonotone(Pi, 2.0 * Pi - az0);
    DegreesMonotone(2.0 * Pi - az0, 2.0 * Pi);
  }

  lemma DegreesMonotone(a: real, b: real)
    requires a <= b
    ensures Degrees(a) <= Degrees(b)
  {
  }

  /** The package's zenith test: a star whose declination is the observer's
      latitude and whose right ascension is the local sidereal time has
      altitude 90 degrees (exactly, given sin^2 + cos^2 = 1, cos 0 = 1 and
      asin 1 = Pi/2). */
  lemma {:induction false} ZenithStar(m: MathLib, o: Observer, t: Instant)
    requires ZenithLaws(m)
    ensures var lst := LocalSiderealTimeAt(o, t);
      EquatorialToHorizontal(m, Equatorial(lst, o.latitude), o, t).altitude == 90.0
  {
    ZenithAt(m, o.latitude, LocalSiderealTimeAt(o, t));
  }

  lemma ZenithAt(m: MathLib, lat: real, lst: real)
    requires ZenithLaws(m)
    ensures HorizontalAt(m, Equatorial(lst, lat), lat, lst).altitude == 90.0
  {
    var r := Radians(lat);
    assert HourAngle(lst, lst) == 0.0;
    var sr, cr := m.sin(r), m.cos(r);
    assert sr * sr + cr * cr == 1.0;
    assert SphericalSine(m, r, r, 0.0) == 1.0;
    assert Degrees(Pi / 2.0) == 90.0;
  }

  // ------------------------------------------------ horizontal -> equatorial

  /** The residue of an angle modulo a full turn, in [0, 2 Pi). */
  function WrapTurn(x: real): (r: real)
    ensures 0.0 <= r < TwoPi
    ensures 0.0 <= x < TwoPi ==> r == x
  {
    x - TwoPi * Floor(x / TwoPi) as real
  }

  lemma WrapTurnShift(x: real, k: int)
    requires 0.0 <= x + TwoPi * k as real < TwoPi
    ensures WrapTurn(x) == x + TwoPi * k as real
  {
    var y := x + TwoPi * k as real;
    var f := Floor(x / TwoPi);
    assert x / TwoPi + k as real == y / TwoPi;
    assert 0.0 <= y / TwoPi < 1.0;
    assert f as real <= x / TwoPi < f as real + 1.0;
    assert f == -k;
  }

  /** The hour angle and declination step of `HorizontalToEquatorial`,
      before the right ascension is normalised. */
  function DecAndHourAngle(m: MathLib, hz: Horizontal, lat: real): (real, real) {
    var altRad := Radians(hz.altitude);
    var azRad := Radians(hz.azimuth);
    var latRad := Radians(lat);
    var sinDec := SphericalSine(m, altRad, latRad, azRad);
    (m.asin(sinDec), Quadrant(m, ClampedCosine(m, altRad, latRad, sinDec), azRad))
  }

  /** What `HorizontalToEquatorial` returns for a known local sidereal time. */
  function EquatorialAt(m: MathLib, hz: Horizontal, lat: real, lst: real): Equatorial {
    var dh := DecAndHourAngle(m, hz, lat);
    Equatorial(Degrees(RightAscensionTurn(lst, dh.1)) / 15.0, Degrees(dh.0))
  }

  /** The right ascension in radians, in [0, 2 Pi), for a local sidereal
      time and an hour angle. */
  function RightAscensionTurn(lst: real, ha: real): real {
    WrapTurn(lst * 15.0 * Pi / 180.0 - ha)
  }

  /** The source's two loops that bring the right ascension into
      [0, 2 Pi), one turn at a time. */
  method NormalizeTurn(lst: real, ha: real) returns (ra: real)
    ensures ra == RightAscensionTurn(lst, ha)
  {
    var x := lst * 15.0 * Pi / 180.0 - ha;
    ra := x;
    ghost var k: int := 0;
    while ra < 0.0
      invariant ra == x + TwoPi * k as real
      invariant k > 0 ==> ra < TwoPi
      decreases Floor(-ra) + 1
    {
      ra := ra + 2.0 * Pi;
      k := k + 1;
    }
    while ra >= 2.0 * Pi
      invariant ra == x + TwoPi * k as real
      invariant ra >= 0.0
      decreases Floor(ra)
    {
      ra := ra - 2.0 * Pi;
      k := k - 1;
    }
    WrapTurnShift(x, k);
  }

  /** `HorizontalToEquatorial(hz, observer, t)`. */
  method HorizontalToEquatorial(m: MathLib, hz: Horizontal, o: Observer, t: Instant) returns (eq: Equatorial)
    ensures eq == EquatorialAt(m, hz, o.latitude, LocalSiderealTimeAt(o, t))
    ensures 0.0 <= eq.ra < 24.0
  {
    var lst := AstroObserver.LST(o, t);
    var dh := DecAndHourAngle(m, hz, o.latitude);
    var dec, ha := dh.0, dh.1;
    var ra := NormalizeTurn(lst, ha);
    eq := Equatorial((ra * 180.0 / Pi) / 15.0, dec * 180.0 / Pi);
  }

  /** Given the range of `math.Asin`, the declination is in [-90, 90], and
      the right ascension is always in [0, 24). */
  lemma {:induction false} EquatorialInRange(m: MathLib, hz: Horizontal, lat: real, lst: real)
    requires AsinInRange(m)
    ensures var eq := EquatorialAt(m, hz, lat, lst);
      -90.0 <= eq.dec <= 90.0 && 0.0 <= eq.ra < 24.0
  {
    var (dec, ha) := DecAndHourAngle(m, hz, lat);
    var ra := WrapTurn(lst * 15.0 * Pi / 180.0 - ha);
    assert -Pi / 2.0 <= dec <= Pi / 2.0;
    DegreesMonotone(-Pi / 2.0, dec);
    DegreesMonotone(dec, Pi / 2.0);
    DegreesMonotone(0.0, ra);
    assert Degrees(ra) < 360.0;
  }

  // -------------------------------------------------------------- formats

  /** `formatFloat(f, width, precision)`: the integer part in
      `width - precision - 1` digits, a point, then the truncated fraction in
      `precision` digits. */
  function FormatFloat(f: real, width: int, precision: nat): string {
    var i := Trunc(f);
    var frac := Trunc((f - i as real) * Pow10(precision) as real);
    var w := width - precision - 1;
    FixedDigits(i, if w < 0 then 0 else w) + "." + FixedDigits(frac, precision)
  }

  /** Hours (or degrees), minutes and seconds; the seconds keep their
      fraction. */
  function Sexagesimal(x: real): (int, int, real) {
    var h := Trunc(x);
    var m := Trunc((x - h as real) * 60.0);
    var s := ((x - h as real) * 60.0 - m as real) * 60.0;
    (h, m, s)
  }

  /** `FormatRA(hours)`: "HHh MMm SS.Ss". */
  function FormatRA(hours: real): string {
    var (h, m, s) := Sexagesimal(hours);
    FixedDigits(h, 2) + "h " + FixedDigits(m, 2) + "m " + FormatFloat(s, 4, 1) + "s"
  }

  /** `FormatDec(degrees)`: a sign, then "DD° MM' SS.S\"" of the magnitude. */
  function FormatDec(degrees: real): string {
    var sign := if degrees < 0.0 then "-" else "+";
    var (d, m, s) := Sexagesimal(AbsR(degrees));
    sign + FixedDigits(d, 2) + "° " + FixedDigits(m, 2) + "' " + FormatFloat(s, 4, 1) + "\""
  }

  /** For `x` in [0, 100) the fields are in range: minutes and seconds below
      60, the whole seconds and the tenths digit each a valid digit count. */
  lemma SexagesimalRange(x: real)
    requires 0.0 <= x < 100.0
    ensures var (h, m, s) := Sexagesimal(x);
      0 <= h < 100 && 0 <= m < 60 && 0.0 <= s < 60.0
  {
    var (h, m, s) := Sexagesimal(x);
    var f := x - h as real;
    assert 0.0 <= f < 1.0;
    var g := f * 60.0 - m as real;
    assert 0.0 <= g < 1.0;
  }

  /** The seconds field "SS.S" for seconds in [0, 60): four characters, a
      point in the middle, the whole seconds then the truncated tenths. */
  lemma {:induction false} SecondsField(s: real)
    requires 0.0 <= s < 60.0
    ensures var r := FormatFloat(s, 4, 1);
      |r| == 4 && r[2] == '.'
      && r[0..2] == FixedDigits(Trunc(s), 2)
      && r[3..4] == FixedDigits(Trunc((s - Trunc(s) as real) * 10.0), 1)
  {
    assert Pow10(1) == 10;
    FixedDigitsLength(Trunc(s), 2);
    FixedDigitsLength(Trunc((s - Trunc(s) as real) * 10.0), 1);
  }

  /** Right ascensions in [0, 24) print as "HHh MMm SS.Ss": thirteen
      characters with the hour and minute fields as two digits each. */
  lemma {:induction false} FormatRAShape(hours: real)
    requires 0.0 <= hours < 24.0
    ensures var (h, m, s) := Sexagesimal(hours);
      var r := FormatRA(hours);
      |r| == 13 && r[2..4] == "h " && r[6..8] == "m " && r[12] == 's'
      && r[0..2] == FixedDigits(h, 2) && r[4..6] == FixedDigits(m, 2)
      && r[8..12] == FormatFloat(s, 4, 1)
  {
    var (h, m, s) := Sexagesimal(hours);
    SexagesimalRange(hours);
    SecondsField(s);
    FixedDigitsLength(h, 2);
    FixedDigitsLength(m, 2);
    RALayout(FixedDigits(h, 2), FixedDigits(m, 2), FormatFloat(s, 4, 1));
  }

  /** Where the fields of "HHh MMm SS.Ss" sit. */
  lemma RALayout(hh: string, mm: string, ss: string)
    requires |hh| == 2 && |mm| == 2 && |ss| == 4
    ensures var r := hh + "h " + mm + "m " + ss + "s";
      |r| == 13 && r[2..4] == "h " && r[6..8] == "m " && r[12] == 's'
      && r[0..2] == hh && r[4..6] == mm && r[8..12] == ss
  {
    var r := hh + "h " + mm + "m " + ss + "s";
    assert r[0..2] == hh;
    assert r[2..4] == "h ";
    assert r[4..6] == mm;
    assert r[6..8] == "m ";
    assert r[8..12] == ss;
  }

  /** A declination prints its sign first, and the rest of the text depends
      only on the magnitude: a southern declination reads like the northern
      one with '-' for '+'. */
  lemma {:induction false} FormatDecSign(degrees: real)
    ensures FormatDec(degrees)[0] == (if degrees < 0.0 then '-' else '+')
    ensures degrees > 0.0 ==> FormatDec(-degrees)[1..] == FormatDec(degrees)[1..]
  {
  }

  /** Declinations in (-100, 100) print as sign, "DD° MM' SS.S\"": fourteen
      characters. */
  lemma {:induction false} FormatDecShape(degrees: real)
    requires -100.0 < degrees < 100.0
    ensures var (d, m, s) := Sexagesimal(AbsR(degrees));
      var r := FormatDec(degrees);
      |r| == 14 && r[3..5] == "° " && r[7..9] == "' " && r[13] == '"'
      && r[1..3] == FixedDigits(d, 2) && r[5..7] == FixedDigits(m, 2)
      && r[9..13] == FormatFloat(s, 4, 1)
  {
    var (d, m, s) := Sexagesimal(AbsR(degrees));
    SexagesimalRange(AbsR(degrees));
    SecondsField(s);
    FixedDigitsLength(d, 2);
    FixedDigitsLength(m, 2);
    var sign: string := if degrees < 0.0 then "-" else "+";
    DecLayout(sign, FixedDigits(d, 2), FixedDigits(m, 2), FormatFloat(s, 4, 1));
  }

  /** Where the fields of "±DD° MM' SS.S\"" sit. */
  lemma DecLayout(sign: string, dd: string, mm: string, ss: string)
    requires |sign| == 1 && |dd| == 2 && |mm| == 2 && |ss| == 4
    ensures var r := sign + dd + "° " + mm + "' " + ss + "\"";
      |r| == 14 && r[3..5] == "° " && r[7..9] == "' " && r[13] == '"'
      && r[1..3] == dd && r[5..7] == mm && r[9..13] == ss
  {
    var r := sign + dd + "° " + mm + "' " + ss + "\"";
    assert r[1..3] == dd;
    assert r[3..5] == "° ";
    assert r[5..7] == mm;
    assert r[7..9] == "' ";
    assert r[9..13] == ss;
  }

  /** Whole seconds of zero print as "00.0". */
  lemma ZeroSeconds()
    ensures FormatFloat(0.0, 4, 1) == "00.0"
  {
    assert Pow10(1) == 10;
    TwoDigits(0);
    assert FixedDigits(0, 1) == FixedDigits(0, 0) + [RemDigit(Rem(0, 10))];
  }

  /** A right ascension whose fields are `h`, `m` and zero seconds prints
      them as `hh`, `mm` and "00.0". */
  lemma RAWholeFields(x: real, h: int, m: int, hh: string, mm: string)
    requires Sexagesimal(x) == (h, m, 0.0) && FixedDigits(h, 2) == hh && FixedDigits(m, 2) == mm
    ensures FormatRA(x) == hh + "h " + mm + "m " + "00.0" + "s"
  {
    ZeroSeconds();
  }

  /** The same for a declination, after its sign. */
  lemma DecWholeFields(x: real, h: int, m: int, hh: string, mm: string)
    requires Sexagesimal(AbsR(x)) == (h, m, 0.0) && FixedDigits(h, 2) == hh && FixedDigits(m, 2) == mm
    ensures FormatDec(x) == (if x < 0.0 then "-" else "+") + hh + "° " + mm + "' " + "00.0" + "\""
  {
    ZeroSeconds();
  }

  lemma TwoDigitsOf(n: int, d: string)
    requires 0 <= n < 100 && d == [Text.DigitChar(n / 10), Text.DigitChar(n % 10)]
    ensures FixedDigits(n, 2) == d
  {
    TwoDigits(n);
  }

  lemma SexagesimalOfWhole(x: real, n: int)
    requires 0 <= n && x == n as real
    ensures Sexagesimal(x) == (n, 0, 0.0)
  {
  }

  lemma SexagesimalOfHalf(x: real, n: int)
    requires 0 <= n && x == n as real + 0.5
    ensures Sexagesimal(x) == (n, 30, 0.0)
  {
    assert Trunc(x) == n;
    assert (x - n as real) * 60.0 == 30.0;
  }

  lemma FormatRAAtZero()
    ensures FormatRA(0.0) == "00h 00m 00.0s"
  {
    SexagesimalOfWhole(0.0, 0);
    TwoDigitsOf(0, "00");
    RAWholeFields(0.0, 0, 0, "00", "00");
  }

  lemma FormatRAAtNoon()
    ensures FormatRA(12.0) == "12h 00m 00.0s"
  {
    SexagesimalOfWhole(12.0, 12);
    TwoDigitsOf(12, "12");
    TwoDigitsOf(0, "00");
    RAWholeFields(12.0, 12, 0, "12", "00");
  }

  lemma FormatRAAtHalfPastSix()
    ensures FormatRA(6.5) == "06h 30m 00.0s"
  {
    SexagesimalOfHalf(6.5, 6);
    TwoDigitsOf(6, "06");
    TwoDigitsOf(30, "30");
    RAWholeFields(6.5, 6, 30, "06", "30");
  }

  /** The package's examples for right ascension: 0, 12 and 6.5 hours read
      "00h", "12h" and "06h 30m" at the start. */
  lemma FormatRAExamples()
    ensures FormatRA(0.0) == "00h 00m 00.0s"
    ensures FormatRA(12.0) == "12h 00m 00.0s"
    ensures FormatRA(6.5) == "06h 30m 00.0s"
  {
    FormatRAAtZero();
    FormatRAAtNoon();
    FormatRAAtHalfPastSix();
  }

  lemma FormatDecAtZero()
    ensures FormatDec(0.0) == "+00° 00' 00.0\""
  {
    SexagesimalOfWhole(0.0, 0);
    TwoDigitsOf(0, "00");
    DecWholeFields(0.0, 0, 0, "00", "00");
  }

  lemma FormatDecAtFortyFive()
    ensures FormatDec(45.0) == "+45° 00' 00.0\""
  {
    assert AbsR(45.0) == 45.0;
    SexagesimalOfWhole(45.0, 45);
    TwoDigitsOf(45, "45");
    TwoDigitsOf(0, "00");
    DecWholeFields(45.0, 45, 0, "45", "00");
  }

  lemma FormatDecAtMinusThirty()
    ensures FormatDec(-30.0) == "-30° 00' 00.0\""
  {
    assert AbsR(-30.0) == 30.0;
    SexagesimalOfWhole(30.0, 30);
    TwoDigitsOf(30, "30");
    TwoDigitsOf(0, "00");
    DecWholeFields(-30.0, 30, 0, "30", "00");
  }

  /** The package's examples for declination: 0, 45 and -30 degrees read
      "+00°", "+45°" and "-30°" at the start. */
  lemma FormatDecExamples()
    ensures FormatDec(0.0) == "+00° 00' 00.0\""
    ensures FormatDec(45.0) == "+45° 00' 00.0\""
    ensures FormatDec(-30.0) == "-30° 00' 00.0\""
  {
    FormatDecAtZero();
    FormatDecAtFortyFive();
    FormatDecAtMinusThirty();
  }
}
