/** Rise, transit and set times of a fixed object for one observer and one
    day (internal/astro/riseset.go). */
module AstroRiseSet {
  import opened Wrappers
  import opened GoMath
  import opened GoTime
  import opened AstroTime
  import opened AstroObserver

  /** `RiseSetTransit`: `rise` and `setting` (Go: `Set`) are nil (`None`) when the object
      never rises or never sets. */
  datatype RiseSetTransit = RiseSetTransit(
    rise: Option<Instant>, setting: Option<Instant>, transit: Instant,
    neverRises: bool, circumpolar: bool)

  /** Standard altitude of a star at rising and setting, -0.833 degrees,
      in radians. */
  const H0Altitude: real := -0.833 * Pi / 180.0

  /** Sidereal-to-solar time ratio used to place the transit. */
  const SolarPerSidereal: real := 0.99726957

  /** How `cosH0` compares with [-1, 1]. A zero denominator gives Go an
      infinity of the numerator's sign; 0/0 is taken as 1. */
  datatype HorizonCase = NeverUp | AlwaysUp | RisesAndSets(cosH0: real)

  function Classify(num: real, den: real): (c: HorizonCase)
    ensures c.RisesAndSets? ==> -1.0 <= c.cosH0 <= 1.0
    ensures den != 0.0 ==> (c.NeverUp? <==> num / den > 1.0)
    ensures den != 0.0 ==> (c.AlwaysUp? <==> num / den < -1.0)
    ensures den != 0.0 && c.RisesAndSets? ==> c.cosH0 == num / den
  {
    if den == 0.0 then
      (if num > 0.0 then NeverUp else if num < 0.0 then AlwaysUp else RisesAndSets(1.0))
    else
      var q := num / den;
      if q > 1.0 then NeverUp else if q < -1.0 then AlwaysUp else RisesAndSets(q)
  }

  /** The horizon case of declination `dec` at latitude `lat` (degrees). */
  function HorizonCaseOf(m: MathLib, lat: real, dec: real): HorizonCase {
    var latRad := lat * Pi / 180.0;
    var decRad := dec * Pi / 180.0;
    Classify(m.sin(H0Altitude) - m.sin(latRad) * m.sin(decRad), m.cos(latRad) * m.cos(decRad))
  }

  /** Midnight (UTC) of the day `t` falls on: `time.Date(y, m, d, 0, 0, 0, 0, loc)`. */
  function Midnight(t: Instant): Instant {
    var c := CivilOf(t);
    Date(c.year, c.month, c.day, 0, 0, 0, 0)
  }

  /** The sidereal hours from midnight to the transit, before conversion to
      solar time: `ra - GMST(midnight) - longitude/15` wrapped into [0, 24). */
  function TransitSiderealHours(ra: real, o: Observer, date: Instant): (h: real)
    ensures 0.0 <= h < 24.0
  {
    Wrap24(ra - GMST(JulianDate(date)) - o.longitude / 15.0)
  }

  /** Whole hours and minutes of solar time after midnight at which the
      transit is placed. */
  function TransitClock(ra: real, o: Observer, date: Instant): (int, int) {
    var solar := TransitSiderealHours(ra, o, date) * SolarPerSidereal;
    var hours := Trunc(solar);
    (hours, Trunc((solar - hours as real) * 60.0))
  }

  /** `calculateTransit(ra, observer, date)` as a function. */
  function TransitAt(ra: real, o: Observer, date: Instant): Instant {
    var c := CivilOf(date);
    var (hours, minutes) := TransitClock(ra, o, date);
    Date(c.year, c.month, c.day, hours, minutes, 0, 0)
  }

  /** `calculateTransit(ra, observer, date)`; its two loops that bring the
      hours since midnight into [0, 24) are `WrapHours`. */
  method CalculateTransit(ra: real, o: Observer, date: Instant) returns (transit: Instant)
    ensures transit == TransitAt(ra, o, date)
  {
    var jd := JulianDate(date);
    var gmst0 := GMST(jd);
    var lonHours := o.longitude / 15.0;
    var hoursSinceMidnight := WrapHours(ra - gmst0 - lonHours);
    var solarHours := hoursSinceMidnight * SolarPerSidereal;
    var hours := Trunc(solarHours);
    var minutes := Trunc((solarHours - hours as real) * 60.0);
    assert (hours, minutes) == TransitClock(ra, o, date);
    var c := CivilOf(date);
    transit := Date(c.year, c.month, c.day, hours, minutes, 0, 0);
  }

  /** The transit is a whole minute of the day it is computed for: at most
      23:59 after that day's midnight. */
  lemma {:induction false} TransitWithinDay(ra: real, o: Observer, date: Instant)
    ensures var (hours, minutes) := TransitClock(ra, o, date);
      0 <= hours < 24 && 0 <= minutes < 60
      && TransitAt(ra, o, date) == Add(Midnight(date), hours * Hour + minutes * Minute)
    ensures Midnight(date).ns <= TransitAt(ra, o, date).ns < Midnight(date).ns + 24 * Hour
  {
    var h := TransitSiderealHours(ra, o, date);
    var solar := h * SolarPerSidereal;
    assert 0.0 <= solar < 24.0;
    var (hours, minutes) := TransitClock(ra, o, date);
    assert 0.0 <= (solar - hours as real) * 60.0 < 60.0;
    var c := CivilOf(date);
    DateClock(c.year, c.month, c.day, hours, minutes, 0, 0);
    assert hours * Hour + minutes * Minute <= 23 * Hour + 59 * Minute;
  }

  /** The rise/set half-arc `H0` in hours, for a cosine in [-1, 1]. */
  function HalfArcHours(m: MathLib, cosH0: real): real {
    m.acos(cosH0) * 180.0 / Pi / 15.0
  }

  /** `time.Duration(H0 * float64(time.Hour))`: nanoseconds, truncated. */
  function HalfArcDuration(m: MathLib, cosH0: real): int {
    Trunc(HalfArcHours(m, cosH0) * Hour as real)
  }

  /** `CalculateRiseSetTransit(ra, dec, observer, t)` as a function. */
  function RiseSetTransitAt(m: MathLib, ra: real, dec: real, o: Observer, t: Instant): RiseSetTransit {
    RiseSetTransitOn(m, ra, dec, o, Midnight(t))
  }

  /** What `CalculateRiseSetTransit` computes once it has the day's
      midnight `date`. */
  function RiseSetTransitOn(m: MathLib, ra: real, dec: real, o: Observer, date: Instant): RiseSetTransit {
    match HorizonCaseOf(m, o.latitude, dec)
    case NeverUp => RiseSetTransit(None, None, date, true, false)
    case AlwaysUp => RiseSetTransit(None, None, TransitAt(ra, o, date), false, true)
    case RisesAndSets(cosH0) => AboutTransit(TransitAt(ra, o, date), HalfArcDuration(m, cosH0))
  }

  /** Rise `d` before the transit and set `d` after it. */
  function AboutTransit(transit: Instant, d: int): RiseSetTransit {
    RiseSetTransit(Some(Add(transit, -d)), Some(Add(transit, d)), transit, false, false)
  }

  /** `CalculateRiseSetTransit(ra, dec, observer, t)`. */
  method CalculateRiseSetTransit(m: MathLib, ra: real, dec: real, o: Observer, t: Instant)
    returns (r: RiseSetTransit)
    ensures r == RiseSetTransitAt(m, ra, dec, o, t)
  {
    var date := Midnight(t);
    r := RiseSetTransitFrom(m, ra, dec, o, date);
  }

  /** The body of `CalculateRiseSetTransit` after midnight is found: the
      horizon case, then the transit and the half arc about it. */
  method RiseSetTransitFrom(m: MathLib, ra: real, dec: real, o: Observer, date: Instant)
    returns (r: RiseSetTransit)
    ensures r == RiseSetTransitOn(m, ra, dec, o, date)
  {
    var hc := HorizonCaseOf(m, o.latitude, dec);
    if hc.NeverUp? {
      return RiseSetTransit(None, None, date, true, false);
    }
    if hc.AlwaysUp? {
      var transitTime := CalculateTransit(ra, o, date);
      return RiseSetTransit(None, None, transitTime, false, true);
    }
    var transitTime := CalculateTransit(ra, o, date);
    var d := HalfArcDuration(m, hc.cosH0);
    var riseTime := Add(transitTime, -d);
    var setTime := Add(transitTime, d);
    r := RiseSetTransit(Some(riseTime), Some(setTime), transitTime, false, false);
    assert r == AboutTransit(transitTime, d);
  }

  /** The three outcomes are exclusive: an object that never rises has no
      rise or set and transits (nominally) at midnight; a circumpolar one has
      no rise or set; otherwise both exist, symmetric about the transit, and
      (given that `math.Acos` lands in [0, Pi]) no more than 12 hours from
      it. */
  lemma {:induction false} RiseSetTransitShape(m: MathLib, ra: real, dec: real, o: Observer, t: Instant)
    requires AcosInRange(m)
    ensures var r := RiseSetTransitAt(m, ra, dec, o, t);
      !(r.neverRises && r.circumpolar)
      && (r.neverRises ==> r.rise.None? && r.setting.None? && r.transit == Midnight(t))
      && (r.circumpolar ==> r.rise.None? && r.setting.None? && r.transit == TransitAt(ra, o, Midnight(t)))
      && (r.rise.Some? <==> !r.neverRises && !r.circumpolar)
      && (r.setting.Some? <==> r.rise.Some?)
    ensures var r := RiseSetTransitAt(m, ra, dec, o, t);
      r.rise.Some? ==>
        r.rise.value.ns <= r.transit.ns <= r.setting.value.ns
        && Sub(r.setting.value, r.transit) == Sub(r.transit, r.rise.value)
        && Sub(r.setting.value, r.transit) <= 12 * Hour
  {
    var hc := HorizonCaseOf(m, o.latitude, dec);
    if hc.RisesAndSets? {
      HalfArcBound(m, hc.cosH0);
    }
  }

  /** With `math.Acos` in [0, Pi], the half arc lies between 0 and 12 hours. */
  lemma HalfArcBound(m: MathLib, cosH0: real)
    requires AcosInRange(m)
    requires -1.0 <= cosH0 <= 1.0
    ensures 0 <= HalfArcDuration(m, cosH0) <= 12 * Hour
  {
    var a := m.acos(cosH0);
    assert 0.0 <= a <= Pi;
    var h := HalfArcHours(m, cosH0);
    assert h == a * (12.0 / Pi);
    assert 0.0 <= h <= 12.0 by {
      MulLeft(12.0 / Pi, a, Pi);
    }
    var x := h * Hour as real;
    assert 0.0 <= x <= 12.0 * Hour as real;
  }

  /** An object on the celestial equator seen from the equator rises and
      sets (its `cosH0` is within [-1, 1]) whenever `math.Sin` and
      `math.Cos` behave at 0 and at the standard altitude. */
  lemma EquatorialObjectRises(m: MathLib)
    requires m.sin(0.0) == 0.0 && m.cos(0.0) == 1.0
    requires -1.0 <= m.sin(H0Altitude) <= 1.0
    ensures HorizonCaseOf(m, 0.0, 0.0).RisesAndSets?
  {
  }

  /** `FormatTime(t)`: "---" for nil, else the hour and minute as "15:04". */
  function FormatTime(t: Option<Instant>): (s: string)
    ensures t.None? ==> s == "---"
    ensures t.Some? ==>
      |s| == 5 && s[2] == ':'
      && s[0..2] == FixedDigits(CivilOf(t.value).hour, 2)
      && s[3..5] == FixedDigits(CivilOf(t.value).minute, 2)
  {
    match t
    case None => "---"
    case Some(u) =>
      var c := CivilOf(u);
      FixedDigitsLength(c.hour, 2);
      FixedDigitsLength(c.minute, 2);
      FixedDigits(c.hour, 2) + ":" + FixedDigits(c.minute, 2)
  }
}
