/** Sun, Moon and planet positions (internal/astro/planets.go). The Meeus
    library routines the source calls are foreign code and are passed in as
    an `Ephemeris`; the orbital-element table, the Kepler iteration, the
    body tagging and the body order are modelled as written. */
module AstroPlanets {
  import opened Wrappers
  import opened GoMath
  import opened GoTime
  import opened AstroObserver
  import opened AstroCoords

  /** `BodyType`; `Untyped` is Go's zero value "". */
  datatype BodyType = SunBody | MoonBody | PlanetBody | Untyped

  datatype Planet = Planet(name: string, bodyType: BodyType, ra: real, dec: real,
                           altitude: real, azimuth: real, magnitude: real)

  datatype PlanetarySystem = PlanetarySystem(
    sun: Planet, moon: Planet, mercury: Planet, venus: Planet, mars: Planet,
    jupiter: Planet, saturn: Planet, uranus: Planet, neptune: Planet)

  /** The Meeus routines the source relies on:
      `julian.TimeToJD`, `solar.ApparentEquatorial` (RA in hours, Dec in
      degrees), `moonposition.Position` (in Meeus the Moon's ecliptic
      longitude and latitude; the source reads the first as a right
      ascension in radians and the second as a declination in degrees, and
      so does this model),
      `solar.ApparentLongitude` (radians), `nutation.MeanObliquity` and
      `EclToEq` (ecliptic longitude, latitude and obliquity to RA in hours
      and Dec in degrees). */
  datatype Ephemeris = Ephemeris(
    timeToJD: Instant -> real,
    sunEquatorial: real -> (real, real),
    moonEquatorial: real -> (real, real),
    sunLongitude: real -> real,
    meanObliquity: real -> real,
    eclToEq: (real, real, real) -> (real, real))

  /** The seven planets the element table knows, in `CalculatePlanets`
      order. */
  datatype PlanetId = Mercury | Venus | Mars | Jupiter | Saturn | Uranus | Neptune

  const PlanetIds: seq<PlanetId> := [Mercury, Venus, Mars, Jupiter, Saturn, Uranus, Neptune]

  function NameOf(id: PlanetId): string {
    match id
    case Mercury => "Mercury" case Venus => "Venus" case Mars => "Mars"
    case Jupiter => "Jupiter" case Saturn => "Saturn" case Uranus => "Uranus"
    case Neptune => "Neptune"
  }

  /** The case labels of the source's `switch name`. */
  function PlanetOf(name: string): (r: Option<PlanetId>)
    ensures r.Some? ==> NameOf(r.value) == name
  {
    if name == "Mercury" then Some(Mercury)
    else if name == "Venus" then Some(Venus)
    else if name == "Mars" then Some(Mars)
    else if name == "Jupiter" then Some(Jupiter)
    else if name == "Saturn" then Some(Saturn)
    else if name == "Uranus" then Some(Uranus)
    else if name == "Neptune" then Some(Neptune)
    else None
  }

  /** Every planet's own name selects it. */
  lemma PlanetOfName(id: PlanetId)
    ensures PlanetOf(NameOf(id)) == Some(id)
  {
  }

  /** The zero `Planet` with only a name: the unknown-body fallback. */
  function UnknownPlanet(name: string): (p: Planet)
    ensures p.name == name && p.bodyType == Untyped
    ensures p.ra == 0.0 && p.dec == 0.0 && p.altitude == 0.0 && p.azimuth == 0.0
    ensures p.magnitude == 0.0
  {
    Planet(name, Untyped, 0.0, 0.0, 0.0, 0.0, 0.0)
  }

  /** Mean longitude, semi-major axis, eccentricity, inclination, longitude
      of perihelion and longitude of the ascending node (angles in degrees). */
  datatype Elements = Elements(L: real, a: real, e: real, i: real, omega: real, node: real)

  /** The element table, with `T` in Julian centuries from J2000.0. */
  function ElementsOf(id: PlanetId, T: real): Elements {
    match id
    case Mercury =>
      Elements(252.25 + 149474.07 * T, 0.387098, 0.205635 + 0.000020 * T,
               7.005 - 0.006 * T, 77.46 - 0.16 * T, 48.33 + 0.04 * T)
    case Venus =>
      Elements(181.98 + 58519.21 * T, 0.723330, 0.006773 - 0.000042 * T,
               3.395 - 0.008 * T, 131.56 - 0.05 * T, 76.68 + 0.28 * T)
    case Mars =>
      Elements(355.43 + 19141.70 * T, 1.523688, 0.093405 + 0.000090 * T,
               1.850 - 0.007 * T, 336.06 + 0.44 * T, 49.56 - 0.29 * T)
    case Jupiter =>
      Elements(34.35 + 3036.30 * T, 5.202603, 0.048498 - 0.000163 * T,
               1.303 - 0.002 * T, 14.33 + 0.21 * T, 100.46 - 0.11 * T)
    case Saturn =>
      Elements(50.08 + 1223.51 * T, 9.554909, 0.055546 - 0.000347 * T,
               2.489 - 0.004 * T, 93.06 + 0.57 * T, 113.67 - 0.26 * T)
    case Uranus =>
      Elements(314.05 + 429.86 * T, 19.218446, 0.047318 - 0.000018 * T,
               0.773 + 0.001 * T, 173.01 + 0.10 * T, 74.01 - 0.04 * T)
    case Neptune =>
      Elements(304.35 + 219.88 * T, 30.110387, 0.008606 + 0.000002 * T,
               1.770 - 0.001 * T, 48.12 - 0.04 * T, 131.78 - 0.02 * T)
  }

  /** Each element is affine in `T`: its change over an interval `U` does
      not depend on where the interval starts, so
      `x(T + U) + x(0) == x(T) + x(U)` field by field. */
  lemma ElementsAffine(id: PlanetId, T: real, U: real)
    ensures var x, y, z, c := ElementsOf(id, T + U), ElementsOf(id, T), ElementsOf(id, U), ElementsOf(id, 0.0);
      x.L + c.L == y.L + z.L && x.a + c.a == y.a + z.a && x.e + c.e == y.e + z.e
      && x.i + c.i == y.i + z.i && x.omega + c.omega == y.omega + z.omega
      && x.node + c.node == y.node + z.node
  {
  }

  /** Within 3000 years of J2000.0 the table describes real ellipses: a
      positive semi-major axis and an eccentricity in [0, 1). */
  lemma ElementsAreEllipses(id: PlanetId, T: real)
    requires -30.0 <= T <= 30.0
    ensures var x := ElementsOf(id, T); x.a > 0.0 && 0.0 <= x.e < 1.0
  {
  }

  /** `E` after `n` rounds of `E := M + e*sin(E)`, starting from `E = M`. */
  function KeplerIterate(m: MathLib, M: real, e: real, n: nat): real {
    if n == 0 then M else M + e * m.sin(KeplerIterate(m, M, e, n - 1))
  }

  /** The number of Kepler rounds the source performs. */
  const KeplerRounds: nat := 10

  /** The source's fixed ten-round loop `E = M + e*math.Sin(E)`, starting
      from the mean anomaly. */
  method SolveKepler(m: MathLib, M: real, e: real) returns (E: real)
    ensures E == KeplerIterate(m, M, e, KeplerRounds)
  {
    E := M;
    for iter := 0 to 10
      invariant E == KeplerIterate(m, M, e, iter)
    {
      E := M + e * m.sin(E);
    }
  }

  /** On a circular orbit the eccentric anomaly is the mean anomaly. */
  lemma KeplerCircular(m: MathLib, M: real, n: nat)
    ensures KeplerIterate(m, M, 0.0, n) == M
  {
  }

  /** With `math.Sin` bounded by 1, every round stays within `|e|` of the
      mean anomaly. */
  lemma KeplerNearMean(m: MathLib, M: real, e: real, n: nat)
    requires SinCosBounded(m)
    ensures M - AbsR(e) <= KeplerIterate(m, M, e, n) <= M + AbsR(e)
  {
    if n > 0 {
      var s := m.sin(KeplerIterate(m, M, e, n - 1));
      assert -1.0 <= s <= 1.0;
      ScaledUnit(e, s);
    }
  }

  /** `-|e| <= e*s <= |e|` for `s` in [-1, 1]. */
  lemma ScaledUnit(e: real, s: real)
    requires -1.0 <= s <= 1.0
    ensures -AbsR(e) <= e * s <= AbsR(e)
  {
    if e >= 0.0 {
      UnitScale(e, s);
    } else {
      UnitScale(-e, s);
      assert (-e) * s == -(e * s);
    }
  }

  lemma UnitScale(y: real, s: real)
    requires y >= 0.0 && -1.0 <= s <= 1.0
    ensures -y <= y * s <= y
  {
  }

  lemma MulLeftWeak(y: real, a: real, b: real)
    requires y >= 0.0 && a <= b
    ensures y * a <= y * b
  {
  }

  /** The heliocentric distance `a(1 - e cos E)`. */
  function OrbitRadius(a: real, e: real, cosE: real): real {
    a * (1.0 - e * cosE)
  }

  /** With `0 <= e < 1` and `|cos E| <= 1`, the distance lies between
      perihelion `a(1-e)` and aphelion `a(1+e)`. */
  lemma OrbitRadiusBounds(a: real, e: real, cosE: real)
    requires a >= 0.0 && 0.0 <= e < 1.0 && -1.0 <= cosE <= 1.0
    ensures a * (1.0 - e) <= OrbitRadius(a, e, cosE) <= a * (1.0 + e)
  {
    ScaledUnit(e, cosE);
    MulLeftWeak(a, 1.0 - e, 1.0 - e * cosE);
    MulLeftWeak(a, 1.0 - e * cosE, 1.0 + e);
  }

  /** The true anomaly from the eccentric anomaly. */
  function TrueAnomaly(m: MathLib, e: real, E: real): real {
    2.0 * m.atan2(m.sqrt(1.0 + e) * m.sin(E / 2.0), m.sqrt(1.0 - e) * m.cos(E / 2.0))
  }

  datatype Vec3 = Vec3(x: real, y: real, z: real)

  /** The rotation from the orbital plane to heliocentric ecliptic
      coordinates (angles in radians). */
  function EclipticPosition(m: MathLib, r: real, v: real, omega: real, node: real, i: real): Vec3 {
    var xo := r * m.cos(v);
    var yo := r * m.sin(v);
    Vec3(
      (m.cos(omega) * m.cos(node) - m.sin(omega) * m.sin(node) * m.cos(i)) * xo
        + (-m.sin(omega) * m.cos(node) - m.cos(omega) * m.sin(node) * m.cos(i)) * yo,
      (m.cos(omega) * m.sin(node) + m.sin(omega) * m.cos(node) * m.cos(i)) * xo
        + (-m.sin(omega) * m.sin(node) + m.cos(omega) * m.cos(node) * m.cos(i)) * yo,
      (m.sin(omega) * m.sin(i)) * xo + (m.cos(omega) * m.sin(i)) * yo)
  }

  /** Geocentric ecliptic longitude and latitude, with the Earth on a unit
      circle at longitude `earthLon`. */
  function GeocentricEcliptic(m: MathLib, p: Vec3, earthLon: real): (real, real) {
    var gx := p.x - 1.0 * m.cos(earthLon);
    var gy := p.y - 1.0 * m.sin(earthLon);
    var gz := p.z - 0.0;
    (m.atan2(gy, gx), m.atan2(gz, m.sqrt(gx * gx + gy * gy)))
  }

  /** The source's `magnitudes` map. */
  const Magnitudes: map<string, real> := map[
    "Mercury" := -0.4, "Venus" := -4.4, "Mars" := -2.0, "Jupiter" := -2.7,
    "Saturn" := 0.4, "Uranus" := 5.7, "Neptune" := 7.8]

  /** The magnitude of a planet of the table. */
  function MagnitudeOf(id: PlanetId): real {
    match id
    case Mercury => -0.4 case Venus => -4.4 case Mars => -2.0 case Jupiter => -2.7
    case Saturn => 0.4 case Uranus => 5.7 case Neptune => 7.8
  }

  /** `MagnitudeOf` is the source's `magnitudes[name]`, and the map has no
      other keys. */
  lemma MagnitudeTable(id: PlanetId)
    ensures NameOf(id) in Magnitudes && MagnitudeOf(id) == Magnitudes[NameOf(id)]
    ensures forall name :: name in Magnitudes ==> PlanetOf(name).Some?
  {
  }

  /** Julian centuries from J2000.0. */
  function Centuries(jde: real): real {
    (jde - 2451545.0) / 36525.0
  }

  /** The part of `calculatePlanetLowPrecision` after the Kepler solve. */
  function PlanetFromAnomaly(m: MathLib, eph: Ephemeris, id: PlanetId, el: Elements, E: real,
                             jde: real, o: Observer, t: Instant): Planet {
    var earthLon := eph.sunLongitude(Centuries(jde)) + Pi;
    var pos := EclipticPosition(m, OrbitRadius(el.a, el.e, m.cos(E)), TrueAnomaly(m, el.e, E),
                                Radians(el.omega), Radians(el.node), Radians(el.i));
    var (lon, lat) := GeocentricEcliptic(m, pos, earthLon);
    var (ra, dec) := eph.eclToEq(lon, lat, eph.meanObliquity(jde));
    var hz := EquatorialToHorizontal(m, Equatorial(ra, dec), o, t);
    Planet(NameOf(id), PlanetBody, ra, dec, hz.altitude, hz.azimuth, MagnitudeOf(id))
  }

  /** The mean anomaly `L - omega`, in radians. */
  function MeanAnomaly(el: Elements): real {
    Radians(el.L) - Radians(el.omega)
  }

  /** `calculatePlanetLowPrecision(name, jde, observer, t)` as a function. */
  function PlanetLowPrecision(m: MathLib, eph: Ephemeris, name: string, jde: real,
                              o: Observer, t: Instant): Planet {
    match PlanetOf(name)
    case None => UnknownPlanet(name)
    case Some(id) =>
      var el := ElementsOf(id, Centuries(jde));
      PlanetFromAnomaly(m, eph, id, el, KeplerIterate(m, MeanAnomaly(el), el.e, KeplerRounds), jde, o, t)
  }

  /** `calculatePlanetLowPrecision(name, jde, observer, t)`, solving
      Kepler's equation with `SolveKepler`. */
  method CalculatePlanetLowPrecision(m: MathLib, eph: Ephemeris, name: string, jde: real,
                                     o: Observer, t: Instant) returns (p: Planet)
    ensures p == PlanetLowPrecision(m, eph, name, jde, o, t)
  {
    var T := Centuries(jde);
    var id := PlanetOf(name);
    if id.None? {
      return UnknownPlanet(name);
    }
    var el := ElementsOf(id.value, T);
    var M := MeanAnomaly(el);
    var E := SolveKepler(m, M, el.e);
    p := PlanetFromAnomaly(m, eph, id.value, el, E, jde, o, t);
  }

  /** An unknown name yields the zero planet with that name; a known one is
      tagged as a planet and takes its magnitude from the table. */
  lemma PlanetTagging(m: MathLib, eph: Ephemeris, name: string, jde: real, o: Observer, t: Instant)
    ensures var p := PlanetLowPrecision(m, eph, name, jde, o, t);
      p.name == name
      && (PlanetOf(name).None? ==> p == UnknownPlanet(name))
      && (PlanetOf(name).Some? ==>
            p.bodyType == PlanetBody && p.magnitude == MagnitudeOf(PlanetOf(name).value))
  {
  }

  /** `calculateSun(jde, observer, t)`. */
  function SunAt(m: MathLib, eph: Ephemeris, jde: real, o: Observer, t: Instant): Planet {
    var (ra, dec) := eph.sunEquatorial(jde);
    var hz := EquatorialToHorizontal(m, Equatorial(ra, dec), o, t);
    Planet("Sun", SunBody, ra, dec, hz.altitude, hz.azimuth, -26.7)
  }

  /** `calculateMoon(jde, observer, t)`: the RA arrives in radians. */
  function MoonAt(m: MathLib, eph: Ephemeris, jde: real, o: Observer, t: Instant): Planet {
    var (raRad, dec) := eph.moonEquatorial(jde);
    var ra := raRad * 12.0 / Pi;
    var hz := EquatorialToHorizontal(m, Equatorial(ra, dec), o, t);
    Planet("Moon", MoonBody, ra, dec, hz.altitude, hz.azimuth, -12.0)
  }

  /** `CalculatePlanets(t, observer)` as a function. */
  function PlanetsAt(m: MathLib, eph: Ephemeris, t: Instant, o: Observer): PlanetarySystem {
    var jde := eph.timeToJD(t);
    PlanetarySystem(
      SunAt(m, eph, jde, o, t), MoonAt(m, eph, jde, o, t),
      PlanetLowPrecision(m, eph, "Mercury", jde, o, t),
      PlanetLowPrecision(m, eph, "Venus", jde, o, t),
      PlanetLowPrecision(m, eph, "Mars", jde, o, t),
      PlanetLowPrecision(m, eph, "Jupiter", jde, o, t),
      PlanetLowPrecision(m, eph, "Saturn", jde, o, t),
      PlanetLowPrecision(m, eph, "Uranus", jde, o, t),
      PlanetLowPrecision(m, eph, "Neptune", jde, o, t))
  }

  /** `CalculatePlanets(t, observer)`: fills the system field by field. */
  method CalculatePlanets(m: MathLib, eph: Ephemeris, t: Instant, o: Observer)
    returns (sys: PlanetarySystem)
    ensures sys == PlanetsAt(m, eph, t, o)
  {
    var jde := eph.timeToJD(t);
    var sun := SunAt(m, eph, jde, o, t);
    var moon := MoonAt(m, eph, jde, o, t);
    var mercury := CalculatePlanetLowPrecision(m, eph, "Mercury", jde, o, t);
    var venus := CalculatePlanetLowPrecision(m, eph, "Venus", jde, o, t);
    var mars := CalculatePlanetLowPrecision(m, eph, "Mars", jde, o, t);
    var jupiter := CalculatePlanetLowPrecision(m, eph, "Jupiter", jde, o, t);
    var saturn := CalculatePlanetLowPrecision(m, eph, "Saturn", jde, o, t);
    var uranus := CalculatePlanetLowPrecision(m, eph, "Uranus", jde, o, t);
    var neptune := CalculatePlanetLowPrecision(m, eph, "Neptune", jde, o, t);
    sys := PlanetarySystem(sun, moon, mercury, venus, mars, jupiter, saturn, uranus, neptune);
  }

  /** `(*PlanetarySystem).AllPlanets()`: the nine bodies in field order. */
  function AllPlanets(ps: PlanetarySystem): (r: seq<Planet>)
    ensures |r| == 9
  {
    [ps.sun, ps.moon, ps.mercury, ps.venus, ps.mars, ps.jupiter, ps.saturn, ps.uranus, ps.neptune]
  }

  /** The body list `AllPlanets` promises: Sun, Moon, Mercury, ..., Neptune
      in that order; the Sun and Moon carry their own tags and magnitudes,
      the rest are planets with the table's magnitudes. */
  predicate InBodyOrder(bodies: seq<Planet>) {
    |bodies| == 9
    && bodies[0].name == "Sun" && bodies[1].name == "Moon"
    && bodies[0].bodyType == SunBody && bodies[0].magnitude == -26.7
    && bodies[1].bodyType == MoonBody && bodies[1].magnitude == -12.0
    && (forall k :: 2 <= k < 9 ==>
          Tagged(bodies[k], NameOf(PlanetIds[k - 2]), PlanetBody, MagnitudeOf(PlanetIds[k - 2])))
  }

  /** `p` has the given name, body type and magnitude. */
  predicate Tagged(p: Planet, name: string, bodyType: BodyType, magnitude: real) {
    p.name == name && p.bodyType == bodyType && p.magnitude == magnitude
  }

  /** Each planet of the table, computed by its own name, is tagged with
      that name, as a planet, with its magnitude. */
  lemma PlanetTaggedById(m: MathLib, eph: Ephemeris, id: PlanetId, jde: real, o: Observer, t: Instant)
    ensures Tagged(PlanetLowPrecision(m, eph, NameOf(id), jde, o, t), NameOf(id), PlanetBody, MagnitudeOf(id))
  {
    PlanetOfName(id);
  }

  lemma SunMoonTagged(m: MathLib, eph: Ephemeris, jde: real, o: Observer, t: Instant)
    ensures Tagged(SunAt(m, eph, jde, o, t), "Sun", SunBody, -26.7)
    ensures Tagged(MoonAt(m, eph, jde, o, t), "Moon", MoonBody, -12.0)
  {
  }

  /** The field of a system that holds planet `id`. */
  function Field(ps: PlanetarySystem, id: PlanetId): Planet {
    match id
    case Mercury => ps.mercury case Venus => ps.venus case Mars => ps.mars
    case Jupiter => ps.jupiter case Saturn => ps.saturn case Uranus => ps.uranus
    case Neptune => ps.neptune
  }

  /** Each planet field of a computed system holds that planet, tagged. */
  lemma {:induction false} PlanetsAtTagged(m: MathLib, eph: Ephemeris, t: Instant, o: Observer, id: PlanetId)
    ensures Tagged(Field(PlanetsAt(m, eph, t, o), id), NameOf(id), PlanetBody, MagnitudeOf(id))
  {
    var jde := eph.timeToJD(t);
    PlanetTaggedById(m, eph, id, jde, o, t);
    match id
    case Mercury => case Venus => case Mars => case Jupiter =>
    case Saturn => case Uranus => case Neptune =>
  }

  /** For a computed system, `AllPlanets` lists the bodies in that order. */
  lemma {:induction false} AllPlanetsOrder(m: MathLib, eph: Ephemeris, t: Instant, o: Observer)
    ensures InBodyOrder(AllPlanets(PlanetsAt(m, eph, t, o)))
  {
    var jde := eph.timeToJD(t);
    SunMoonTagged(m, eph, jde, o, t);
    forall id: PlanetId
      ensures Tagged(Field(PlanetsAt(m, eph, t, o), id), NameOf(id), PlanetBody, MagnitudeOf(id))
    {
      PlanetsAtTagged(m, eph, t, o, id);
    }
    AllPlanetsOfTagged(PlanetsAt(m, eph, t, o));
  }

  /** A system whose fields are tagged yields its bodies in order. */
  lemma AllPlanetsOfTagged(ps: PlanetarySystem)
    requires Tagged(ps.sun, "Sun", SunBody, -26.7) && Tagged(ps.moon, "Moon", MoonBody, -12.0)
    requires forall id: PlanetId :: Tagged(Field(ps, id), NameOf(id), PlanetBody, MagnitudeOf(id))
    ensures InBodyOrder(AllPlanets(ps))
  {
    forall k | 2 <= k < 9
      ensures Tagged(AllPlanets(ps)[k], NameOf(PlanetIds[k - 2]), PlanetBody, MagnitudeOf(PlanetIds[k - 2]))
    {
      assert AllPlanets(ps)[k] == Field(ps, PlanetIds[k - 2]);
    }
  }

  /** The cosine of the Sun-Moon elongation, from the two equatorial
      positions. */
  function ElongationCosine(m: MathLib, eph: Ephemeris, jde: real): real {
    var (sunRA, sunDec) := eph.sunEquatorial(jde);
    var (moonRA, moonDec) := eph.moonEquatorial(jde);
    var s, d := sunRA * Pi / 12.0, Radians(sunDec);
    SphericalSine(m, d, Radians(moonDec), s - moonRA)
  }

  /** `MoonPhase(t)`: the Sun-Moon elongation divided by Pi. */
  function MoonPhase(m: MathLib, eph: Ephemeris, t: Instant): real {
    m.acos(ElongationCosine(m, eph, eph.timeToJD(t))) / Pi
  }

  /** When the elongation cosine is a cosine, the phase lies in [0, 1]. */
  lemma MoonPhaseRange(m: MathLib, eph: Ephemeris, t: Instant)
    requires AcosInRange(m)
    requires -1.0 <= ElongationCosine(m, eph, eph.timeToJD(t)) <= 1.0
    ensures 0.0 <= MoonPhase(m, eph, t) <= 1.0
  {
    var a := m.acos(ElongationCosine(m, eph, eph.timeToJD(t)));
    assert 0.0 <= a <= Pi;
  }
}
