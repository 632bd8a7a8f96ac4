/** Catalog entries (internal/catalog/catalog.go, internal/catalog/messier.go)
    and the position refresh both catalogs share. */
module Catalog {
  import opened GoTime
  import opened GoMath
  import opened AstroObserver
  import opened AstroCoords

  /** `Star`: RA in hours, Dec in degrees; `altitude` and `azimuth` are
      filled in by `UpdatePositions`. */
  datatype Star = Star(name: string, magnitude: real, ra: real, dec: real,
                       altitude: real, azimuth: real, spectralType: char)

  /** `MessierObject`; `kind` is the source's `Type`. */
  datatype MessierObject = MessierObject(number: int, name: string, commonName: string, kind: string,
                                         ra: real, dec: real, magnitude: real,
                                         altitude: real, azimuth: real)

  /** A catalog entry with `Altitude` and `Azimuth` still zero. */
  function CatalogStar(name: string, magnitude: real, ra: real, dec: real, spectralType: char): Star {
    Star(name, magnitude, ra, dec, 0.0, 0.0, spectralType)
  }

  /** A line of a constellation figure, between two named stars. */
  datatype ConstellationLine = ConstellationLine(star1Name: string, star2Name: string)

  datatype Constellation = Constellation(name: string, abbreviation: string, lines: seq<ConstellationLine>)

  /** A constellation's name, written next to the named star. */
  datatype ConstellationLabel = ConstellationLabel(name: string, starName: string)

  /** The first entries of `loadBrightStars` (the twenty brightest stars). */
  const BrightStars: seq<Star> := [
    CatalogStar("Sirius", -1.46, 6.75, -16.72, 'A'),
    CatalogStar("Canopus", -0.74, 6.40, -52.70, 'F'),
    CatalogStar("Arcturus", -0.05, 14.26, 19.18, 'K'),
    CatalogStar("Rigel Kentaurus", -0.01, 14.66, -60.83, 'G'),
    CatalogStar("Vega", 0.03, 18.62, 38.78, 'A'),
    CatalogStar("Capella", 0.08, 5.28, 46.00, 'G'),
    CatalogStar("Rigel", 0.13, 5.24, -8.20, 'B'),
    CatalogStar("Procyon", 0.38, 7.66, 5.22, 'F'),
    CatalogStar("Achernar", 0.45, 1.63, -57.24, 'B'),
    CatalogStar("Betelgeuse", 0.50, 5.92, 7.41, 'M'),
    CatalogStar("Hadar", 0.61, 14.06, -60.37, 'B'),
    CatalogStar("Altair", 0.76, 19.85, 8.87, 'A'),
    CatalogStar("Acrux", 0.77, 12.44, -63.10, 'B'),
    CatalogStar("Aldebaran", 0.85, 4.60, 16.51, 'K'),
    CatalogStar("Spica", 0.98, 13.42, -11.16, 'B'),
    CatalogStar("Antares", 1.06, 16.49, -26.43, 'M'),
    CatalogStar("Pollux", 1.14, 7.75, 28.03, 'K'),
    CatalogStar("Fomalhaut", 1.16, 22.96, -29.62, 'A'),
    CatalogStar("Deneb", 1.25, 20.69, 45.28, 'A'),
    CatalogStar("Mimosa", 1.25, 12.79, -59.69, 'B')]

  /** The first entries of `GetMessierCatalog`. */
  const MessierObjects: seq<MessierObject> := [
    MessierObject(1, "M1", "Crab Nebula", "Supernova Remnant", 5.58, 22.02, 8.4, 0.0, 0.0),
    MessierObject(8, "M8", "Lagoon Nebula", "Nebula", 18.06, -24.38, 6.0, 0.0, 0.0),
    MessierObject(13, "M13", "Hercules Cluster", "Globular Cluster", 16.69, 36.46, 5.8, 0.0, 0.0),
    MessierObject(31, "M31", "Andromeda Galaxy", "Galaxy", 0.71, 41.27, 3.4, 0.0, 0.0)]

  /** The documented ranges of the coordinates: RA in [0, 24) hours and Dec
      in [-90, 90] degrees. */
  predicate InSky(ra: real, dec: real) {
    0.0 <= ra < 24.0 && -90.0 <= dec <= 90.0
  }

  /** Every entry of both fixtures lies in those ranges. */
  lemma FixturesInSky()
    ensures forall k :: 0 <= k < |BrightStars| ==> InSky(BrightStars[k].ra, BrightStars[k].dec)
    ensures forall k :: 0 <= k < |MessierObjects| ==> InSky(MessierObjects[k].ra, MessierObjects[k].dec)
  {
  }

  // ------------------------------------------------------ position refresh

  /** One star after `UpdatePositions`: its own RA/Dec converted for the
      observer at `t`, stored in `altitude` and `azimuth`. */
  function PlacedStar(m: MathLib, s: Star, o: Observer, t: Instant): Star {
    var hz := EquatorialToHorizontal(m, Equatorial(s.ra, s.dec), o, t);
    s.(altitude := hz.altitude, azimuth := hz.azimuth)
  }

  /** Only `altitude` and `azimuth` differ between two stars. */
  predicate SameStarExceptPosition(s: Star, u: Star) {
    s.name == u.name && s.magnitude == u.magnitude && s.ra == u.ra && s.dec == u.dec
    && s.spectralType == u.spectralType
  }

  /** Placing a star changes only its position, which is the conversion of
      its own coordinates; placing it again changes nothing. */
  lemma PlacedStarProperties(m: MathLib, s: Star, o: Observer, t: Instant)
    ensures SameStarExceptPosition(s, PlacedStar(m, s, o, t))
    ensures var hz := EquatorialToHorizontal(m, Equatorial(s.ra, s.dec), o, t);
      PlacedStar(m, s, o, t).altitude == hz.altitude && PlacedStar(m, s, o, t).azimuth == hz.azimuth
    ensures PlacedStar(m, PlacedStar(m, s, o, t), o, t) == PlacedStar(m, s, o, t)
  {
  }

  /** Every star placed, in order. */
  function PlacedStars(m: MathLib, ss: seq<Star>, o: Observer, t: Instant): (r: seq<Star>)
    ensures |r| == |ss|
    ensures forall k :: 0 <= k < |ss| ==> r[k] == PlacedStar(m, ss[k], o, t)
  {
    if ss == [] then [] else [PlacedStar(m, ss[0], o, t)] + PlacedStars(m, ss[1..], o, t)
  }

  /** Refreshing twice is refreshing once. */
  lemma PlacedStarsIdempotent(m: MathLib, ss: seq<Star>, o: Observer, t: Instant)
    ensures PlacedStars(m, PlacedStars(m, ss, o, t), o, t) == PlacedStars(m, ss, o, t)
  {
    var once := PlacedStars(m, ss, o, t);
    forall k | 0 <= k < |ss|
      ensures PlacedStars(m, once, o, t)[k] == once[k]
    {
      PlacedStarProperties(m, ss[k], o, t);
    }
  }

  /** One deep-sky object after `UpdatePositions`. */
  function PlacedObject(m: MathLib, d: MessierObject, o: Observer, t: Instant): MessierObject {
    var hz := EquatorialToHorizontal(m, Equatorial(d.ra, d.dec), o, t);
    d.(altitude := hz.altitude, azimuth := hz.azimuth)
  }

  predicate SameObjectExceptPosition(d: MessierObject, e: MessierObject) {
    d.number == e.number && d.name == e.name && d.commonName == e.commonName && d.kind == e.kind
    && d.ra == e.ra && d.dec == e.dec && d.magnitude == e.magnitude
  }

  lemma PlacedObjectProperties(m: MathLib, d: MessierObject, o: Observer, t: Instant)
    ensures SameObjectExceptPosition(d, PlacedObject(m, d, o, t))
    ensures var hz := EquatorialToHorizontal(m, Equatorial(d.ra, d.dec), o, t);
      PlacedObject(m, d, o, t).altitude == hz.altitude && PlacedObject(m, d, o, t).azimuth == hz.azimuth
    ensures PlacedObject(m, PlacedObject(m, d, o, t), o, t) == PlacedObject(m, d, o, t)
  {
  }

  function PlacedObjects(m: MathLib, ds: seq<MessierObject>, o: Observer, t: Instant): (r: seq<MessierObject>)
    ensures |r| == |ds|
    ensures forall k :: 0 <= k < |ds| ==> r[k] == PlacedObject(m, ds[k], o, t)
  {
    if ds == [] then [] else [PlacedObject(m, ds[0], o, t)] + PlacedObjects(m, ds[1..], o, t)
  }

  lemma PlacedObjectsIdempotent(m: MathLib, ds: seq<MessierObject>, o: Observer, t: Instant)
    ensures PlacedObjects(m, PlacedObjects(m, ds, o, t), o, t) == PlacedObjects(m, ds, o, t)
  {
    var once := PlacedObjects(m, ds, o, t);
    forall k | 0 <= k < |ds|
      ensures PlacedObjects(m, once, o, t)[k] == once[k]
    {
      PlacedObjectProperties(m, ds[k], o, t);
    }
  }
}
