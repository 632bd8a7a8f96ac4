/** The star catalog (internal/catalog/stars.go). The Go slice is an
    `array<Star>`: `Stars()` hands out the same array, so a refresh is seen
    through it. */
module CatalogStars {
  import opened GoTime
  import opened GoMath
  import opened AstroObserver
  import opened AstroCoords
  import opened Catalog

  class StarCatalog {
    var stars: array<Star>

    /** `NewStarCatalog()`, over the `loadBrightStars` fixture. */
    constructor ()
      ensures stars[..] == BrightStars
      ensures fresh(stars)
    {
      stars := new Star[|BrightStars|](k requires 0 <= k < |BrightStars| => BrightStars[k]);
    }

    /** `(*StarCatalog).UpdatePositions(observer, t)`: every star's
        altitude and azimuth in place, nothing else. */
    method UpdatePositions(m: MathLib, o: Observer, t: Instant)
      modifies stars
      ensures stars[..] == PlacedStars(m, old(stars[..]), o, t)
    {
      ghost var before := stars[..];
      for i := 0 to stars.Length
        invariant forall k :: 0 <= k < i ==> stars[k] == PlacedStar(m, before[k], o, t)
        invariant forall k :: i <= k < stars.Length ==> stars[k] == before[k]
      {
        var eq := Equatorial(stars[i].ra, stars[i].dec);
        var hz := EquatorialToHorizontal(m, eq, o, t);
        stars[i] := stars[i].(altitude := hz.altitude, azimuth := hz.azimuth);
      }
    }

    /** `(*StarCatalog).Stars()`: the catalog's own storage. */
    method Stars() returns (r: array<Star>)
      ensures r == stars
    {
      r := stars;
    }
  }

  /** After a refresh, the stars seen through `Stars()` keep their count,
      order and catalog fields, carry the converted positions, and a second
      refresh at the same instant changes nothing. */
  method RefreshTwice(m: MathLib, c: StarCatalog, o: Observer, t: Instant)
    modifies c.stars
    ensures c.stars[..] == PlacedStars(m, old(c.stars[..]), o, t)
  {
    c.UpdatePositions(m, o, t);
    c.UpdatePositions(m, o, t);
    PlacedStarsIdempotent(m, old(c.stars[..]), o, t);
  }
}
