/** The deep-sky catalog (internal/catalog/deepsky.go). */
module CatalogDeepSky {
  import opened GoTime
  import opened GoMath
  import opened AstroObserver
  import opened AstroCoords
  import opened Catalog

  class DeepSkyCatalog {
    var objects: array<MessierObject>

    /** `NewDeepSkyCatalog()`: the Messier table, in order. */
    constructor ()
      ensures objects[..] == MessierObjects
      ensures fresh(objects)
    {
      objects := new MessierObject[|MessierObjects|](k requires 0 <= k < |MessierObjects| => MessierObjects[k]);
    }

    /** `(*DeepSkyCatalog).UpdatePositions(observer, t)`. */
    method UpdatePositions(m: MathLib, o: Observer, t: Instant)
      modifies objects
      ensures objects[..] == PlacedObjects(m, old(objects[..]), o, t)
    {
      ghost var before := objects[..];
      for i := 0 to objects.Length
        invariant forall k :: 0 <= k < i ==> objects[k] == PlacedObject(m, before[k], o, t)
        invariant forall k :: i <= k < objects.Length ==> objects[k] == before[k]
      {
        var eq := Equatorial(objects[i].ra, objects[i].dec);
        var hz := EquatorialToHorizontal(m, eq, o, t);
        objects[i] := objects[i].(altitude := hz.altitude, azimuth := hz.azimuth);
      }
    }

    /** `(*DeepSkyCatalog).Objects()`: the catalog's own storage. */
    method Objects() returns (r: array<MessierObject>)
      ensures r == objects
    {
      r := objects;
    }
  }
}
