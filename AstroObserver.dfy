/** An observer's place on Earth (internal/astro/observer.go). */
module AstroObserver {
  import opened GoTime
  import AstroTime

  /** Latitude positive north and longitude positive east, in degrees;
      altitude in metres. */
  datatype Observer = Observer(latitude: real, longitude: real, altitude: real, name: string)

  /** `NewObserver(lat, lon, alt, name)`. */
  function NewObserver(lat: real, lon: real, alt: real, name: string): (o: Observer)
    ensures o.latitude == lat && o.longitude == lon && o.altitude == alt && o.name == name
  {
    Observer(lat, lon, alt, name)
  }

  /** `DefaultObserver()`: New York City. */
  function DefaultObserver(): Observer {
    NewObserver(40.7128, -74.0060, 10.0, "New York City")
  }

  /** The observer's local sidereal time at `t`, as a function. */
  function LocalSiderealTimeAt(o: Observer, t: GoTime.Instant): real {
    AstroTime.LocalSiderealTime(AstroTime.JulianDate(t), o.longitude)
  }

  /** `(*Observer).LST(t)`: the Julian Date of `t` fed to `LST` with the
      observer's longitude. */
  method LST(o: Observer, t: Instant) returns (lst: real)
    ensures lst == LocalSiderealTimeAt(o, t)
    ensures 0.0 <= lst < 24.0
  {
    var jd := AstroTime.JulianDate(t);
    lst := AstroTime.LST(jd, o.longitude);
  }
}
