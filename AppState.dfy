/** The state of the interactive model (internal/app/app.go `Model`) as a
    value, so that what `Update` and its helpers do can be stated as
    functions from one state to the next. The class `App.Model` holds the
    same information in fields; its `State()` is this value. */
module AppState {
  import opened Wrappers
  import opened GoTime
  import opened Catalog
  import opened AstroPlanets

  /** `SelectedObject`: its `Type` and `Name` together with the copy of the
      object. Every place that creates one sets the field matching `Type`
      to a copy of an object with that name, so the kind and the copy are
      one value here; the "constellation" type is never created. */
  datatype Selected = SelectedStar(star: Star) | SelectedPlanet(planet: Planet) | SelectedDeepSky(obj: MessierObject)
  {
    function Name(): string {
      match this
      case SelectedStar(s) => s.name
      case SelectedPlanet(p) => p.name
      case SelectedDeepSky(d) => d.name
    }

    /** The altitude and azimuth of the copy. */
    function Position(): (real, real) {
      match this
      case SelectedStar(s) => (s.altitude, s.azimuth)
      case SelectedPlanet(p) => (p.altitude, p.azimuth)
      case SelectedDeepSky(d) => (d.altitude, d.azimuth)
    }
  }

  /** The dimensions of `m.canvas`, the only part of the canvas the
      modelled code reads. */
  datatype CanvasSize = CanvasSize(width: int, height: int)

  /** `width`, `height` and `canvas`. */
  datatype Screen = Screen(width: int, height: int, canvas: Option<CanvasSize>)

  /** Where the view looks: `altitude`, `azimuth` and `fov`, in degrees. */
  datatype View = View(altitude: real, azimuth: real, fov: real)

  /** The display switches of the model. */
  datatype Toggles = Toggles(grid: bool, constellations: bool, names: bool, planets: bool,
                             planetLabels: bool, deepSky: bool, starLabels: bool)

  /** The display options: the switches, `magnitudeLimit`, `showHelp` and
      `showInfo`. */
  datatype Display = Display(toggles: Toggles, magnitudeLimit: real, showHelp: bool, showInfo: bool)

  /** `selectedObject` (nil is `None`) and `following`. */
  datatype Selection = Selection(selected: Option<Selected>, following: bool)

  /** The two typing modes and their buffers. */
  datatype Input = Input(searchMode: bool, searchQuery: string, timeInputMode: bool, timeInput: string)

  /** The simulated clock: `currentTime`, `paused`, `timeStep` (in
      nanoseconds), `timeMultiplier` and `realTimeBase`. */
  datatype Clock = Clock(currentTime: Instant, paused: bool, timeStep: int, timeMultiplier: real, realTimeBase: Instant)

  /** What the catalogs and the planetary system hold: the stars, the
      deep-sky objects and the bodies. */
  datatype Sky = Sky(stars: seq<Star>, deepSky: seq<MessierObject>, planets: PlanetarySystem)

  /** Every field of `Model` that `Update` reads or writes, grouped as
      above; the key table, the configuration and the observer never
      change and are not part of it. */
  datatype AppState = AppState(
    screen: Screen, view: View, display: Display, selection: Selection,
    input: Input, clock: Clock, sky: Sky)
}
