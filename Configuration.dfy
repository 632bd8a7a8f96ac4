/** Configuration (internal/config/config.go, defaults.go). Finding and
    reading the file and parsing its YAML are outside the model: `Load`
    receives what they produced as a `FileResult`. */
module Configuration {
  import opened Wrappers
  import AstroObserver

  datatype LocationConfig = LocationConfig(latitude: real, longitude: real, altitude: real, name: string)

  datatype DisplayConfig = DisplayConfig(
    magnitudeLimit: real,
    showConstellationLines: bool,
    showConstellationNames: bool,
    showCoordinateGrid: bool,
    showPlanetLabels: bool,
    colorStarsByType: bool,
    useBrailleRendering: bool)

  datatype TimeConfig = TimeConfig(useUTC: bool, timeStep: string)

  datatype ControlsConfig = ControlsConfig(panSpeed: real, fastPanMultiplier: real, zoomStep: real)

  datatype Config = Config(location: LocationConfig, display: DisplayConfig, time: TimeConfig, controls: ControlsConfig)

  /** What the file system and the YAML decoder produced: no file, a read
      error, a YAML error, or the decoded structure (absent keys zero). */
  datatype FileResult = Missing | ReadFailed | ParseFailed | Parsed(cfg: Config)

  /** `DefaultConfig()`. */
  function DefaultConfig(): (c: Config)
    ensures c.location == LocationConfig(40.7128, -74.0060, 10.0, "New York City")
    ensures c.display.magnitudeLimit == 5.0 && c.display.colorStarsByType
    ensures !c.display.showConstellationLines && !c.display.showConstellationNames
      && !c.display.showCoordinateGrid && !c.display.showPlanetLabels && !c.display.useBrailleRendering
    ensures c.time == TimeConfig(false, "1m")
    ensures c.controls == ControlsConfig(5.0, 4.0, 1.2)
  {
    Config(
      LocationConfig(40.7128, -74.0060, 10.0, "New York City"),
      DisplayConfig(5.0, false, false, false, false, true, false),
      TimeConfig(false, "1m"),
      ControlsConfig(5.0, 4.0, 1.2))
  }

  /** The merge step of `Load`: a section is taken from the defaults when
      its key field is zero (for the location, both coordinates). */
  function Merged(cfg: Config): Config {
    var d := DefaultConfig();
    var c1 := if cfg.location.latitude == 0.0 && cfg.location.longitude == 0.0 then cfg.(location := d.location) else cfg;
    var c2 := if c1.display.magnitudeLimit == 0.0 then c1.(display := d.display) else c1;
    if c2.controls.panSpeed == 0.0 then c2.(controls := d.controls) else c2
  }

  /** The configuration `Load` returns for each outcome. */
  function Loaded(r: FileResult): Config {
    if r.Parsed? then Merged(r.cfg) else DefaultConfig()
  }

  /** Each section is replaced whole, exactly when its key field is zero:
      the file's display flags are discarded with a zero magnitude limit;
      the time section is never touched, so an empty time step survives. */
  lemma MergedSections(cfg: Config)
    ensures Merged(cfg).location
      == (if cfg.location.latitude == 0.0 && cfg.location.longitude == 0.0 then DefaultConfig().location else cfg.location)
    ensures Merged(cfg).display == (if cfg.display.magnitudeLimit == 0.0 then DefaultConfig().display else cfg.display)
    ensures Merged(cfg).controls == (if cfg.controls.panSpeed == 0.0 then DefaultConfig().controls else cfg.controls)
    ensures Merged(cfg).time == cfg.time
  {
  }

  /** Merging twice is merging once, and the defaults are a fixed point:
      every key field of a merged configuration is non-zero. */
  lemma MergedIdempotent(cfg: Config)
    ensures Merged(Merged(cfg)) == Merged(cfg)
    ensures Merged(DefaultConfig()) == DefaultConfig()
    ensures Merged(cfg).location.latitude != 0.0 || Merged(cfg).location.longitude != 0.0
    ensures Merged(cfg).display.magnitudeLimit != 0.0 && Merged(cfg).controls.panSpeed != 0.0
  {
    MergedSections(cfg);
    MergedSections(Merged(cfg));
  }

  /** Every failure yields the defaults. */
  lemma LoadFailuresYieldDefaults(r: FileResult)
    ensures !r.Parsed? ==> Loaded(r) == DefaultConfig()
    ensures r.Parsed? ==> Loaded(r).time == r.cfg.time
  {
  }

  /** `Load()`: the decoded structure with the defaults merged in, or the
      defaults; the error result is always nil. */
  method Load(r: FileResult) returns (cfg: Config, err: Option<string>)
    ensures cfg == Loaded(r) && err == None
  {
    if r.Missing? || r.ReadFailed? || r.ParseFailed? {
      return DefaultConfig(), None;
    }
    cfg := r.cfg;
    var defaults := DefaultConfig();
    if cfg.location.latitude == 0.0 && cfg.location.longitude == 0.0 {
      cfg := cfg.(location := defaults.location);
    }
    if cfg.display.magnitudeLimit == 0.0 {
      cfg := cfg.(display := defaults.display);
    }
    if cfg.controls.panSpeed == 0.0 {
      cfg := cfg.(controls := defaults.controls);
    }
    err := None;
  }

  /** `(*Config).Observer()`: the location's four fields, unchanged. */
  function ObserverOf(c: Config): (o: AstroObserver.Observer)
    ensures o.latitude == c.location.latitude && o.longitude == c.location.longitude
    ensures o.altitude == c.location.altitude && o.name == c.location.name
  {
    AstroObserver.NewObserver(c.location.latitude, c.location.longitude, c.location.altitude, c.location.name)
  }

  /** The default configuration's observer is the default observer. */
  lemma DefaultObserverAgrees()
    ensures ObserverOf(DefaultConfig()) == AstroObserver.DefaultObserver()
  {
  }
}
