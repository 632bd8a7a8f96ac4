/** The message handler of the interactive model (internal/app/app.go
    `New` and `Update`), as functions from one `AppState` to the next. The
    class `App.Model` performs the same steps on its fields. */
module AppUpdate {
  import opened Wrappers
  import opened Text
  import opened GoMath
  import opened GoTime
  import opened AstroObserver
  import opened Catalog
  import opened AstroPlanets
  import opened Configuration
  import opened AppState
  import opened AppSelection
  import opened AppSearch

  // ------------------------------------------------------------ keys

  /** The bindings of the time controls. */
  datatype TimeAction = PauseResume | StepForward | StepBackward | FastStepForward | FastStepBack | JumpToNow

  /** The bindings that move or zoom the view. */
  datatype NavAction = Up | Down | Left | Right | FastUp | FastDown | FastLeft | FastRight
                     | ZoomIn | ZoomOut | Reset | North | South | East | West | Zenith

  /** The bindings of the display switches. */
  datatype ToggleAction = Grid | Constellations | Names | Planets | PlanetLabels | DeepSky | StarLabels

  /** The binding a key belongs to in the main view; `Unbound` for a key
      no binding lists (and for the image key, which `Update` ignores). */
  datatype Action = Help | Quit | Select | Info | Center | Follow | Search | SetTime
                  | Time(t: TimeAction) | Nav(n: NavAction) | Toggle(g: ToggleAction) | Magnitude | Unbound

  /** A key press: the text bubbletea reports for it and its binding. */
  datatype Key = Key(text: string, action: Action)

  /** The two keys of the `CloseHelp` binding. */
  predicate ClosesHelp(k: Key) {
    k.text == "esc" || k.text == "?"
  }

  /** The messages `Update` handles. */
  datatype Msg = TickMsg(realNow: Instant) | WindowSize(width: int, height: int) | KeyMsg(key: Key)

  /** What the handler needs besides the state: the maths and ephemeris
      routines, the observer and control settings of the configuration,
      `time.Parse` and the wall clock at the moment of the message. */
  datatype Env = Env(
    m: MathLib, eph: Ephemeris, observer: Observer, controls: ControlsConfig,
    parseTime: (string, string) -> Option<Instant>, now: Instant)

  // ------------------------------------------------------------ construction

  /** The planetary system `New` allocates: every body zero. */
  function NoPlanets(): PlanetarySystem {
    var zero := Planet("", Untyped, 0.0, 0.0, 0.0, 0.0, 0.0);
    PlanetarySystem(zero, zero, zero, zero, zero, zero, zero, zero, zero)
  }

  /** The time step `New` takes from the configuration: the parsed
      duration, or one minute when it does not parse. */
  function StepOf(cfg: Config, parseDuration: string -> Option<int>): int {
    match parseDuration(cfg.time.timeStep)
    case Some(d) => d
    case None => Minute
  }

  /** `New()`: the view looks 45 degrees up towards the south with a
      60-degree field; planets and deep-sky objects start hidden and star
      labels shown; the clock runs from `now` at normal speed; an
      unparseable time step falls back to one minute. */
  function Initial(cfg: Config, parseDuration: string -> Option<int>, now: Instant): (s: AppState)
    ensures s.view == View(45.0, 180.0, 60.0)
    ensures !s.display.toggles.planets && !s.display.toggles.deepSky && s.display.toggles.starLabels
    ensures s.display.toggles.grid == cfg.display.showCoordinateGrid
    ensures s.display.toggles.constellations == cfg.display.showConstellationLines
    ensures s.display.toggles.names == cfg.display.showConstellationNames
    ensures s.display.toggles.planetLabels == cfg.display.showPlanetLabels
    ensures s.display.magnitudeLimit == cfg.display.magnitudeLimit
    ensures !s.display.showHelp && !s.display.showInfo
    ensures s.clock.currentTime == now && s.clock.realTimeBase == now
    ensures !s.clock.paused && s.clock.timeMultiplier == 1.0
    ensures parseDuration(cfg.time.timeStep).Some? ==> s.clock.timeStep == parseDuration(cfg.time.timeStep).value
    ensures parseDuration(cfg.time.timeStep).None? ==> s.clock.timeStep == Minute
    ensures s.selection == Selection(None, false) && s.screen.canvas == None
    ensures s.input == Input(false, "", false, "")
    ensures s.sky == Sky(BrightStars, MessierObjects, NoPlanets())
  {
    AppState(
      Screen(0, 0, None),
      View(45.0, 180.0, 60.0),
      Display(Toggles(cfg.display.showCoordinateGrid, cfg.display.showConstellationLines,
                      cfg.display.showConstellationNames, false, cfg.display.showPlanetLabels, false, true),
              cfg.display.magnitudeLimit, false, false),
      Selection(None, false),
      Input(false, "", false, ""),
      Clock(now, false, StepOf(cfg, parseDuration), 1.0, now),
      Sky(BrightStars, MessierObjects, NoPlanets()))
  }

  // ------------------------------------------------------------ ticks and resizes

  /** The simulated clock at a tick: frozen while paused; otherwise the
      base plus the real time elapsed since it, scaled by the multiplier
      and truncated to whole nanoseconds; the base follows the tick only at
      normal speed. */
  function Clocked(c: Clock, realNow: Instant): Clock {
    if c.paused then c
    else
      var elapsed := Sub(realNow, c.realTimeBase);
      var scaled := Trunc(elapsed as real * c.timeMultiplier);
      c.(currentTime := Add(c.realTimeBase, scaled),
         realTimeBase := if c.timeMultiplier == 1.0 then realNow else c.realTimeBase)
  }

  /** The catalogs and bodies placed for the instant `t`. */
  function Placed(m: MathLib, eph: Ephemeris, o: Observer, sky: Sky, t: Instant): Sky {
    Sky(PlacedStars(m, sky.stars, o, t), PlacedObjects(m, sky.deepSky, o, t), PlanetsAt(m, eph, t, o))
  }

  /** The `TickMsg` branch: advance the clock, re-place everything for the
      new time, then follow the selection. */
  function Ticked(m: MathLib, eph: Ephemeris, o: Observer, s: AppState, realNow: Instant): AppState {
    var c := Clocked(s.clock, realNow);
    Followed(s.(clock := c, sky := Placed(m, eph, o, s.sky, c.currentTime)))
  }

  /** The `WindowSizeMsg` branch: two rows are kept for the status bar.
      `NewCanvas` cannot allocate a negative size, so the window must have
      a non-negative width and at least those two rows. */
  function Resized(s: AppState, width: int, height: int): (r: AppState)
    requires width >= 0 && height >= 2
    ensures r.screen.width == width && r.screen.height == height - 2
    ensures r.screen.canvas == Some(CanvasSize(r.screen.width, r.screen.height))
    ensures r.(screen := s.screen) == s
  {
    s.(screen := Screen(width, height - 2, Some(CanvasSize(width, height - 2))))
  }

  // ------------------------------------------------------------ typing modes

  /** The three layouts tried, in order, for a typed time. */
  const TimeLayouts: seq<string> := ["2006-01-02 15:04:05", "2006-01-02 15:04", "2006-01-02"]

  /** The first layout that parses the input. */
  function ParsedTime(env: Env, input: string): Option<Instant> {
    if env.parseTime(TimeLayouts[0], input).Some? then env.parseTime(TimeLayouts[0], input)
    else if env.parseTime(TimeLayouts[1], input).Some? then env.parseTime(TimeLayouts[1], input)
    else env.parseTime(TimeLayouts[2], input)
  }

  /** A key that types into a buffer: Go appends it when its text is one
      byte long. */
  predicate Typeable(text: string) {
    Utf8Len(text) == 1
  }

  /** The buffer after `backspace` or a typed key. */
  function Edited(buffer: string, text: string): string {
    if text == "backspace" then (if |buffer| > 0 then buffer[..|buffer| - 1] else buffer)
    else if Typeable(text) then buffer + text
    else buffer
  }

  /** The clock after `enter` in the time-input box: set to the typed
      time, restarted from now and paused when the text parses. */
  function TimeEntered(env: Env, c: Clock, typed: string): Clock {
    var parsed := if typed != "" then ParsedTime(env, typed) else None;
    match parsed
    case Some(t) => c.(currentTime := t, realTimeBase := env.now, paused := true)
    case None => c
  }

  /** A key in the time-input box: `esc` abandons it; `enter` applies the
      text and always closes the box; other keys edit the text. */
  function TimeInputKey(env: Env, s: AppState, text: string): AppState {
    if text == "esc" then s.(input := s.input.(timeInputMode := false, timeInput := ""))
    else if text == "enter" then
      s.(clock := TimeEntered(env, s.clock, s.input.timeInput),
         input := s.input.(timeInputMode := false, timeInput := ""))
    else s.(input := s.input.(timeInput := Edited(s.input.timeInput, text)))
  }

  /** A key in the search box: `esc` abandons it; `enter` runs the search
      and closes the box; other keys edit the query. */
  function SearchKey(s: AppState, text: string): AppState {
    if text == "esc" then s.(input := s.input.(searchMode := false, searchQuery := ""))
    else if text == "enter" then
      var r := Searched(s);
      r.(input := r.input.(searchMode := false, searchQuery := ""))
    else s.(input := s.input.(searchQuery := Edited(s.input.searchQuery, text)))
  }

  // ------------------------------------------------------------ the main view

  /** `math.Mod(x, 360)`. */
  function Mod360(x: real): (r: real)
    ensures x >= 0.0 ==> 0.0 <= r < 360.0
  {
    Fmod(x, 360.0)
  }

  /** `fov / ZoomStep`; a zero step, for which Go divides to an infinity
      or NaN, leaves the field as it was. */
  function ZoomedIn(fov: real, zoomStep: real): real {
    if zoomStep == 0.0 then fov else MaxR(10.0, fov / zoomStep)
  }

  /** `fov * ZoomStep`, capped at 120. */
  function ZoomedOut(fov: real, zoomStep: real): real {
    MinR(120.0, fov * zoomStep)
  }

  /** The pan step of the shifted arrow keys. */
  function FastPan(c: ControlsConfig): real {
    c.panSpeed * c.fastPanMultiplier
  }

  /** The navigation keys. */
  function NavView(c: ControlsConfig, v: View, a: NavAction): View {
    var pan := c.panSpeed;
    var fast := FastPan(c);
    match a
    case Up => v.(altitude := MinR(90.0, v.altitude + pan))
    case Down => v.(altitude := MaxR(-90.0, v.altitude - pan))
    case Left => v.(azimuth := Mod360(v.azimuth - pan + 360.0))
    case Right => v.(azimuth := Mod360(v.azimuth + pan))
    case FastUp => v.(altitude := MinR(90.0, v.altitude + fast))
    case FastDown => v.(altitude := MaxR(-90.0, v.altitude - fast))
    case FastLeft => v.(azimuth := Mod360(v.azimuth - fast + 360.0))
    case FastRight => v.(azimuth := Mod360(v.azimuth + fast))
    case ZoomIn => v.(fov := ZoomedIn(v.fov, c.zoomStep))
    case ZoomOut => v.(fov := ZoomedOut(v.fov, c.zoomStep))
    case Reset => View(45.0, 180.0, 60.0)
    case North => v.(azimuth := 0.0)
    case South => v.(azimuth := 180.0)
    case East => v.(azimuth := 90.0)
    case West => v.(azimuth := 270.0)
    case Zenith => v.(altitude := 90.0)
  }

  /** The time keys (`now` is the wall clock). */
  function ClockKey(now: Instant, c: Clock, a: TimeAction): Clock {
    match a
    case PauseResume => c.(paused := !c.paused, realTimeBase := if c.paused then now else c.realTimeBase)
    case StepForward => c.(currentTime := Add(c.currentTime, c.timeStep), paused := true)
    case StepBackward => c.(currentTime := Add(c.currentTime, -c.timeStep), paused := true)
    case FastStepForward => c.(currentTime := Add(c.currentTime, c.timeStep * 10), paused := true)
    case FastStepBack => c.(currentTime := Add(c.currentTime, -c.timeStep * 10), paused := true)
    case JumpToNow => c.(currentTime := now, realTimeBase := now, paused := false)
  }

  /** The display switches. */
  function ToggleKey(t: Toggles, a: ToggleAction): Toggles {
    match a
    case Grid => t.(grid := !t.grid)
    case Constellations => t.(constellations := !t.constellations)
    case Names => t.(names := !t.names)
    case Planets => t.(planets := !t.planets)
    case PlanetLabels => t.(planetLabels := !t.planetLabels)
    case DeepSky => t.(deepSky := !t.deepSky)
    case StarLabels => t.(starLabels := !t.starLabels)
  }

  /** The switch that display key `a` stands for. */
  function Switch(t: Toggles, a: ToggleAction): bool {
    match a
    case Grid => t.grid
    case Constellations => t.constellations
    case Names => t.names
    case Planets => t.planets
    case PlanetLabels => t.planetLabels
    case DeepSky => t.deepSky
    case StarLabels => t.starLabels
  }

  /** The magnitude key's cycle. */
  function NextMagnitudeLimit(limit: real): real {
    if limit == 3.0 then 4.0
    else if limit == 4.0 then 5.0
    else if limit == 5.0 then 6.0
    else 3.0
  }

  /** A key in the main view, and whether it quits. */
  function MainKey(env: Env, s: AppState, a: Action): (AppState, bool) {
    match a
    case Help => (s.(display := s.display.(showHelp := true)), false)
    case Quit => (s, true)
    case Select => (SelectedNearest(env.m, s), false)
    case Info => (s.(display := s.display.(showInfo := !s.display.showInfo)), false)
    case Center => (Centered(s), false)
    case Follow =>
      (if s.selection.selected.Some? then s.(selection := s.selection.(following := !s.selection.following)) else s, false)
    case Search => (s.(input := s.input.(searchMode := true, searchQuery := "")), false)
    case SetTime => (s.(input := s.input.(timeInputMode := true, timeInput := "")), false)
    case Time(t) => (s.(clock := ClockKey(env.now, s.clock, t)), false)
    case Nav(n) => (s.(view := NavView(env.controls, s.view, n)), false)
    case Toggle(g) => (s.(display := s.display.(toggles := ToggleKey(s.display.toggles, g))), false)
    case Magnitude => (s.(display := s.display.(magnitudeLimit := NextMagnitudeLimit(s.display.magnitudeLimit))), false)
    case Unbound => (s, false)
  }

  /** The `KeyMsg` branch: the time-input box first, then the search box,
      then the help screen (which only `CloseHelp` leaves), then the main
      view. */
  function KeyPressed(env: Env, s: AppState, k: Key): (AppState, bool) {
    if s.input.timeInputMode then (TimeInputKey(env, s, k.text), false)
    else if s.input.searchMode then (SearchKey(s, k.text), false)
    else if s.display.showHelp then (if ClosesHelp(k) then s.(display := s.display.(showHelp := false)) else s, false)
    else MainKey(env, s, k.action)
  }

  /** A message the handler can take: a window size that fits a canvas. */
  predicate Handles(msg: Msg) {
    msg.WindowSize? ==> msg.width >= 0 && msg.height >= 2
  }

  /** `Update(msg)`: the next state and whether the program quits. */
  function Updated(env: Env, s: AppState, msg: Msg): (AppState, bool)
    requires Handles(msg)
  {
    match msg
    case TickMsg(realNow) => (Ticked(env.m, env.eph, env.observer, s, realNow), false)
    case WindowSize(w, h) => (Resized(s, w, h), false)
    case KeyMsg(k) => KeyPressed(env, s, k)
  }

  // ------------------------------------------------------------ the clock

  /** Truncating a whole number of nanoseconds changes nothing. */
  lemma TruncWhole(n: int)
    ensures Trunc(n as real) == n
  {
  }

  /** A paused tick leaves the clock alone; a running tick sets the time
      to the base plus the scaled elapsed time, and moves the base to the
      tick at normal speed only; step and multiplier never change. */
  lemma ClockRules(c: Clock, realNow: Instant)
    ensures var r := Clocked(c, realNow);
      && (c.paused ==> r == c)
      && (!c.paused ==>
            && r.currentTime.ns == c.realTimeBase.ns + Trunc((realNow.ns - c.realTimeBase.ns) as real * c.timeMultiplier)
            && r.realTimeBase == (if c.timeMultiplier == 1.0 then realNow else c.realTimeBase))
      && r.(currentTime := c.currentTime, realTimeBase := c.realTimeBase) == c
  {
  }

  /** At normal speed a running tick sets the time to the tick itself. */
  lemma NormalSpeedTracksTick(c: Clock, realNow: Instant)
    requires !c.paused && c.timeMultiplier == 1.0
    ensures Clocked(c, realNow) == c.(currentTime := realNow, realTimeBase := realNow)
  {
    var elapsed := Sub(realNow, c.realTimeBase);
    assert elapsed as real * 1.0 == elapsed as real;
    TruncWhole(elapsed);
  }

  /** A tick re-places the catalogs and bodies for the new time, keeps the
      clock as `Clocked` leaves it, and changes nothing else but what
      following changes. */
  lemma TickRules(m: MathLib, eph: Ephemeris, o: Observer, s: AppState, realNow: Instant)
    ensures var c, r := Clocked(s.clock, realNow), Ticked(m, eph, o, s, realNow);
      && r.clock == c
      && r.sky == Placed(m, eph, o, s.sky, c.currentTime)
      && r.(clock := s.clock, sky := s.sky, selection := s.selection, view := s.view) == s
      && r.selection.following == s.selection.following
  {
    var c := Clocked(s.clock, realNow);
    FollowedSpec(s.(clock := c, sky := Placed(m, eph, o, s.sky, c.currentTime)));
  }

  /** With a multiplier of 1.0, as `New` sets and nothing changes, every
      running tick puts the clock at the tick instant. */
  lemma RunningTickShowsRealTime(m: MathLib, eph: Ephemeris, o: Observer, s: AppState, realNow: Instant)
    requires !s.clock.paused && s.clock.timeMultiplier == 1.0
    ensures Ticked(m, eph, o, s, realNow).clock.currentTime == realNow
    ensures Ticked(m, eph, o, s, realNow).clock.realTimeBase == realNow
  {
    NormalSpeedTracksTick(s.clock, realNow);
    TickRules(m, eph, o, s, realNow);
  }

  /** No message changes the time step or the multiplier. */
  lemma SettingsNeverChange(env: Env, s: AppState, msg: Msg)
    requires Handles(msg)
    ensures Updated(env, s, msg).0.clock.timeMultiplier == s.clock.timeMultiplier
    ensures Updated(env, s, msg).0.clock.timeStep == s.clock.timeStep
  {
    match msg
    case TickMsg(realNow) =>
      TickRules(env.m, env.eph, env.observer, s, realNow);
    case WindowSize(_, _) =>
    case KeyMsg(k) =>
      if !s.input.timeInputMode && s.input.searchMode {
        SearchKeyFrame(s, k.text);
      } else if !s.input.timeInputMode && !s.display.showHelp {
        MainKeyFrame(env, s, k.action);
      }
  }

  // ------------------------------------------------------------ modes

  /** The time-input box takes every key first: it never quits and changes
      only the typed text, its own flag and the clock's time, base and
      pause flag. */
  lemma TimeInputFirst(env: Env, s: AppState, k: Key)
    requires s.input.timeInputMode
    ensures var (r, quit) := KeyPressed(env, s, k);
      && !quit && r.(input := s.input, clock := s.clock) == s
      && r.input.(timeInput := s.input.timeInput, timeInputMode := true) == s.input
      && r.clock.timeStep == s.clock.timeStep && r.clock.timeMultiplier == s.clock.timeMultiplier
  {
  }

  /** The search box comes next: it never quits and changes only the
      query, its own flag, and what a search changes (the selected object,
      the info panel and the view). */
  lemma SearchSecond(env: Env, s: AppState, k: Key)
    requires !s.input.timeInputMode && s.input.searchMode
    ensures var (r, quit) := KeyPressed(env, s, k);
      && !quit
      && r.(input := s.input, selection := s.selection, display := s.display, view := s.view) == s
      && r.display.(showInfo := s.display.showInfo) == s.display
      && r.selection.following == s.selection.following
      && r.input.(searchQuery := s.input.searchQuery, searchMode := true) == s.input
  {
    SearchKeyFrame(s, k.text);
  }

  /** The frame of the search box's keys. */
  lemma SearchKeyFrame(s: AppState, text: string)
    ensures var r := SearchKey(s, text);
      && r.(input := s.input, selection := s.selection, display := s.display, view := s.view) == s
      && r.display.(showInfo := s.display.showInfo) == s.display
      && r.selection.following == s.selection.following
      && r.input.(searchQuery := s.input.searchQuery, searchMode := s.input.searchMode) == s.input
  {
    if text != "esc" && text == "enter" {
      SearchedNothing(s);
      if s.input.searchQuery != [] && HitIn(s).Some? {
        SearchedSelects(s);
      }
    }
  }

  /** Then the help screen, which swallows every key but the two that
      close it. */
  lemma HelpSwallowsKeys(env: Env, s: AppState, k: Key)
    requires !s.input.timeInputMode && !s.input.searchMode && s.display.showHelp
    ensures KeyPressed(env, s, k) == (if ClosesHelp(k) then s.(display := s.display.(showHelp := false)) else s, false)
  {
  }

  /** Quitting happens only for the quit key in the main view. */
  lemma QuitOnlyFromMainView(env: Env, s: AppState, msg: Msg)
    requires Handles(msg)
    ensures Updated(env, s, msg).1 <==>
      msg.KeyMsg? && msg.key.action == Quit && !s.input.timeInputMode && !s.input.searchMode && !s.display.showHelp
  {
  }

  /** What each main-view key may change: the catalogs, the screen, the
      time step and the multiplier never; the clock only for time keys,
      the view only for navigation keys and centring, the selection only
      for selecting and following. */
  lemma MainKeyFrame(env: Env, s: AppState, a: Action)
    ensures var r := MainKey(env, s, a).0;
      && r.sky == s.sky && r.screen == s.screen
      && r.clock.timeStep == s.clock.timeStep && r.clock.timeMultiplier == s.clock.timeMultiplier
      && (!a.Time? ==> r.clock == s.clock)
      && (!a.Nav? && a != Center ==> r.view == s.view)
      && (a != Select && a != Follow ==> r.selection == s.selection)
  {
    match a
    case Select => SelectedNearestSpec(env.m, s);
    case Center => CenteredSpec(s);
    case _ =>
  }

  // ------------------------------------------------------------ typing

  /** Editing a buffer: backspace drops the last character of a non-empty
      buffer; a one-byte key is appended; anything else is ignored. */
  lemma EditRules(buffer: string, text: string)
    ensures text == "backspace" ==> Edited(buffer, text) == if buffer == [] then [] else buffer[..|buffer| - 1]
    ensures text != "backspace" ==> (Edited(buffer, text) == buffer + text <==> Typeable(text) || text == [])
    ensures text != "backspace" && !Typeable(text) ==> Edited(buffer, text) == buffer
  {
    if text != "backspace" && !Typeable(text) && Edited(buffer, text) == buffer + text {
      assert |buffer + text| == |buffer|;
    }
  }

  /** A one-byte key is one ASCII character. */
  lemma TypeableIsAscii(text: string)
    requires Typeable(text)
    ensures |text| == 1 && text[0] as int < 0x80
  {
    assert Utf8Len(text) == Utf8Len(text[..0]) + Utf8Width(text[0]);
  }

  /** Only one-byte keys are typed, so a buffer stays ASCII and its
      characters are its bytes: dropping the last character is dropping
      the last byte, as Go does. */
  lemma EditKeepsAscii(buffer: string, text: string)
    requires IsAscii(buffer)
    ensures IsAscii(Edited(buffer, text))
    ensures Utf8Len(Edited(buffer, text)) == |Edited(buffer, text)|
  {
    var r := Edited(buffer, text);
    if text != "backspace" && Typeable(text) {
      TypeableIsAscii(text);
    }
    Utf8LenAscii(r);
  }

  /** `enter` in the time-input box: a text some layout parses sets the
      time to the first parse, moves the base to now and pauses; an empty
      or unparseable text leaves the clock alone. */
  lemma TimeEnterRules(env: Env, c: Clock, typed: string)
    ensures typed != "" && ParsedTime(env, typed).Some? ==>
      TimeEntered(env, c, typed) == c.(currentTime := ParsedTime(env, typed).value, realTimeBase := env.now, paused := true)
    ensures typed == "" || ParsedTime(env, typed).None? ==> TimeEntered(env, c, typed) == c
  {
  }

  /** The first layout that parses wins. */
  lemma ParsedTimeOrder(env: Env, input: string)
    ensures ParsedTime(env, input).Some? <==> exists i :: 0 <= i < 3 && env.parseTime(TimeLayouts[i], input).Some?
    ensures ParsedTime(env, input).Some? ==>
      exists i :: 0 <= i < 3 && ParsedTime(env, input) == env.parseTime(TimeLayouts[i], input)
                 && forall j :: 0 <= j < i ==> env.parseTime(TimeLayouts[j], input).None?
  {
    if env.parseTime(TimeLayouts[0], input).Some? {
      assert ParsedTime(env, input) == env.parseTime(TimeLayouts[0], input);
    } else if env.parseTime(TimeLayouts[1], input).Some? {
      assert ParsedTime(env, input) == env.parseTime(TimeLayouts[1], input);
    }
  }

  /** `esc` and `enter` close either box with an empty buffer; `esc`
      changes nothing else. */
  lemma EscapeAndEnter(env: Env, s: AppState)
    ensures TimeInputKey(env, s, "esc") == s.(input := s.input.(timeInputMode := false, timeInput := ""))
    ensures SearchKey(s, "esc") == s.(input := s.input.(searchMode := false, searchQuery := ""))
    ensures var r := TimeInputKey(env, s, "enter"); !r.input.timeInputMode && r.input.timeInput == ""
    ensures var r := SearchKey(s, "enter"); !r.input.searchMode && r.input.searchQuery == ""
  {
  }

  // ------------------------------------------------------------ the view

  /** The view a navigation key needs to stay in range. */
  predicate InRange(v: View) {
    -90.0 <= v.altitude <= 90.0 && 0.0 <= v.azimuth < 360.0 && 10.0 <= v.fov <= 120.0
  }

  /** Control settings under which the navigation keys keep the view in
      range: pan steps, plain and fast, between 0 and 360 degrees, and a
      zoom factor of at least one. */
  predicate SaneControls(c: ControlsConfig) {
    && 0.0 <= c.panSpeed <= 360.0
    && 0.0 <= FastPan(c) <= 360.0
    && c.zoomStep >= 1.0
  }

  /** The default controls are sane and the starting view is in range. */
  lemma DefaultsInRange(cfg: Config, parseDuration: string -> Option<int>, now: Instant)
    ensures SaneControls(DefaultConfig().controls)
    ensures InRange(Initial(cfg, parseDuration, now).view)
  {
  }

  lemma MulNonNegative(x: real, y: real)
    requires x >= 0.0 && y >= 0.0
    ensures x * y >= 0.0
  {
  }

  /** Zooming out by a factor of at least one, from a field of at least
      10, stays at least 10. */
  lemma ZoomOutStays(fov: real, step: real)
    requires fov >= 10.0 && step >= 1.0
    ensures fov * step >= 10.0
  {
    assert fov * step - fov == fov * (step - 1.0);
    MulNonNegative(fov, step - 1.0);
  }

  /** Zooming in by a factor of at least one never widens the field. */
  lemma ZoomInStays(fov: real, step: real)
    requires fov >= 0.0 && step >= 1.0
    ensures fov / step <= fov
  {
    var q := fov / step;
    assert q * step == fov;
    assert q >= 0.0 by {
      if q < 0.0 {
        MulNonNegative(-q, step);
      }
    }
    assert fov - q == q * (step - 1.0);
    MulNonNegative(q, step - 1.0);
  }

  /** Every navigation key keeps a view in range under sane controls. */
  lemma NavKeepsRange(c: ControlsConfig, v: View, a: NavAction)
    requires InRange(v) && SaneControls(c)
    ensures InRange(NavView(c, v, a))
  {
    match a
    case ZoomIn =>
      ZoomInStays(v.fov, c.zoomStep);
    case ZoomOut =>
      ZoomOutStays(v.fov, c.zoomStep);
    case _ =>
  }

  /** Altitude keys move only the altitude, azimuth keys only the
      azimuth, zoom keys only the field. */
  lemma NavMovesOneAxis(c: ControlsConfig, v: View, a: NavAction)
    ensures a in {Up, Down, FastUp, FastDown, Zenith} ==> NavView(c, v, a).(altitude := v.altitude) == v
    ensures a in {Left, Right, FastLeft, FastRight, North, South, East, West} ==> NavView(c, v, a).(azimuth := v.azimuth) == v
    ensures a in {ZoomIn, ZoomOut} ==> NavView(c, v, a).(fov := v.fov) == v
  {
  }

  /** Panning right by `step` from an azimuth in range lands at the sum
      wrapped once; panning left at the difference wrapped once. */
  lemma PanWraps(az: real, step: real)
    requires 0.0 <= az < 360.0 && 0.0 <= step <= 360.0
    ensures Mod360(az + step) == if az + step < 360.0 then az + step else az + step - 360.0
    ensures Mod360(az - step + 360.0) == if az - step >= 0.0 then az - step else az - step + 360.0
  {
    FmodInFirstTwoTurns(az + step);
    FmodInFirstTwoTurns(az - step + 360.0);
  }

  /** `math.Mod(x, 360)` for x in [0, 720). */
  lemma FmodInFirstTwoTurns(x: real)
    requires 0.0 <= x < 720.0
    ensures Mod360(x) == if x < 360.0 then x else x - 360.0
  {
    var q := Trunc(x / 360.0);
    assert x / 360.0 < 2.0;
    if x < 360.0 {
      assert x / 360.0 < 1.0;
      assert q == 0;
    } else {
      assert x / 360.0 >= 1.0;
      assert q == 1;
    }
  }

  /** Reset restores the starting view, and the cardinal keys face due
      north, south, east and west. */
  lemma ResetAndCardinals(c: ControlsConfig, v: View)
    ensures NavView(c, v, Reset) == View(45.0, 180.0, 60.0)
    ensures NavView(c, v, North).azimuth == 0.0 && NavView(c, v, South).azimuth == 180.0
    ensures NavView(c, v, East).azimuth == 90.0 && NavView(c, v, West).azimuth == 270.0
    ensures NavView(c, v, Zenith).altitude == 90.0
  {
  }

  // ------------------------------------------------------------ other keys

  /** The magnitude key cycles 3, 4, 5, 6 and back to 3, and sends any
      other limit to 3; after one press the limit is one of the four. */
  lemma MagnitudeCycle(limit: real)
    ensures NextMagnitudeLimit(limit) in {3.0, 4.0, 5.0, 6.0}
    ensures limit !in {3.0, 4.0, 5.0} ==> NextMagnitudeLimit(limit) == 3.0
    ensures limit in {3.0, 4.0, 5.0} ==> NextMagnitudeLimit(limit) == limit + 1.0
    ensures limit in {3.0, 4.0, 5.0, 6.0} ==>
      NextMagnitudeLimit(NextMagnitudeLimit(NextMagnitudeLimit(NextMagnitudeLimit(limit)))) == limit
  {
  }

  /** The step keys move the time by one or ten steps either way and
      pause; the pause key toggles and restarts the base only on resuming;
      jumping to now runs the clock from now. */
  lemma ClockKeyRules(now: Instant, c: Clock)
    ensures ClockKey(now, c, StepForward) == c.(currentTime := Instant(c.currentTime.ns + c.timeStep), paused := true)
    ensures ClockKey(now, c, StepBackward) == c.(currentTime := Instant(c.currentTime.ns - c.timeStep), paused := true)
    ensures ClockKey(now, c, FastStepForward) == c.(currentTime := Instant(c.currentTime.ns + 10 * c.timeStep), paused := true)
    ensures ClockKey(now, c, FastStepBack) == c.(currentTime := Instant(c.currentTime.ns - 10 * c.timeStep), paused := true)
    ensures ClockKey(now, c, PauseResume).paused == !c.paused
    ensures ClockKey(now, c, PauseResume).currentTime == c.currentTime
    ensures ClockKey(now, c, PauseResume).realTimeBase == if c.paused then now else c.realTimeBase
    ensures ClockKey(now, c, JumpToNow) == c.(currentTime := now, realTimeBase := now, paused := false)
  {
  }

  /** A step forward and a step back cancel out, leaving the clock paused. */
  lemma StepsCancel(now: Instant, c: Clock)
    ensures ClockKey(now, ClockKey(now, c, StepForward), StepBackward) == c.(paused := true)
    ensures ClockKey(now, ClockKey(now, c, FastStepForward), FastStepBack) == c.(paused := true)
  {
  }

  /** The follow key toggles following only when something is selected. */
  lemma FollowNeedsSelection(env: Env, s: AppState)
    ensures var r := MainKey(env, s, Follow).0;
      && (r.selection.following != s.selection.following <==> s.selection.selected.Some?)
      && r.(selection := s.selection) == s && r.selection.selected == s.selection.selected
  {
  }

  /** Each display key flips its own switch and no other. */
  lemma ToggleFlipsOne(t: Toggles, a: ToggleAction)
    ensures Switch(ToggleKey(t, a), a) == !Switch(t, a)
    ensures forall b :: b != a ==> Switch(ToggleKey(t, a), b) == Switch(t, b)
    ensures ToggleKey(ToggleKey(t, a), a) == t
    ensures ToggleKey(t, a) != t
  {
  }
}
