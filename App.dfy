/** The interactive model itself (internal/app/app.go `Model`, with the
    methods of internal/app/selection.go and internal/app/search.go): a
    class with the Go struct's fields whose methods update them in place.
    Every method is proved to move `State()` exactly as the matching
    function of `AppSelection`, `AppSearch` or `AppUpdate` says, so the
    properties proved about those functions hold of the class. */
module App {
  import opened Wrappers
  import opened Text
  import opened GoMath
  import opened GoTime
  import opened AstroObserver
  import opened Catalog
  import opened AstroPlanets
  import opened Configuration
  import opened RenderCanvas
  import opened CatalogStars
  import opened CatalogDeepSky
  import opened UiSearch
  import opened AppState
  import opened AppSelection
  import opened AppSearch
  import opened AppUpdate

  /** The size the model reads off its canvas, if it has one. */
  function SizeOf(canvas: Canvas?): Option<CanvasSize> {
    if canvas == null then None else Some(CanvasSize(canvas.width, canvas.height))
  }

  /** `Model`. Its fields are the Go struct's, kept in the groups of
      `AppState`: `view` holds `altitude`, `azimuth` and `fov`; `display`
      the seven `show...` switches, `magnitudeLimit`, `showHelp` and
      `showInfo`; `selection` holds `selectedObject` and `following`;
      `input` the two typing modes and their buffers; `clock` holds
      `currentTime`, `paused`, `timeStep`, `timeMultiplier` and
      `realTimeBase`. */
  class Model {
    var width: int
    var height: int
    var view: View
    var display: Display
    var selection: Selection
    var input: Input
    var clock: Clock
    const observer: Observer
    const starCatalog: StarCatalog
    const deepSkyCatalog: DeepSkyCatalog
    var planetarySystem: PlanetarySystem
    var canvas: Canvas?
    const config: Config

    /** What the two catalogs hold. */
    function Catalogs(): (seq<Star>, seq<MessierObject>)
      reads starCatalog, starCatalog.stars, deepSkyCatalog, deepSkyCatalog.objects
    {
      (starCatalog.stars[..], deepSkyCatalog.objects[..])
    }

    /** The fields as one value. */
    function State(): AppState
      reads this, starCatalog, starCatalog.stars, deepSkyCatalog, deepSkyCatalog.objects
    {
      var (stars, objs) := Catalogs();
      AppState(Screen(width, height, SizeOf(canvas)), view, display, selection, input, clock,
               Sky(stars, objs, planetarySystem))
    }

    /** `New()`, for the loaded configuration `cfg`, the duration parser
        and the wall clock `now`. */
    constructor (cfg: Config, parseDuration: string -> Option<int>, now: Instant)
      ensures State() == Initial(cfg, parseDuration, now)
      ensures config == cfg && observer == ObserverOf(cfg)
      ensures fresh(starCatalog) && fresh(starCatalog.stars) && fresh(deepSkyCatalog) && fresh(deepSkyCatalog.objects)
    {
      var timeStep := parseDuration(cfg.time.timeStep);
      var step := if timeStep.Some? then timeStep.value else Minute;
      width, height := 0, 0;
      view := View(45.0, 180.0, 60.0);
      display := Display(
        Toggles(cfg.display.showCoordinateGrid, cfg.display.showConstellationLines, cfg.display.showConstellationNames,
                false, cfg.display.showPlanetLabels, false, true),
        cfg.display.magnitudeLimit, false, false);
      selection := Selection(None, false);
      input := Input(false, "", false, "");
      clock := Clock(now, false, step, 1.0, now);
      observer := ObserverOf(cfg);
      starCatalog := new StarCatalog();
      deepSkyCatalog := new DeepSkyCatalog();
      planetarySystem := NoPlanets();
      canvas := null;
      config := cfg;
    }

    // ---------------------------------------------------------- selection.go

    /** `ClearSelection`. */
    method ClearSelection()
      modifies this
      ensures State() == ClearedSelection(old(State()))
    {
      selection := Selection(None, false);
    }

    /** The star loop of `SelectNearestObject`: every star up to the
        magnitude limit within the radius and closer than the best so far
        becomes the best. */
    method NearestStar(m: MathLib, size: CanvasSize) returns (b: Best)
      ensures b == Scan(StarCandidates(m, State(), size), NothingYet)
    {
      ghost var cs := StarCandidates(m, State(), size);
      var minDist := MaxFloat64;
      var nearest: Option<Selected> := None;
      var stars := starCatalog.Stars();
      for i := 0 to stars.Length
        invariant Best(minDist, nearest) == Scan(cs[..i], NothingYet)
      {
        assert cs[..i + 1][..i] == cs[..i];
        var star := stars[i];
        if star.magnitude > display.magnitudeLimit {
          continue;
        }
        var dist := DistanceToObject(m, view, size, star.altitude, star.azimuth);
        if dist < minDist && dist < SelectionRadius {
          minDist := dist;
          nearest := Some(SelectedStar(star));
        }
      }
      assert cs[..stars.Length] == cs;
      b := Best(minDist, nearest);
    }

    /** The body loop, run only while planets are shown. */
    method NearestPlanet(m: MathLib, size: CanvasSize, start: Best) returns (b: Best)
      ensures b == Scan(PlanetCandidates(m, State(), size), start)
    {
      ghost var ps := PlanetCandidates(m, State(), size);
      if !display.toggles.planets {
        ScanIgnored(ps, start);
        return start;
      }
      var minDist, nearest := start.minDist, start.nearest;
      var bodies := AllPlanets(planetarySystem);
      for i := 0 to |bodies|
        invariant Best(minDist, nearest) == Scan(ps[..i], start)
      {
        assert ps[..i + 1][..i] == ps[..i];
        var planet := bodies[i];
        var dist := DistanceToObject(m, view, size, planet.altitude, planet.azimuth);
        if dist < minDist && dist < SelectionRadius {
          minDist := dist;
          nearest := Some(SelectedPlanet(planet));
        }
      }
      assert ps[..|bodies|] == ps;
      b := Best(minDist, nearest);
    }

    /** The deep-sky loop, run only while deep-sky objects are shown, over
        objects up to three magnitudes fainter than the limit. */
    method NearestDeepSky(m: MathLib, size: CanvasSize, start: Best) returns (b: Best)
      ensures b == Scan(DeepSkyCandidates(m, State(), size), start)
    {
      ghost var ds := DeepSkyCandidates(m, State(), size);
      if !display.toggles.deepSky {
        ScanIgnored(ds, start);
        return start;
      }
      var minDist, nearest := start.minDist, start.nearest;
      var objs := deepSkyCatalog.Objects();
      for i := 0 to objs.Length
        invariant Best(minDist, nearest) == Scan(ds[..i], start)
      {
        assert ds[..i + 1][..i] == ds[..i];
        var obj := objs[i];
        if obj.magnitude > display.magnitudeLimit + 3.0 {
          continue;
        }
        var dist := DistanceToObject(m, view, size, obj.altitude, obj.azimuth);
        if dist < minDist && dist < SelectionRadius {
          minDist := dist;
          nearest := Some(SelectedDeepSky(obj));
        }
      }
      assert ds[..objs.Length] == ds;
      b := Best(minDist, nearest);
    }

    /** `SelectNearestObject`: nothing without a canvas; otherwise the
        three loops carry `minDist` and `nearest` from stars to bodies to
        deep-sky objects, and the pick becomes the selection. */
    method SelectNearestObject(m: MathLib)
      modifies this
      ensures State() == SelectedNearest(m, old(State()))
    {
      if canvas == null {
        return;
      }
      var size := CanvasSize(canvas.width, canvas.height);
      ghost var s := State();
      var afterStars := NearestStar(m, size);
      var afterPlanets := NearestPlanet(m, size, afterStars);
      var best := NearestDeepSky(m, size, afterPlanets);
      ghost var cs, ps, ds := StarCandidates(m, s, size), PlanetCandidates(m, s, size), DeepSkyCandidates(m, s, size);
      ScanAppend(cs, ps, NothingYet);
      ScanAppend(cs + ps, ds, NothingYet);
      selection := selection.(selected := best.nearest);
    }

    /** `CenterOnSelected`. */
    method CenterOnSelected()
      modifies this
      ensures State() == Centered(old(State()))
    {
      if selection.selected == None {
        return;
      }
      var alt, az := 0.0, 0.0;
      match selection.selected.value {
        case SelectedStar(st) =>
          alt, az := st.altitude, st.azimuth;
        case SelectedPlanet(p) =>
          alt, az := p.altitude, p.azimuth;
        case SelectedDeepSky(d) =>
          alt, az := d.altitude, d.azimuth;
      }
      if alt != 0.0 || az != 0.0 {
        view := view.(altitude := alt, azimuth := az);
      }
    }

    /** The first star named `name`, as the star loop of `UpdateFollowing`
        finds it. */
    method StarNamed(name: string) returns (r: Option<Star>)
      ensures r.Some? <==> FirstNamed(StarNames(starCatalog.stars[..]), name).Some?
      ensures r.Some? ==> r.value == starCatalog.stars[FirstNamed(StarNames(starCatalog.stars[..]), name).value]
    {
      ghost var names := StarNames(starCatalog.stars[..]);
      var stars := starCatalog.Stars();
      var i := 0;
      while i < stars.Length && stars[i].name != name
        invariant 0 <= i <= stars.Length
        invariant forall j :: 0 <= j < i ==> names[j] != name
      {
        i := i + 1;
      }
      if i < stars.Length {
        FirstNamedAt(names, name, i);
        r := Some(stars[i]);
      } else {
        r := None;
      }
    }

    /** The first body named `name`. */
    method PlanetNamed(name: string) returns (r: Option<Planet>)
      ensures var bodies := AllPlanets(planetarySystem);
        && (r.Some? <==> FirstNamed(PlanetNames(bodies), name).Some?)
        && (r.Some? ==> r.value == bodies[FirstNamed(PlanetNames(bodies), name).value])
    {
      var bodies := AllPlanets(planetarySystem);
      ghost var names := PlanetNames(bodies);
      var i := 0;
      while i < |bodies| && bodies[i].name != name
        invariant 0 <= i <= |bodies|
        invariant forall j :: 0 <= j < i ==> names[j] != name
      {
        i := i + 1;
      }
      if i < |bodies| {
        FirstNamedAt(names, name, i);
        r := Some(bodies[i]);
      } else {
        r := None;
      }
    }

    /** The first deep-sky object named `name`. */
    method DeepSkyNamed(name: string) returns (r: Option<MessierObject>)
      ensures r.Some? <==> FirstNamed(DeepSkyNames(deepSkyCatalog.objects[..]), name).Some?
      ensures r.Some? ==> r.value == deepSkyCatalog.objects[FirstNamed(DeepSkyNames(deepSkyCatalog.objects[..]), name).value]
    {
      ghost var names := DeepSkyNames(deepSkyCatalog.objects[..]);
      var objs := deepSkyCatalog.Objects();
      var i := 0;
      while i < objs.Length && objs[i].name != name
        invariant 0 <= i <= objs.Length
        invariant forall j :: 0 <= j < i ==> names[j] != name
      {
        i := i + 1;
      }
      if i < objs.Length {
        FirstNamedAt(names, name, i);
        r := Some(objs[i]);
      } else {
        r := None;
      }
    }

    /** `UpdateFollowing`: the first object of the selection's kind with
        its name replaces the copy, and the view moves onto it. */
    method UpdateFollowing()
      modifies this
      ensures State() == Followed(old(State()))
    {
      if !selection.following || selection.selected.None? {
        return;
      }
      var latest: Option<Selected>;
      match selection.selected.value {
        case SelectedStar(st) =>
          var r := StarNamed(st.name);
          latest := if r.Some? then Some(SelectedStar(r.value)) else None;
        case SelectedPlanet(p) =>
          var r := PlanetNamed(p.name);
          latest := if r.Some? then Some(SelectedPlanet(r.value)) else None;
        case SelectedDeepSky(d) =>
          var r := DeepSkyNamed(d.name);
          latest := if r.Some? then Some(SelectedDeepSky(r.value)) else None;
      }
      assert latest == Refreshed(State(), selection.selected.value);
      if latest.Some? {
        var (alt, az) := latest.value.Position();
        selection := selection.(selected := latest);
        view := view.(altitude := alt, azimuth := az);
      }
    }

    // ---------------------------------------------------------- search.go

    /** Select `hit`, centre on it and show the info panel: what each loop
        of `performSearch` does on its first match. */
    method SelectHit(hit: Selected)
      requires input.searchQuery != [] && HitIn(State()) == Some(hit)
      modifies this
      ensures State() == Searched(old(State()))
    {
      selection := selection.(selected := Some(hit));
      CenterOnSelected();
      display := display.(showInfo := true);
    }

    /** The first star whose name matches the normalised query `q`. */
    method StarMatching(q: string) returns (r: Option<Star>)
      ensures r.Some? <==> FirstMatch(StarNames(starCatalog.stars[..]), q).Some?
      ensures r.Some? ==> r.value == starCatalog.stars[FirstMatch(StarNames(starCatalog.stars[..]), q).value]
    {
      ghost var names := StarNames(starCatalog.stars[..]);
      var stars := starCatalog.Stars();
      var i := 0;
      while i < stars.Length && !Matches(stars[i].name, q)
        invariant 0 <= i <= stars.Length
        invariant forall j :: 0 <= j < i ==> !Matches(names[j], q)
      {
        i := i + 1;
      }
      if i < stars.Length {
        FirstMatchAt(names, q, i);
        r := Some(stars[i]);
      } else {
        r := None;
      }
    }

    /** The first body whose name matches `q`. */
    method PlanetMatching(q: string) returns (r: Option<Planet>)
      ensures var bodies := AllPlanets(planetarySystem);
        && (r.Some? <==> FirstMatch(PlanetNames(bodies), q).Some?)
        && (r.Some? ==> r.value == bodies[FirstMatch(PlanetNames(bodies), q).value])
    {
      var bodies := AllPlanets(planetarySystem);
      ghost var names := PlanetNames(bodies);
      var i := 0;
      while i < |bodies| && !Matches(bodies[i].name, q)
        invariant 0 <= i <= |bodies|
        invariant forall j :: 0 <= j < i ==> !Matches(names[j], q)
      {
        i := i + 1;
      }
      if i < |bodies| {
        FirstMatchAt(names, q, i);
        r := Some(bodies[i]);
      } else {
        r := None;
      }
    }

    /** The first deep-sky object whose "name common-name" matches `q`. */
    method DeepSkyMatching(q: string) returns (r: Option<MessierObject>)
      ensures r.Some? <==> FirstMatch(DeepSkyTexts(deepSkyCatalog.objects[..]), q).Some?
      ensures r.Some? ==> r.value == deepSkyCatalog.objects[FirstMatch(DeepSkyTexts(deepSkyCatalog.objects[..]), q).value]
    {
      ghost var texts := DeepSkyTexts(deepSkyCatalog.objects[..]);
      var objs := deepSkyCatalog.Objects();
      var i := 0;
      while i < objs.Length && !Matches(objs[i].name + " " + objs[i].commonName, q)
        invariant 0 <= i <= objs.Length
        invariant forall j :: 0 <= j < i ==> !Matches(texts[j], q)
      {
        i := i + 1;
      }
      if i < objs.Length {
        FirstMatchAt(texts, q, i);
        r := Some(objs[i]);
      } else {
        r := None;
      }
    }

    /** `performSearch`: the first star, else the first body, else the
        first deep-sky object matching the normalised query is selected,
        centred on and shown in the info panel. */
    method PerformSearch()
      modifies this
      ensures State() == Searched(old(State()))
    {
      if input.searchQuery == "" {
        return;
      }
      ghost var s := State();
      var query := NormalizedQuery(input.searchQuery);
      var star := StarMatching(query);
      if star.Some? {
        SelectHit(SelectedStar(star.value));
        return;
      }
      var body := PlanetMatching(query);
      if body.Some? {
        SelectHit(SelectedPlanet(body.value));
        return;
      }
      var obj := DeepSkyMatching(query);
      if obj.Some? {
        SelectHit(SelectedDeepSky(obj.value));
      } else {
        assert HitIn(s) == None;
      }
    }

    // ---------------------------------------------------------- app.go Update

    /** The clock part of the `TickMsg` branch. */
    method AdvanceClock(realNow: Instant)
      modifies this
      ensures State() == old(State()).(clock := Clocked(old(clock), realNow))
    {
      if !clock.paused {
        var elapsed := Sub(realNow, clock.realTimeBase);
        var scaledElapsed := Trunc(elapsed as real * clock.timeMultiplier);
        clock := clock.(currentTime := Add(clock.realTimeBase, scaledElapsed));
        if clock.timeMultiplier == 1.0 {
          clock := clock.(realTimeBase := realNow);
        }
      }
    }

    /** Both catalogs and the planetary system placed for the current
        time. */
    method PlaceAll(m: MathLib, eph: Ephemeris)
      modifies this, starCatalog.stars, deepSkyCatalog.objects
      ensures State() == old(State()).(sky := Placed(m, eph, observer, old(State()).sky, old(clock).currentTime))
    {
      ghost var sky := State().sky;
      starCatalog.UpdatePositions(m, observer, clock.currentTime);
      deepSkyCatalog.UpdatePositions(m, observer, clock.currentTime);
      assert Catalogs() == (PlacedStars(m, sky.stars, observer, clock.currentTime), PlacedObjects(m, sky.deepSky, observer, clock.currentTime));
      planetarySystem := CalculatePlanets(m, eph, clock.currentTime, observer);
    }

    /** The `TickMsg` branch. */
    method Tick(m: MathLib, eph: Ephemeris, realNow: Instant)
      modifies this, starCatalog.stars, deepSkyCatalog.objects
      ensures State() == Ticked(m, eph, observer, old(State()), realNow)
    {
      AdvanceClock(realNow);
      PlaceAll(m, eph);
      UpdateFollowing();
    }

    /** The `WindowSizeMsg` branch. */
    method Resize(w: int, h: int)
      requires w >= 0 && h >= 2
      modifies this
      ensures State() == Resized(old(State()), w, h)
      ensures canvas != null && fresh(canvas) && canvas.Valid()
    {
      width := w;
      height := h - 2;
      canvas := new Canvas(width, height);
    }

    /** A key while the time-input box is open. */
    method TimeInputKeyPressed(env: Env, text: string)
      modifies this
      ensures State() == TimeInputKey(env, old(State()), text)
    {
      if text == "esc" {
        input := input.(timeInputMode := false, timeInput := "");
      } else if text == "enter" {
        if input.timeInput != "" {
          var first := env.parseTime(TimeLayouts[0], input.timeInput);
          if first.Some? {
            clock := clock.(currentTime := first.value, realTimeBase := env.now, paused := true);
          } else {
            var second := env.parseTime(TimeLayouts[1], input.timeInput);
            if second.Some? {
              clock := clock.(currentTime := second.value, realTimeBase := env.now, paused := true);
            } else {
              var third := env.parseTime(TimeLayouts[2], input.timeInput);
              if third.Some? {
                clock := clock.(currentTime := third.value, realTimeBase := env.now, paused := true);
              }
            }
          }
        }
        input := input.(timeInputMode := false, timeInput := "");
      } else if text == "backspace" {
        if |input.timeInput| > 0 {
          input := input.(timeInput := input.timeInput[..|input.timeInput| - 1]);
        }
      } else if Typeable(text) {
        input := input.(timeInput := input.timeInput + text);
      }
    }

    /** A key while the search box is open. */
    method SearchKeyPressed(text: string)
      modifies this
      ensures State() == SearchKey(old(State()), text)
    {
      if text == "esc" {
        input := input.(searchMode := false, searchQuery := "");
      } else if text == "enter" {
        PerformSearch();
        input := input.(searchMode := false, searchQuery := "");
      } else if text == "backspace" {
        if |input.searchQuery| > 0 {
          input := input.(searchQuery := input.searchQuery[..|input.searchQuery| - 1]);
        }
      } else if Typeable(text) {
        input := input.(searchQuery := input.searchQuery + text);
      }
    }

    /** The time keys of the main view. */
    method TimeKeyPressed(now: Instant, a: TimeAction)
      modifies this
      ensures State() == old(State()).(clock := ClockKey(now, old(clock), a))
    {
      match a
      case PauseResume =>
        clock := clock.(paused := !clock.paused);
        if !clock.paused {
          clock := clock.(realTimeBase := now);
        }
      case StepForward =>
        clock := clock.(currentTime := Add(clock.currentTime, clock.timeStep), paused := true);
      case StepBackward =>
        clock := clock.(currentTime := Add(clock.currentTime, -clock.timeStep), paused := true);
      case FastStepForward =>
        clock := clock.(currentTime := Add(clock.currentTime, clock.timeStep * 10), paused := true);
      case FastStepBack =>
        clock := clock.(currentTime := Add(clock.currentTime, -clock.timeStep * 10), paused := true);
      case JumpToNow =>
        clock := clock.(currentTime := now, realTimeBase := now, paused := false);
    }

    /** Where the navigation key `a` of the main view moves the view,
        with the configured controls. */
    method NavigatedView(a: NavAction) returns (v: View)
      ensures v == NavView(config.controls, view, a)
    {
      var c := config.controls;
      var fast := FastPan(c);
      v := view;
      match a {
        case Up => v := v.(altitude := MinR(90.0, v.altitude + c.panSpeed)); return;
        case Down => v := v.(altitude := MaxR(-90.0, v.altitude - c.panSpeed)); return;
        case Left => v := v.(azimuth := Mod360(v.azimuth - c.panSpeed + 360.0)); return;
        case Right => v := v.(azimuth := Mod360(v.azimuth + c.panSpeed)); return;
        case FastUp => v := v.(altitude := MinR(90.0, v.altitude + fast)); return;
        case FastDown => v := v.(altitude := MaxR(-90.0, v.altitude - fast)); return;
        case FastLeft => v := v.(azimuth := Mod360(v.azimuth - fast + 360.0)); return;
        case FastRight => v := v.(azimuth := Mod360(v.azimuth + fast)); return;
        case ZoomIn => v := v.(fov := ZoomedIn(v.fov, c.zoomStep)); return;
        case ZoomOut => v := v.(fov := ZoomedOut(v.fov, c.zoomStep)); return;
        case Reset => v := View(45.0, 180.0, 60.0); return;
        case North => v := v.(azimuth := 0.0); return;
        case South => v := v.(azimuth := 180.0); return;
        case East => v := v.(azimuth := 90.0); return;
        case West => v := v.(azimuth := 270.0); return;
        case Zenith => v := v.(altitude := 90.0); return;
      }
    }

    /** The navigation keys of the main view. */
    method NavKeyPressed(a: NavAction)
      modifies this
      ensures State() == old(State()).(view := NavView(config.controls, old(view), a))
    {
      var v := NavigatedView(a);
      view := v;
    }

    /** The display toggles of the main view. */
    method ToggleKeyPressed(a: ToggleAction)
      modifies this
      ensures State() == old(State()).(display := old(display).(toggles := ToggleKey(old(display).toggles, a)))
    {
      var t := display.toggles;
      match a
      case Grid => display := display.(toggles := t.(grid := !t.grid));
      case Constellations => display := display.(toggles := t.(constellations := !t.constellations));
      case Names => display := display.(toggles := t.(names := !t.names));
      case Planets => display := display.(toggles := t.(planets := !t.planets));
      case PlanetLabels => display := display.(toggles := t.(planetLabels := !t.planetLabels));
      case DeepSky => display := display.(toggles := t.(deepSky := !t.deepSky));
      case StarLabels => display := display.(toggles := t.(starLabels := !t.starLabels));
    }

    /** A key in the main view; `quit` is `tea.Quit`. */
    method MainKeyPressed(env: Env, a: Action) returns (quit: bool)
      requires env.controls == config.controls
      modifies this
      ensures (State(), quit) == MainKey(env, old(State()), a)
    {
      quit := false;
      match a
      case Help => display := display.(showHelp := true);
      case Quit => quit := true;
      case Select => SelectNearestObject(env.m);
      case Info => display := display.(showInfo := !display.showInfo);
      case Center => CenterOnSelected();
      case Follow =>
        if selection.selected != None {
          selection := selection.(following := !selection.following);
        }
      case Search => input := input.(searchMode := true, searchQuery := "");
      case SetTime => input := input.(timeInputMode := true, timeInput := "");
      case Time(t) => TimeKeyPressed(env.now, t);
      case Nav(n) => NavKeyPressed(n);
      case Toggle(g) => ToggleKeyPressed(g);
      case Magnitude =>
        var limit := display.magnitudeLimit;
        if limit == 3.0 {
          limit := 4.0;
        } else if limit == 4.0 {
          limit := 5.0;
        } else if limit == 5.0 {
          limit := 6.0;
        } else {
          limit := 3.0;
        }
        display := display.(magnitudeLimit := limit);
      case Unbound =>
    }

    /** The `KeyMsg` branch. */
    method KeyMsgReceived(env: Env, k: Key) returns (quit: bool)
      requires env.controls == config.controls
      modifies this
      ensures (State(), quit) == KeyPressed(env, old(State()), k)
    {
      quit := false;
      if input.timeInputMode {
        TimeInputKeyPressed(env, k.text);
        return;
      }
      if input.searchMode {
        SearchKeyPressed(k.text);
        return;
      }
      if display.showHelp {
        if ClosesHelp(k) {
          display := display.(showHelp := false);
        }
        return;
      }
      quit := MainKeyPressed(env, k.action);
    }

    /** `Update(msg)`, for an environment that carries this model's
        observer and controls. */
    method Update(env: Env, msg: Msg) returns (quit: bool)
      requires Handles(msg) && env.observer == observer && env.controls == config.controls
      modifies this, starCatalog.stars, deepSkyCatalog.objects
      ensures (State(), quit) == Updated(env, old(State()), msg)
    {
      match msg
      case TickMsg(realNow) =>
        Tick(env.m, env.eph, realNow);
        quit := false;
      case WindowSize(w, h) =>
        Resize(w, h);
        quit := false;
      case KeyMsg(k) =>
        quit := KeyMsgReceived(env, k);
    }
  }
}
