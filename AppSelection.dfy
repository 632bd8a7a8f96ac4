/** Selecting, centring on and following an object
    (internal/app/selection.go), as functions of the model's state. */
module AppSelection {
  import opened Wrappers
  import opened GoMath
  import opened Catalog
  import opened AstroPlanets
  import opened RenderStars
  import opened AppState

  /** `math.MaxFloat64`, the distance of an object that is not on screen. */
  const MaxFloat64: real := 1.7976931348623157e308

  /** Objects closer to the centre than this many cells can be selected. */
  const SelectionRadius: real := 15.0

  // ------------------------------------------------------------ clearing

  /** `ClearSelection`: no selection and no following. */
  function ClearedSelection(s: AppState): (r: AppState)
    ensures r.selection.selected == None && !r.selection.following
    ensures r.(selection := s.selection) == s
  {
    s.(selection := Selection(None, false))
  }

  // ------------------------------------------------------------ distance

  /** The centre of a canvas, with Go's integer division. */
  function CenterOf(size: CanvasSize): (int, int) {
    (Quot(size.width, 2), Quot(size.height, 2))
  }

  /** Where an object at (`alt`, `az`) lands on the canvas for the current
      view. */
  function OnCanvas(m: MathLib, v: View, size: CanvasSize, alt: real, az: real): Projection {
    Project(m, alt, az, v.altitude, v.azimuth, v.fov, size.width, size.height)
  }

  /** The squared distance in cells of a projected point from the centre. */
  function SquaredOffset(size: CanvasSize, p: Projection): (r: real)
    ensures r >= 0.0
  {
    var (cx, cy) := CenterOf(size);
    var dx := (p.x - cx) as real;
    var dy := (p.y - cy) as real;
    SquareNonNegative(dx);
    SquareNonNegative(dy);
    dx * dx + dy * dy
  }

  /** `distanceToObject(alt, az, centerX, centerY)`: the on-screen distance
      in cells from the centre, or `MaxFloat64` when the object does not
      project onto the canvas. */
  function DistanceToObject(m: MathLib, v: View, size: CanvasSize, alt: real, az: real): real {
    var p := OnCanvas(m, v, size, alt, az);
    if !p.visible then MaxFloat64 else m.sqrt(SquaredOffset(size, p))
  }

  /** With a square root that is one, an object is within the radius
      exactly when it is on screen and its squared distance in cells is
      under 225. */
  lemma WithinRadius(m: MathLib, v: View, size: CanvasSize, alt: real, az: real)
    requires SqrtIsRoot(m)
    ensures var p := OnCanvas(m, v, size, alt, az);
      DistanceToObject(m, v, size, alt, az) < SelectionRadius <==> p.visible && SquaredOffset(size, p) < 225.0
  {
    var p := OnCanvas(m, v, size, alt, az);
    if p.visible {
      SqrtBelowRadius(m, SquaredOffset(size, p));
    }
  }

  lemma SquareNonNegative(x: real)
    ensures x * x >= 0.0
  {
    if x < 0.0 {
      assert x * x == (-x) * (-x);
    }
  }

  /** A root of a non-negative number is under 15 exactly when the number
      is under 225. */
  lemma SqrtBelowRadius(m: MathLib, x: real)
    requires SqrtIsRoot(m) && x >= 0.0
    ensures m.sqrt(x) < SelectionRadius <==> x < 225.0
  {
    var r := m.sqrt(x);
    assert r >= 0.0 && r * r == x;
    if r < 15.0 {
      MulStrict(r, 15.0);
    } else {
      MulMono(15.0, r);
    }
  }

  lemma MulPositive(x: real, y: real)
    requires x > 0.0 && y > 0.0
    ensures x * y > 0.0
  {
  }

  lemma MulStrict(a: real, b: real)
    requires 0.0 <= a < b
    ensures a * a < b * b
  {
    MulPositive(b - a, b + a);
    assert b * b - a * a == (b - a) * (b + a);
  }

  lemma MulMono(a: real, b: real)
    requires 0.0 <= a <= b
    ensures a * a <= b * b
  {
    if a < b {
      MulStrict(a, b);
    }
  }

  // ------------------------------------------------------------ the scan

  /** One object the scan looks at: the selection it would make, whether
      its kind and magnitude let it be considered, and its distance. */
  datatype Candidate = Candidate(sel: Selected, eligible: bool, dist: real)

  /** The scan's `minDist` and `nearest`. */
  datatype Best = Best(minDist: real, nearest: Option<Selected>)

  const NothingYet: Best := Best(MaxFloat64, None)

  /** One step of the scan: a considered object strictly closer than the
      best so far and within the radius replaces it. */
  function Consider(b: Best, c: Candidate): Best {
    if c.eligible && c.dist < b.minDist && c.dist < SelectionRadius then Best(c.dist, Some(c.sel)) else b
  }

  function Scan(cs: seq<Candidate>, b: Best): Best {
    if cs == [] then b else Consider(Scan(cs[..|cs| - 1], b), cs[|cs| - 1])
  }

  /** Scanning two lists is scanning the first, then the second. */
  lemma {:induction false} ScanAppend(a: seq<Candidate>, b: seq<Candidate>, start: Best)
    ensures Scan(a + b, start) == Scan(b, Scan(a, start))
    decreases |b|
  {
    if b == [] {
      assert a + b == a;
    } else {
      assert (a + b)[..|a + b| - 1] == a + b[..|b| - 1];
      ScanAppend(a, b[..|b| - 1], start);
    }
  }

  /** A list of objects none of which is considered leaves the scan as it
      was. */
  lemma {:induction false} ScanIgnored(cs: seq<Candidate>, start: Best)
    requires forall k :: 0 <= k < |cs| ==> !cs[k].eligible
    ensures Scan(cs, start) == start
  {
    if cs != [] {
      ScanIgnored(cs[..|cs| - 1], start);
    }
  }

  /** An object the scan may pick. */
  predicate Qualifies(c: Candidate) {
    c.eligible && c.dist < SelectionRadius
  }

  /** Object `k` is the scan's pick: it qualifies, every earlier qualifying
      object is strictly farther, and no later one is closer. */
  predicate PickedAt(cs: seq<Candidate>, k: int, b: Best) {
    && 0 <= k < |cs| && Qualifies(cs[k])
    && b.nearest == Some(cs[k].sel) && b.minDist == cs[k].dist
    && (forall j :: 0 <= j < k && Qualifies(cs[j]) ==> cs[j].dist > cs[k].dist)
    && (forall j :: k < j < |cs| && Qualifies(cs[j]) ==> cs[j].dist >= cs[k].dist)
  }

  /** The scan from the start picks nothing exactly when nothing qualifies,
      and otherwise the nearest qualifying object, the earliest one among
      equally near ones. */
  lemma {:induction false} ScanPicksNearest(cs: seq<Candidate>)
    ensures var b := Scan(cs, NothingYet);
      && (b.nearest == None <==> forall j :: 0 <= j < |cs| ==> !Qualifies(cs[j]))
      && (b.nearest == None ==> b.minDist == MaxFloat64)
      && (b.nearest.Some? ==> exists k :: PickedAt(cs, k, b))
  {
    if cs != [] {
      var init := cs[..|cs| - 1];
      var c := cs[|cs| - 1];
      var b0 := Scan(init, NothingYet);
      var b := Scan(cs, NothingYet);
      ScanPicksNearest(init);
      assert b == Consider(b0, c);
      assert forall j :: 0 <= j < |init| ==> cs[j] == init[j];
      if b0.nearest.Some? {
        var k0 :| PickedAt(init, k0, b0);
        if c.eligible && c.dist < b0.minDist && c.dist < SelectionRadius {
          assert PickedAt(cs, |cs| - 1, b);
        } else {
          assert PickedAt(cs, k0, b);
        }
      } else if c.eligible && c.dist < b0.minDist && c.dist < SelectionRadius {
        assert PickedAt(cs, |cs| - 1, b);
      }
    }
  }

  // ------------------------------------------------------------ what is scanned

  /** A star is considered when it is not fainter than the limit. */
  function StarCandidate(m: MathLib, s: AppState, size: CanvasSize, star: Star): Candidate {
    Candidate(SelectedStar(star), !(star.magnitude > s.display.magnitudeLimit),
              DistanceToObject(m, s.view, size, star.altitude, star.azimuth))
  }

  /** A body is considered when planets are shown. */
  function PlanetCandidate(m: MathLib, s: AppState, size: CanvasSize, p: Planet): Candidate {
    Candidate(SelectedPlanet(p), s.display.toggles.planets, DistanceToObject(m, s.view, size, p.altitude, p.azimuth))
  }

  /** A deep-sky object is considered when deep-sky objects are shown and
      it is not fainter than the limit plus three. */
  function DeepSkyCandidate(m: MathLib, s: AppState, size: CanvasSize, d: MessierObject): Candidate {
    Candidate(SelectedDeepSky(d), s.display.toggles.deepSky && !(d.magnitude > s.display.magnitudeLimit + 3.0),
              DistanceToObject(m, s.view, size, d.altitude, d.azimuth))
  }

  function StarCandidates(m: MathLib, s: AppState, size: CanvasSize): (r: seq<Candidate>)
    ensures |r| == |s.sky.stars|
    ensures forall k :: 0 <= k < |r| ==>
      r[k].sel == SelectedStar(s.sky.stars[k]) && (r[k].eligible <==> s.sky.stars[k].magnitude <= s.display.magnitudeLimit)
  {
    seq(|s.sky.stars|, k requires 0 <= k < |s.sky.stars| => StarCandidate(m, s, size, s.sky.stars[k]))
  }

  function PlanetCandidates(m: MathLib, s: AppState, size: CanvasSize): (r: seq<Candidate>)
    ensures |r| == 9
    ensures forall k :: 0 <= k < |r| ==>
      r[k].sel == SelectedPlanet(AllPlanets(s.sky.planets)[k]) && (r[k].eligible <==> s.display.toggles.planets)
  {
    var bodies := AllPlanets(s.sky.planets);
    seq(|bodies|, k requires 0 <= k < |bodies| => PlanetCandidate(m, s, size, bodies[k]))
  }

  function DeepSkyCandidates(m: MathLib, s: AppState, size: CanvasSize): (r: seq<Candidate>)
    ensures |r| == |s.sky.deepSky|
    ensures forall k :: 0 <= k < |r| ==>
      r[k].sel == SelectedDeepSky(s.sky.deepSky[k])
      && (r[k].eligible <==> s.display.toggles.deepSky && s.sky.deepSky[k].magnitude <= s.display.magnitudeLimit + 3.0)
  {
    seq(|s.sky.deepSky|, k requires 0 <= k < |s.sky.deepSky| => DeepSkyCandidate(m, s, size, s.sky.deepSky[k]))
  }

  /** Stars in catalog order, then the nine bodies, then deep-sky objects. */
  function Candidates(m: MathLib, s: AppState, size: CanvasSize): seq<Candidate> {
    StarCandidates(m, s, size) + PlanetCandidates(m, s, size) + DeepSkyCandidates(m, s, size)
  }

  /** `SelectNearestObject`: nothing happens without a canvas; otherwise the
      selection becomes the scan's pick, or nil. */
  function SelectedNearest(m: MathLib, s: AppState): AppState {
    match s.screen.canvas
    case None => s
    case Some(size) => s.(selection := s.selection.(selected := Scan(Candidates(m, s, size), NothingYet).nearest))
  }

  /** What selecting does: without a canvas nothing; otherwise only the
      selection changes, to nil when no object qualifies and otherwise to
      the nearest qualifying one, the earliest among equals. */
  lemma SelectedNearestSpec(m: MathLib, s: AppState)
    ensures s.screen.canvas.None? ==> SelectedNearest(m, s) == s
    ensures SelectedNearest(m, s).(selection := s.selection) == s
    ensures SelectedNearest(m, s).selection.following == s.selection.following
    ensures s.screen.canvas.Some? ==>
      var cs := Candidates(m, s, s.screen.canvas.value);
      var r := SelectedNearest(m, s).selection.selected;
      && (r == None <==> forall j :: 0 <= j < |cs| ==> !Qualifies(cs[j]))
      && (r.Some? ==> exists k :: PickedAt(cs, k, Scan(cs, NothingYet)))
  {
    if s.screen.canvas.Some? {
      ScanPicksNearest(Candidates(m, s, s.screen.canvas.value));
    }
  }

  /** The scan looks at every star first, in catalog order, and considers
      those up to the magnitude limit. */
  lemma ScannedStars(m: MathLib, s: AppState, size: CanvasSize)
    ensures var cs := Candidates(m, s, size);
      && |cs| == |s.sky.stars| + 9 + |s.sky.deepSky|
      && forall k :: 0 <= k < |s.sky.stars| ==>
           cs[k].sel == SelectedStar(s.sky.stars[k]) && (cs[k].eligible <==> s.sky.stars[k].magnitude <= s.display.magnitudeLimit)
  {
    var a := StarCandidates(m, s, size);
    var cs := Candidates(m, s, size);
    assert forall k :: 0 <= k < |a| ==> cs[k] == a[k];
  }

  /** Then the Sun, the Moon and the seven planets, considered only when
      planets are shown. */
  lemma ScannedPlanets(m: MathLib, s: AppState, size: CanvasSize)
    ensures var cs := Candidates(m, s, size);
      var ns := |s.sky.stars|;
      forall k :: ns <= k < ns + 9 ==>
        cs[k].sel == SelectedPlanet(AllPlanets(s.sky.planets)[k - ns]) && (cs[k].eligible <==> s.display.toggles.planets)
  {
    var a, b := StarCandidates(m, s, size), PlanetCandidates(m, s, size);
    var cs := Candidates(m, s, size);
    assert forall k :: |a| <= k < |a| + |b| ==> cs[k] == b[k - |a|];
  }

  /** Then the deep-sky objects, considered only when they are shown and
      not fainter than the limit plus three. */
  lemma ScannedDeepSky(m: MathLib, s: AppState, size: CanvasSize)
    ensures var cs := Candidates(m, s, size);
      var n := |s.sky.stars| + 9;
      forall k :: n <= k < |cs| ==>
        && cs[k].sel == SelectedDeepSky(s.sky.deepSky[k - n])
        && (cs[k].eligible <==> s.display.toggles.deepSky && s.sky.deepSky[k - n].magnitude <= s.display.magnitudeLimit + 3.0)
  {
    var a, b, c := StarCandidates(m, s, size), PlanetCandidates(m, s, size), DeepSkyCandidates(m, s, size);
    var cs := Candidates(m, s, size);
    assert forall k :: |a| + |b| <= k < |cs| ==> cs[k] == c[k - |a| - |b|];
  }

  // ------------------------------------------------------------ centring

  /** `CenterOnSelected`: the view moves to the selection's position unless
      there is no selection or that position is (0, 0). */
  function Centered(s: AppState): AppState {
    match s.selection.selected
    case None => s
    case Some(sel) =>
      var (alt, az) := sel.Position();
      if alt != 0.0 || az != 0.0 then s.(view := s.view.(altitude := alt, azimuth := az)) else s
  }

  /** Centring only ever moves the view, onto the selection, and centring
      again changes nothing. */
  lemma CenteredSpec(s: AppState)
    ensures Centered(s).(view := s.view) == s && Centered(s).view.fov == s.view.fov
    ensures s.selection.selected == None ==> Centered(s) == s
    ensures Centered(s) != s ==> s.selection.selected.Some? && (Centered(s).view.altitude, Centered(s).view.azimuth) == s.selection.selected.value.Position()
    ensures s.selection.selected.Some? && s.selection.selected.value.Position() != (0.0, 0.0) ==>
      (Centered(s).view.altitude, Centered(s).view.azimuth) == s.selection.selected.value.Position()
    ensures s.selection.selected.Some? && s.selection.selected.value.Position() == (0.0, 0.0) ==> Centered(s) == s
    ensures Centered(Centered(s)) == Centered(s)
  {
  }

  // ------------------------------------------------------------ following

  /** The index of the first name equal to `name`. */
  function FirstNamed(names: seq<string>, name: string): (r: Option<nat>)
    ensures r.Some? ==> r.value < |names| && names[r.value] == name
                        && forall j :: 0 <= j < r.value ==> names[j] != name
    ensures r.None? ==> name !in names
  {
    if names == [] then None
    else if names[0] == name then Some(0)
    else match FirstNamed(names[1..], name)
      case None => None
      case Some(k) => Some(k + 1)
  }

  /** A name found at `i` and nowhere before is the first found. */
  lemma FirstNamedAt(names: seq<string>, name: string, i: int)
    requires 0 <= i < |names| && names[i] == name
    requires forall j :: 0 <= j < i ==> names[j] != name
    ensures FirstNamed(names, name) == Some(i)
  {
  }

  function StarNames(stars: seq<Star>): seq<string> {
    seq(|stars|, k requires 0 <= k < |stars| => stars[k].name)
  }

  function PlanetNames(bodies: seq<Planet>): seq<string> {
    seq(|bodies|, k requires 0 <= k < |bodies| => bodies[k].name)
  }

  function DeepSkyNames(objs: seq<MessierObject>): seq<string> {
    seq(|objs|, k requires 0 <= k < |objs| => objs[k].name)
  }

  /** The latest copy of the selected object: the first object of the same
      kind with the same name, if there is one. */
  function Refreshed(s: AppState, sel: Selected): Option<Selected> {
    match sel
    case SelectedStar(st) =>
      (match FirstNamed(StarNames(s.sky.stars), st.name)
       case Some(i) => Some(SelectedStar(s.sky.stars[i]))
       case None => None)
    case SelectedPlanet(p) =>
      var bodies := AllPlanets(s.sky.planets);
      (match FirstNamed(PlanetNames(bodies), p.name)
       case Some(i) => Some(SelectedPlanet(bodies[i]))
       case None => None)
    case SelectedDeepSky(d) =>
      (match FirstNamed(DeepSkyNames(s.sky.deepSky), d.name)
       case Some(i) => Some(SelectedDeepSky(s.sky.deepSky[i]))
       case None => None)
  }

  /** `UpdateFollowing`: when following a selection, the selection is
      replaced by its latest copy and the view moves to it (even to (0, 0));
      an object no longer found leaves everything as it was. */
  function Followed(s: AppState): AppState {
    if !s.selection.following || s.selection.selected.None? then s
    else match Refreshed(s, s.selection.selected.value)
      case None => s
      case Some(latest) =>
        var (alt, az) := latest.Position();
        s.(selection := s.selection.(selected := Some(latest)), view := s.view.(altitude := alt, azimuth := az))
  }

  /** The latest copy is the first object of the selection's kind, in
      catalog order, that has the selection's name; there is none exactly
      when no object of that kind has the name. */
  lemma RefreshedSameObject(s: AppState, sel: Selected)
    ensures Refreshed(s, sel).Some? ==>
      Refreshed(s, sel).value.Name() == sel.Name()
      && (sel.SelectedStar? <==> Refreshed(s, sel).value.SelectedStar?)
      && (sel.SelectedPlanet? <==> Refreshed(s, sel).value.SelectedPlanet?)
    ensures sel.SelectedStar? ==> forall i ::
      (0 <= i < |s.sky.stars| && s.sky.stars[i].name == sel.star.name && forall j :: 0 <= j < i ==> s.sky.stars[j].name != sel.star.name) ==>
      Refreshed(s, sel) == Some(SelectedStar(s.sky.stars[i]))
    ensures sel.SelectedPlanet? ==> forall i ::
      (0 <= i < 9 && AllPlanets(s.sky.planets)[i].name == sel.planet.name && forall j :: 0 <= j < i ==> AllPlanets(s.sky.planets)[j].name != sel.planet.name) ==>
      Refreshed(s, sel) == Some(SelectedPlanet(AllPlanets(s.sky.planets)[i]))
    ensures sel.SelectedDeepSky? ==> forall i ::
      (0 <= i < |s.sky.deepSky| && s.sky.deepSky[i].name == sel.obj.name && forall j :: 0 <= j < i ==> s.sky.deepSky[j].name != sel.obj.name) ==>
      Refreshed(s, sel) == Some(SelectedDeepSky(s.sky.deepSky[i]))
    ensures Refreshed(s, sel).None? <==>
      match sel
      case SelectedStar(st) => forall k :: 0 <= k < |s.sky.stars| ==> s.sky.stars[k].name != st.name
      case SelectedPlanet(p) => forall k :: 0 <= k < 9 ==> AllPlanets(s.sky.planets)[k].name != p.name
      case SelectedDeepSky(d) => forall k :: 0 <= k < |s.sky.deepSky| ==> s.sky.deepSky[k].name != d.name
  {
    match sel
    case SelectedStar(st) =>
      var names := StarNames(s.sky.stars);
      assert forall k :: 0 <= k < |s.sky.stars| ==> names[k] == s.sky.stars[k].name;
      forall i | 0 <= i < |s.sky.stars| && s.sky.stars[i].name == st.name
        && (forall j :: 0 <= j < i ==> s.sky.stars[j].name != st.name)
        ensures Refreshed(s, sel) == Some(SelectedStar(s.sky.stars[i]))
      {
        FirstNamedAt(names, st.name, i);
      }
    case SelectedPlanet(p) =>
      var bodies := AllPlanets(s.sky.planets);
      var names := PlanetNames(bodies);
      assert forall k :: 0 <= k < 9 ==> names[k] == bodies[k].name;
      forall i | 0 <= i < 9 && bodies[i].name == p.name
        && (forall j :: 0 <= j < i ==> bodies[j].name != p.name)
        ensures Refreshed(s, sel) == Some(SelectedPlanet(bodies[i]))
      {
        FirstNamedAt(names, p.name, i);
      }
    case SelectedDeepSky(d) =>
      var names := DeepSkyNames(s.sky.deepSky);
      assert forall k :: 0 <= k < |s.sky.deepSky| ==> names[k] == s.sky.deepSky[k].name;
      forall i | 0 <= i < |s.sky.deepSky| && s.sky.deepSky[i].name == d.name
        && (forall j :: 0 <= j < i ==> s.sky.deepSky[j].name != d.name)
        ensures Refreshed(s, sel) == Some(SelectedDeepSky(s.sky.deepSky[i]))
      {
        FirstNamedAt(names, d.name, i);
      }
  }

  /** Following changes nothing unless it is on and something is selected;
      it changes only the selection and the view; it keeps following the
      same named object; and a second refresh changes nothing. */
  lemma FollowedSpec(s: AppState)
    ensures !s.selection.following || s.selection.selected.None? ==> Followed(s) == s
    ensures Followed(s).(selection := s.selection, view := s.view) == s
    ensures Followed(s).selection.following == s.selection.following && Followed(s).view.fov == s.view.fov
    ensures Followed(s).selection.selected.Some? <==> s.selection.selected.Some?
    ensures s.selection.selected.Some? ==> Followed(s).selection.selected.value.Name() == s.selection.selected.value.Name()
    ensures Followed(s) != s ==>
      (Followed(s).view.altitude, Followed(s).view.azimuth) == Followed(s).selection.selected.value.Position()
    ensures s.selection.following && s.selection.selected.Some? ==>
      Followed(s).selection.selected == (if Refreshed(s, s.selection.selected.value).Some? then Refreshed(s, s.selection.selected.value) else s.selection.selected)
    ensures Followed(Followed(s)) == Followed(s)
  {
    if s.selection.following && s.selection.selected.Some? {
      var sel := s.selection.selected.value;
      RefreshedSameObject(s, sel);
      match Refreshed(s, sel)
      case None =>
      case Some(latest) =>
        var t := Followed(s);
        RefreshedSameObject(t, latest);
        FirstNamedAgain(s, sel, latest);
    }
  }

  /** Refreshing the latest copy gives the same copy back. */
  lemma FirstNamedAgain(s: AppState, sel: Selected, latest: Selected)
    requires Refreshed(s, sel) == Some(latest)
    ensures Refreshed(s, latest) == Some(latest)
  {
    match sel
    case SelectedStar(st) =>
      var i := FirstNamed(StarNames(s.sky.stars), st.name).value;
      assert StarNames(s.sky.stars)[i] == s.sky.stars[i].name;
    case SelectedPlanet(p) =>
      var bodies := AllPlanets(s.sky.planets);
      var i := FirstNamed(PlanetNames(bodies), p.name).value;
      assert PlanetNames(bodies)[i] == bodies[i].name;
    case SelectedDeepSky(d) =>
      var i := FirstNamed(DeepSkyNames(s.sky.deepSky), d.name).value;
      assert DeepSkyNames(s.sky.deepSky)[i] == s.sky.deepSky[i].name;
  }

  /** Following a star moves the selection to the first star in the
      catalog with its name, and the view to that star. */
  lemma FollowedStar(s: AppState, i: int)
    requires s.selection.following && s.selection.selected.Some? && s.selection.selected.value.SelectedStar?
    requires 0 <= i < |s.sky.stars| && s.sky.stars[i].name == s.selection.selected.value.star.name
    requires forall j :: 0 <= j < i ==> s.sky.stars[j].name != s.selection.selected.value.star.name
    ensures Followed(s) == s.(selection := s.selection.(selected := Some(SelectedStar(s.sky.stars[i]))),
                              view := s.view.(altitude := s.sky.stars[i].altitude, azimuth := s.sky.stars[i].azimuth))
  {
    RefreshedSameObject(s, s.selection.selected.value);
  }

  /** Following a body moves the selection to the first of the Sun, the
      Moon and the seven planets with its name, and the view to that body. */
  lemma FollowedPlanet(s: AppState, i: int)
    requires s.selection.following && s.selection.selected.Some? && s.selection.selected.value.SelectedPlanet?
    requires 0 <= i < 9 && AllPlanets(s.sky.planets)[i].name == s.selection.selected.value.planet.name
    requires forall j :: 0 <= j < i ==> AllPlanets(s.sky.planets)[j].name != s.selection.selected.value.planet.name
    ensures var b := AllPlanets(s.sky.planets)[i];
      Followed(s) == s.(selection := s.selection.(selected := Some(SelectedPlanet(b))),
                        view := s.view.(altitude := b.altitude, azimuth := b.azimuth))
  {
    RefreshedSameObject(s, s.selection.selected.value);
  }

  /** Following a deep-sky object moves the selection to the first object
      in the catalog with its name, and the view to that object. */
  lemma FollowedDeepSky(s: AppState, i: int)
    requires s.selection.following && s.selection.selected.Some? && s.selection.selected.value.SelectedDeepSky?
    requires 0 <= i < |s.sky.deepSky| && s.sky.deepSky[i].name == s.selection.selected.value.obj.name
    requires forall j :: 0 <= j < i ==> s.sky.deepSky[j].name != s.selection.selected.value.obj.name
    ensures Followed(s) == s.(selection := s.selection.(selected := Some(SelectedDeepSky(s.sky.deepSky[i]))),
                              view := s.view.(altitude := s.sky.deepSky[i].altitude, azimuth := s.sky.deepSky[i].azimuth))
  {
    RefreshedSameObject(s, s.selection.selected.value);
  }

  /** A followed object that no longer has a namesake of its kind in the
      catalog leaves the state as it was. */
  lemma FollowedLost(s: AppState)
    requires s.selection.selected.Some?
    requires match s.selection.selected.value
      case SelectedStar(st) => forall k :: 0 <= k < |s.sky.stars| ==> s.sky.stars[k].name != st.name
      case SelectedPlanet(p) => forall k :: 0 <= k < 9 ==> AllPlanets(s.sky.planets)[k].name != p.name
      case SelectedDeepSky(d) => forall k :: 0 <= k < |s.sky.deepSky| ==> s.sky.deepSky[k].name != d.name
    ensures Followed(s) == s
  {
    RefreshedSameObject(s, s.selection.selected.value);
  }
}
