/** The search box of the interactive model (internal/app/search.go). */
module AppSearch {
  import opened Wrappers
  import opened Text
  import opened Catalog
  import opened AstroPlanets
  import opened UiSearch
  import opened AppState
  import opened AppSelection

  /** A deep-sky object is matched on its name and common name together. */
  function DeepSkyText(d: MessierObject): string {
    d.name + " " + d.commonName
  }

  function DeepSkyTexts(objs: seq<MessierObject>): (r: seq<string>)
    ensures |r| == |objs| && forall k :: 0 <= k < |objs| ==> r[k] == DeepSkyText(objs[k])
  {
    seq(|objs|, k requires 0 <= k < |objs| => DeepSkyText(objs[k]))
  }

  /** The object the search selects for the normalised query `q`: the first
      matching star, else the first matching body, else the first matching
      deep-sky object. */
  function SearchHit(q: string, stars: seq<Star>, bodies: seq<Planet>, objs: seq<MessierObject>): Option<Selected> {
    match FirstMatch(StarNames(stars), q)
    case Some(i) => Some(SelectedStar(stars[i]))
    case None =>
      match FirstMatch(PlanetNames(bodies), q)
      case Some(i) => Some(SelectedPlanet(bodies[i]))
      case None =>
        match FirstMatch(DeepSkyTexts(objs), q)
        case Some(i) => Some(SelectedDeepSky(objs[i]))
        case None => None
  }

  /** `performSearch`: nothing happens for an empty query or when nothing
      matches; otherwise the hit is selected, the view is centred on it and
      the info panel is shown. */
  function Searched(s: AppState): AppState {
    if s.input.searchQuery == [] then s
    else
      match SearchHit(NormalizedQuery(s.input.searchQuery), s.sky.stars, AllPlanets(s.sky.planets), s.sky.deepSky)
      case None => s
      case Some(hit) =>
        var c := Centered(s.(selection := s.selection.(selected := Some(hit))));
        c.(display := c.display.(showInfo := true))
  }

  /** The search picks by priority: a star when any star's name matches,
      the first such, and a star only then; the first matching body exactly
      when no star matches and some body does; the first matching deep-sky
      object, matched on "name common-name", exactly when neither matches and
      some object does; and nothing when nothing matches. */
  lemma SearchHitSpec(q: string, stars: seq<Star>, bodies: seq<Planet>, objs: seq<MessierObject>)
    ensures var r := SearchHit(q, stars, bodies, objs);
      && ((exists i :: 0 <= i < |stars| && Matches(stars[i].name, q)) ==>
            exists i :: 0 <= i < |stars| && r == Some(SelectedStar(stars[i])) && Matches(stars[i].name, q)
                        && forall j :: 0 <= j < i ==> !Matches(stars[j].name, q))
      && (r.Some? && r.value.SelectedStar? ==>
            exists i :: 0 <= i < |stars| && r.value.star == stars[i] && Matches(stars[i].name, q)
                        && forall j :: 0 <= j < i ==> !Matches(stars[j].name, q))
      && ((forall i :: 0 <= i < |stars| ==> !Matches(stars[i].name, q))
          && (exists i :: 0 <= i < |bodies| && Matches(bodies[i].name, q)) ==>
            r.Some? && r.value.SelectedPlanet?)
      && ((forall i :: 0 <= i < |stars| ==> !Matches(stars[i].name, q))
          && (forall i :: 0 <= i < |bodies| ==> !Matches(bodies[i].name, q))
          && (exists i :: 0 <= i < |objs| && Matches(DeepSkyText(objs[i]), q)) ==>
            r.Some? && r.value.SelectedDeepSky?)
      && (r.Some? && r.value.SelectedPlanet? ==>
            (forall i :: 0 <= i < |stars| ==> !Matches(stars[i].name, q))
            && exists i :: 0 <= i < |bodies| && r.value.planet == bodies[i] && Matches(bodies[i].name, q)
                           && forall j :: 0 <= j < i ==> !Matches(bodies[j].name, q))
      && (r.Some? && r.value.SelectedDeepSky? ==>
            (forall i :: 0 <= i < |stars| ==> !Matches(stars[i].name, q))
            && (forall i :: 0 <= i < |bodies| ==> !Matches(bodies[i].name, q))
            && exists i :: 0 <= i < |objs| && r.value.obj == objs[i] && Matches(DeepSkyText(objs[i]), q)
                           && forall j :: 0 <= j < i ==> !Matches(DeepSkyText(objs[j]), q))
      && (r.None? <==>
            && (forall i :: 0 <= i < |stars| ==> !Matches(stars[i].name, q))
            && (forall i :: 0 <= i < |bodies| ==> !Matches(bodies[i].name, q))
            && (forall i :: 0 <= i < |objs| ==> !Matches(DeepSkyText(objs[i]), q)))
  {
    var sn, pn, dn := StarNames(stars), PlanetNames(bodies), DeepSkyTexts(objs);
    assert forall k :: 0 <= k < |stars| ==> sn[k] == stars[k].name;
    assert forall k :: 0 <= k < |bodies| ==> pn[k] == bodies[k].name;
  }

  /** A name that matches at `i` and nowhere before is the first match. */
  lemma FirstMatchAt(names: seq<string>, q: string, i: int)
    requires 0 <= i < |names| && Matches(names[i], q)
    requires forall j :: 0 <= j < i ==> !Matches(names[j], q)
    ensures FirstMatch(names, q) == Some(i)
  {
  }

  /** The normalised query's hit in the state's catalogs. */
  function HitIn(s: AppState): Option<Selected> {
    SearchHit(NormalizedQuery(s.input.searchQuery), s.sky.stars, AllPlanets(s.sky.planets), s.sky.deepSky)
  }

  /** An empty query, or one that matches nothing, changes nothing. */
  lemma SearchedNothing(s: AppState)
    ensures s.input.searchQuery == [] || HitIn(s).None? ==> Searched(s) == s
  {
  }

  /** A query that matches selects the hit and shows the info panel; the
      view moves only as centring on the hit does; following and
      everything else stay as they were. */
  lemma SearchedSelects(s: AppState)
    requires s.input.searchQuery != [] && HitIn(s).Some?
    ensures Searched(s).selection == s.selection.(selected := HitIn(s))
    ensures Searched(s).display == s.display.(showInfo := true)
    ensures Searched(s).(selection := s.selection, display := s.display, view := s.view) == s
    ensures var (alt, az) := HitIn(s).value.Position();
      Searched(s).view == if alt != 0.0 || az != 0.0 then s.view.(altitude := alt, azimuth := az) else s.view
  {
    var t := s.(selection := s.selection.(selected := HitIn(s)));
    CenteredSpec(t);
  }

  /** A query of spaces only is not empty, but trims to the empty string,
      which every name contains: it selects the first star of the catalog.
      (The search box's `SearchObjects` refuses such a query instead.) */
  lemma BlankQuerySelectsFirstStar(s: AppState)
    requires s.input.searchQuery != [] && forall i :: 0 <= i < |s.input.searchQuery| ==> IsSpace(s.input.searchQuery[i])
    requires s.sky.stars != []
    ensures Searched(s).selection.selected == Some(SelectedStar(s.sky.stars[0]))
    ensures Searched(s).display.showInfo
  {
    assert NormalizedQuery(s.input.searchQuery) == [];
    assert Contains(ToLower(s.sky.stars[0].name), []);
    assert StarNames(s.sky.stars)[0] == s.sky.stars[0].name;
  }
}
