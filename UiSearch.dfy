/** The object search of the search box (internal/ui/search.go). */
module UiSearch {
  import opened Wrappers
  import opened Text

  /** `name` matches the normalised query `q`: its lower-case form contains
      `q`. */
  predicate Matches(name: string, q: string) {
    Contains(ToLower(name), q)
  }

  /** The index of the first name that matches `q`, if any. */
  function FirstMatch(names: seq<string>, q: string): (r: Option<nat>)
    ensures r.Some? ==> r.value < |names| && Matches(names[r.value], q)
    ensures r.Some? ==> forall j :: 0 <= j < r.value ==> !Matches(names[j], q)
    ensures r.None? ==> forall j :: 0 <= j < |names| ==> !Matches(names[j], q)
  {
    if names == [] then None
    else if Matches(names[0], q) then Some(0)
    else match FirstMatch(names[1..], q)
      case None => None
      case Some(k) => Some(k + 1)
  }

  /** `strings.ToLower(strings.TrimSpace(query))`. */
  function NormalizedQuery(query: string): string {
    ToLower(TrimSpace(query))
  }

  /** `name` is the first entry of `names` that matches `q`. */
  predicate IsFirstMatch(names: seq<string>, q: string, name: string) {
    exists k :: 0 <= k < |names| && names[k] == name && Matches(names[k], q)
                && forall j :: 0 <= j < k ==> !Matches(names[j], q)
  }

  /** The three results of `SearchObjects`. */
  datatype SearchResult = SearchResult(objectType: string, name: string, found: bool)

  const NotFound: SearchResult := SearchResult("", "", false)

  /** `SearchObjects(query, stars, planets, deepsky)`. */
  function SearchObjects(query: string, stars: seq<string>, planets: seq<string>, deepsky: seq<string>): (r: SearchResult)
    ensures !r.found ==> r == NotFound
    ensures r.found ==> r.objectType in {"star", "planet", "deepsky"} && Matches(r.name, NormalizedQuery(query))
    ensures r.objectType == "star" ==> IsFirstMatch(stars, NormalizedQuery(query), r.name)
    ensures r.objectType == "planet" ==> IsFirstMatch(planets, NormalizedQuery(query), r.name)
    ensures r.objectType == "deepsky" ==> IsFirstMatch(deepsky, NormalizedQuery(query), r.name)
  {
    var q := NormalizedQuery(query);
    if q == [] then NotFound
    else match FirstMatch(stars, q)
      case Some(k) => SearchResult("star", stars[k], true)
      case None =>
        match FirstMatch(planets, q)
        case Some(k) => SearchResult("planet", planets[k], true)
        case None =>
          match FirstMatch(deepsky, q)
          case Some(k) => SearchResult("deepsky", deepsky[k], true)
          case None => NotFound
  }

  /** A query that is blank after trimming finds nothing. */
  lemma SearchBlankQuery(query: string, stars: seq<string>, planets: seq<string>, deepsky: seq<string>)
    requires forall i :: 0 <= i < |query| ==> IsSpace(query[i])
    ensures SearchObjects(query, stars, planets, deepsky) == NotFound
  {
    assert TrimSpace(query) == [];
  }

  /** Some name of some list matches. */
  predicate AnyMatch(q: string, stars: seq<string>, planets: seq<string>, deepsky: seq<string>) {
    (exists k :: 0 <= k < |stars| && Matches(stars[k], q))
    || (exists k :: 0 <= k < |planets| && Matches(planets[k], q))
    || (exists k :: 0 <= k < |deepsky| && Matches(deepsky[k], q))
  }

  /** For a query that is not blank, the search finds something exactly when
      some name of some list matches. */
  lemma SearchFindsAnyMatch(query: string, stars: seq<string>, planets: seq<string>, deepsky: seq<string>)
    requires NormalizedQuery(query) != []
    ensures SearchObjects(query, stars, planets, deepsky).found <==> AnyMatch(NormalizedQuery(query), stars, planets, deepsky)
  {
    var q := NormalizedQuery(query);
    if exists k :: 0 <= k < |stars| && Matches(stars[k], q) {
      assert FirstMatch(stars, q).Some?;
    } else if exists k :: 0 <= k < |planets| && Matches(planets[k], q) {
      assert FirstMatch(planets, q).Some?;
    } else if exists k :: 0 <= k < |deepsky| && Matches(deepsky[k], q) {
      assert FirstMatch(deepsky, q).Some?;
    }
  }

  /** The lists are tried in the order stars, planets, deep sky, each from
      its first element: a planet is found only when no star matches, a
      deep-sky object only when no star and no planet matches. */
  lemma SearchPriority(query: string, stars: seq<string>, planets: seq<string>, deepsky: seq<string>)
    ensures var q, r := NormalizedQuery(query), SearchObjects(query, stars, planets, deepsky);
      q != [] && FirstMatch(stars, q).Some? ==> r == SearchResult("star", stars[FirstMatch(stars, q).value], true)
    ensures var q, r := NormalizedQuery(query), SearchObjects(query, stars, planets, deepsky);
      r.objectType == "planet" ==> forall k :: 0 <= k < |stars| ==> !Matches(stars[k], q)
    ensures var q, r := NormalizedQuery(query), SearchObjects(query, stars, planets, deepsky);
      r.objectType == "deepsky" ==> forall k :: 0 <= k < |stars| ==> !Matches(stars[k], q)
    ensures var q, r := NormalizedQuery(query), SearchObjects(query, stars, planets, deepsky);
      r.objectType == "deepsky" ==> forall k :: 0 <= k < |planets| ==> !Matches(planets[k], q)
    ensures var q, r := NormalizedQuery(query), SearchObjects(query, stars, planets, deepsky);
      q != [] && FirstMatch(stars, q).None? && FirstMatch(planets, q).Some? ==>
        r == SearchResult("planet", planets[FirstMatch(planets, q).value], true)
    ensures var q, r := NormalizedQuery(query), SearchObjects(query, stars, planets, deepsky);
      q != [] && FirstMatch(stars, q).None? && FirstMatch(planets, q).None? && FirstMatch(deepsky, q).Some? ==>
        r == SearchResult("deepsky", deepsky[FirstMatch(deepsky, q).value], true)
  {
  }
}
