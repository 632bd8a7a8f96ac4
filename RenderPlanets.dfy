/** The Sun, the Moon and the planets on the canvas
    (internal/render/planets.go). A nil `*PlanetarySystem` is `None`. */
module RenderPlanets {
  import opened Wrappers
  import opened GoMath
  import opened Text
  import opened AstroPlanets
  import opened RenderCanvas
  import opened RenderStars
  import opened RenderLabels

  /** The renderer's `planetStyles` table: a body's symbol and colour by
      name; a name the table lacks is not drawn. */
  function PlanetGlyph(name: string): Option<(char, string)> {
    if name == "Sun" then Some(('☉', "226"))
    else if name == "Moon" then Some(('☽', "250"))
    else if name == "Mercury" then Some(('☿', "249"))
    else if name == "Venus" then Some(('♀', "230"))
    else if name == "Mars" then Some(('♂', "196"))
    else if name == "Jupiter" then Some(('♃', "215"))
    else if name == "Saturn" then Some(('♄', "229"))
    else if name == "Uranus" then Some(('♅', "117"))
    else if name == "Neptune" then Some(('♆', "27"))
    else None
  }

  /** Bold, in the table's colour. */
  function PlanetStyle(color: string): Style {
    Style(Some(color), true, false)
  }

  /** Yellow, bold. */
  const PlanetLabelStyle: Style := Style(Some("yellow"), true, false)

  /** The names and symbols of the bodies `AllPlanets` lists, in its order. */
  const BodyNames: seq<string> := ["Sun", "Moon", "Mercury", "Venus", "Mars", "Jupiter", "Saturn", "Uranus", "Neptune"]
  const BodySymbols: seq<char> := ['☉', '☽', '☿', '♀', '♂', '♃', '♄', '♅', '♆']

  /** The bodies of a system come in the order of `BodyNames`. */
  lemma BodiesNamed(bodies: seq<Planet>)
    requires InBodyOrder(bodies)
    ensures forall k :: 0 <= k < 9 ==> bodies[k].name == BodyNames[k]
  {
    forall k | 2 <= k < 9
      ensures bodies[k].name == NameOf(PlanetIds[k - 2])
    {
      assert Tagged(bodies[k], NameOf(PlanetIds[k - 2]), PlanetBody, MagnitudeOf(PlanetIds[k - 2]));
    }
  }

  /** The table gives each body name its own symbol; the zero-valued body
      (empty name) has none. */
  lemma PlanetGlyphTable()
    ensures forall k :: 0 <= k < 9 ==>
      PlanetGlyph(BodyNames[k]).Some? && PlanetGlyph(BodyNames[k]).value.0 == BodySymbols[k]
    ensures PlanetGlyph("") == None
  {
    assert PlanetGlyph(BodyNames[0]).value.0 == BodySymbols[0];
    assert PlanetGlyph(BodyNames[1]).value.0 == BodySymbols[1];
    assert PlanetGlyph(BodyNames[2]).value.0 == BodySymbols[2];
    assert PlanetGlyph(BodyNames[3]).value.0 == BodySymbols[3];
    assert PlanetGlyph(BodyNames[4]).value.0 == BodySymbols[4];
    assert PlanetGlyph(BodyNames[5]).value.0 == BodySymbols[5];
    assert PlanetGlyph(BodyNames[6]).value.0 == BodySymbols[6];
    assert PlanetGlyph(BodyNames[7]).value.0 == BodySymbols[7];
    assert PlanetGlyph(BodyNames[8]).value.0 == BodySymbols[8];
  }

  /** Every body `AllPlanets` lists has a symbol, and no two share one. */
  lemma PlanetGlyphCoversBodies(bodies: seq<Planet>)
    requires InBodyOrder(bodies)
    ensures forall k :: 0 <= k < 9 ==>
      PlanetGlyph(bodies[k].name).Some? && PlanetGlyph(bodies[k].name).value.0 == BodySymbols[k]
    ensures forall j, k :: 0 <= j < k < 9 ==> BodySymbols[j] != BodySymbols[k]
  {
    BodiesNamed(bodies);
    PlanetGlyphTable();
  }

  // ------------------------------------------------------------ symbols

  /** The write of one body's symbol. */
  function PlanetMarker(m: MathLib, p: Planet, centerAlt: real, centerAz: real, fov: real, w: int, h: int): seq<Brush> {
    var q := Project(m, p.altitude, p.azimuth, centerAlt, centerAz, fov, w, h);
    if !q.visible then []
    else match PlanetGlyph(p.name)
      case None => []
      case Some(g) => [Plain(q.x, q.y, Cell(g.0, PlanetStyle(g.1)))]
  }

  function PlanetMarkers(m: MathLib, bodies: seq<Planet>, centerAlt: real, centerAz: real, fov: real, w: int, h: int): seq<Brush> {
    if bodies == [] then []
    else (PlanetMarkers(m, bodies[..|bodies| - 1], centerAlt, centerAz, fov, w, h)
          + PlanetMarker(m, bodies[|bodies| - 1], centerAlt, centerAz, fov, w, h))
  }

  /** The writes of `RenderPlanets`: none for a nil system, otherwise the
      symbols of `AllPlanets`, in order. */
  function PlanetLayer(m: MathLib, planets: Option<PlanetarySystem>, centerAlt: real, centerAz: real, fov: real, w: int, h: int): seq<Brush> {
    match planets
    case None => []
    case Some(ps) => PlanetMarkers(m, AllPlanets(ps), centerAlt, centerAz, fov, w, h)
  }

  /** Body `p` puts its symbol on (`x`, `y`). */
  predicate MarksAt(m: MathLib, p: Planet, centerAlt: real, centerAz: real, fov: real, w: int, h: int, x: int, y: int) {
    var q := Project(m, p.altitude, p.azimuth, centerAlt, centerAz, fov, w, h);
    q.visible && PlanetGlyph(p.name).Some? && q.x == x && q.y == y
  }

  /** A body is drawn exactly when it is visible and its name is in the
      table: one bold write of its symbol at its projection, on the canvas. */
  lemma PlanetMarkerPlacement(m: MathLib, p: Planet, centerAlt: real, centerAz: real, fov: real, w: int, h: int)
    ensures var q := Project(m, p.altitude, p.azimuth, centerAlt, centerAz, fov, w, h);
      PlanetMarker(m, p, centerAlt, centerAz, fov, w, h) != [] <==> q.visible && PlanetGlyph(p.name).Some?
    ensures var q := Project(m, p.altitude, p.azimuth, centerAlt, centerAz, fov, w, h);
      q.visible && PlanetGlyph(p.name).Some? ==>
        PlanetMarker(m, p, centerAlt, centerAz, fov, w, h)
          == [Plain(q.x, q.y, Cell(PlanetGlyph(p.name).value.0, PlanetStyle(PlanetGlyph(p.name).value.1)))]
        && 0 <= q.x < w && 0 <= q.y < h
  {
  }

  /** A cell no body marks keeps what it held. */
  lemma {:induction false} PlanetMarkersElsewhere(m: MathLib, bodies: seq<Planet>, centerAlt: real, centerAz: real, fov: real, w: int, h: int, x: int, y: int, c: Cell)
    requires forall j :: 0 <= j < |bodies| ==> !MarksAt(m, bodies[j], centerAlt, centerAz, fov, w, h, x, y)
    ensures Painted(PlanetMarkers(m, bodies, centerAlt, centerAz, fov, w, h), x, y, c) == c
    decreases |bodies|
  {
    if bodies != [] {
      var n := |bodies| - 1;
      var pre := PlanetMarkers(m, bodies[..n], centerAlt, centerAz, fov, w, h);
      var last := PlanetMarker(m, bodies[n], centerAlt, centerAz, fov, w, h);
      assert !MarksAt(m, bodies[n], centerAlt, centerAz, fov, w, h, x, y);
      forall j | 0 <= j < n
        ensures !MarksAt(m, bodies[..n][j], centerAlt, centerAz, fov, w, h, x, y)
      {
        assert bodies[..n][j] == bodies[j];
      }
      PlanetMarkersElsewhere(m, bodies[..n], centerAlt, centerAz, fov, w, h, x, y, c);
      PaintedAppend(pre, last, x, y, c);
      if last != [] {
        assert last[..0] == [];
      }
    }
  }

  /** Where bodies overlap, the last body in the list that marks the cell
      shows, whatever the cell held: in `AllPlanets` order a planet covers
      the Sun or the Moon. */
  lemma {:induction false} PlanetMarkersLastWins(m: MathLib, bodies: seq<Planet>, centerAlt: real, centerAz: real, fov: real, w: int, h: int, k: nat, c: Cell)
    requires k < |bodies|
    requires var q := Project(m, bodies[k].altitude, bodies[k].azimuth, centerAlt, centerAz, fov, w, h);
      q.visible && PlanetGlyph(bodies[k].name).Some?
      && forall j :: k < j < |bodies| ==> !MarksAt(m, bodies[j], centerAlt, centerAz, fov, w, h, q.x, q.y)
    ensures var q := Project(m, bodies[k].altitude, bodies[k].azimuth, centerAlt, centerAz, fov, w, h);
      var g := PlanetGlyph(bodies[k].name).value;
      Painted(PlanetMarkers(m, bodies, centerAlt, centerAz, fov, w, h), q.x, q.y, c) == Cell(g.0, PlanetStyle(g.1))
    decreases |bodies|
  {
    var q := Project(m, bodies[k].altitude, bodies[k].azimuth, centerAlt, centerAz, fov, w, h);
    var g := PlanetGlyph(bodies[k].name).value;
    var n := |bodies| - 1;
    var pre := PlanetMarkers(m, bodies[..n], centerAlt, centerAz, fov, w, h);
    var last := PlanetMarker(m, bodies[n], centerAlt, centerAz, fov, w, h);
    assert PlanetMarkers(m, bodies, centerAlt, centerAz, fov, w, h) == pre + last;
    PaintedAppend(pre, last, q.x, q.y, c);
    PlanetMarkerPaints(m, bodies[n], centerAlt, centerAz, fov, w, h, q.x, q.y, Painted(pre, q.x, q.y, c));
    if k < n {
      PrefixKeepsUnmarked(m, bodies, bodies[..n], centerAlt, centerAz, fov, w, h, k, q.x, q.y);
      PlanetMarkersLastWins(m, bodies[..n], centerAlt, centerAz, fov, w, h, k, c);
      assert Painted(pre, q.x, q.y, c) == Cell(g.0, PlanetStyle(g.1));
      assert !MarksAt(m, bodies[n], centerAlt, centerAz, fov, w, h, q.x, q.y);
    } else {
      assert MarksAt(m, bodies[n], centerAlt, centerAz, fov, w, h, q.x, q.y);
    }
  }

  /** Dropping the last body keeps body `k` and the bodies after it that do
      not mark (x, y). */
  lemma PrefixKeepsUnmarked(m: MathLib, bodies: seq<Planet>, pre: seq<Planet>, centerAlt: real, centerAz: real, fov: real, w: int, h: int, k: nat, x: int, y: int)
    requires k < |bodies| - 1 && pre == bodies[..|bodies| - 1]
    requires forall j :: k < j < |bodies| ==> !MarksAt(m, bodies[j], centerAlt, centerAz, fov, w, h, x, y)
    ensures pre[k] == bodies[k]
    ensures forall j :: k < j < |pre| ==> !MarksAt(m, pre[j], centerAlt, centerAz, fov, w, h, x, y)
  {
    forall j | k < j < |pre|
      ensures !MarksAt(m, pre[j], centerAlt, centerAz, fov, w, h, x, y)
    {
      assert pre[j] == bodies[j];
    }
  }

  /** One body's marker changes only the cell it marks. */
  lemma PlanetMarkerPaints(m: MathLib, p: Planet, centerAlt: real, centerAz: real, fov: real, w: int, h: int, x: int, y: int, c: Cell)
    ensures Painted(PlanetMarker(m, p, centerAlt, centerAz, fov, w, h), x, y, c)
      == if MarksAt(m, p, centerAlt, centerAz, fov, w, h, x, y)
         then var g := PlanetGlyph(p.name).value; Cell(g.0, PlanetStyle(g.1))
         else c
  {
    var one := PlanetMarker(m, p, centerAlt, centerAz, fov, w, h);
    if one != [] {
      assert one[..0] == [];
    }
  }

  /** One pass of the loop of `RenderPlanets`. */
  method DrawPlanet(m: MathLib, c: Canvas, p: Planet, centerAlt: real, centerAz: real, fov: real)
    requires c.Valid()
    modifies c.cells
    ensures c.Shows(PlanetMarker(m, p, centerAlt, centerAz, fov, c.width, c.height))
  {
    var q := Project(m, p.altitude, p.azimuth, centerAlt, centerAz, fov, c.width, c.height);
    if !q.visible {
      return;
    }
    var style := PlanetGlyph(p.name);
    if style.None? {
      return;
    }
    c.Set(q.x, q.y, style.value.0, PlanetStyle(style.value.1));
    assert [Plain(q.x, q.y, Cell(style.value.0, PlanetStyle(style.value.1)))][..0] == [];
  }

  /** `RenderPlanets(canvas, planets, centerAlt, centerAz, fov)`. */
  method RenderPlanets(m: MathLib, c: Canvas, planets: Option<PlanetarySystem>, centerAlt: real, centerAz: real, fov: real)
    requires c.Valid()
    modifies c.cells
    ensures c.Shows(PlanetLayer(m, planets, centerAlt, centerAz, fov, c.width, c.height))
    ensures planets.None? ==> forall j, i :: 0 <= j < c.height && 0 <= i < c.width ==> c.cells[j, i] == old(c.cells[j, i])
  {
    if planets.None? {
      return;
    }
    DrawPlanets(m, c, AllPlanets(planets.value), centerAlt, centerAz, fov);
  }

  /** The loop of `RenderPlanets` over the bodies, in order. */
  method DrawPlanets(m: MathLib, c: Canvas, bodies: seq<Planet>, centerAlt: real, centerAz: real, fov: real)
    requires c.Valid()
    modifies c.cells
    ensures c.Shows(PlanetMarkers(m, bodies, centerAlt, centerAz, fov, c.width, c.height))
  {
    for k := 0 to |bodies|
      invariant c.Shows(PlanetMarkers(m, bodies[..k], centerAlt, centerAz, fov, c.width, c.height))
    {
      assert bodies[..k + 1][..k] == bodies[..k];
      ghost var done := PlanetMarkers(m, bodies[..k], centerAlt, centerAz, fov, c.width, c.height);
      ghost var next := PlanetMarker(m, bodies[k], centerAlt, centerAz, fov, c.width, c.height);
      assert PlanetMarkers(m, bodies[..k + 1], centerAlt, centerAz, fov, c.width, c.height) == done + next;
      DrawPlanet(m, c, bodies[k], centerAlt, centerAz, fov);
      forall y, x | 0 <= y < c.height && 0 <= x < c.width
        ensures c.cells[y, x] == Painted(done + next, x, y, old(c.cells[y, x]))
      {
        PaintedAppend(done, next, x, y, old(c.cells[y, x]));
      }
    }
    assert bodies[..|bodies|] == bodies;
  }

  // ------------------------------------------------------------- labels

  /** The label writes for one body: its name, whatever the symbol table
      says. */
  function PlanetLabel(m: MathLib, p: Planet, centerAlt: real, centerAz: real, fov: real, w: int, h: int): seq<Brush> {
    LabelBeside(p.name, Project(m, p.altitude, p.azimuth, centerAlt, centerAz, fov, w, h), PlanetLabelStyle, w, h)
  }

  function PlanetLabels(m: MathLib, bodies: seq<Planet>, centerAlt: real, centerAz: real, fov: real, w: int, h: int): seq<Brush> {
    if bodies == [] then []
    else (PlanetLabels(m, bodies[..|bodies| - 1], centerAlt, centerAz, fov, w, h)
          + PlanetLabel(m, bodies[|bodies| - 1], centerAlt, centerAz, fov, w, h))
  }

  /** The writes of `RenderPlanetLabels`. */
  function PlanetLabelLayer(m: MathLib, planets: Option<PlanetarySystem>, centerAlt: real, centerAz: real, fov: real, w: int, h: int): seq<Brush> {
    match planets
    case None => []
    case Some(ps) => PlanetLabels(m, AllPlanets(ps), centerAlt, centerAz, fov, w, h)
  }

  /** A visible body is labelled even when its symbol is not drawn: an
      ASCII name that fits right of the body takes `|name|` consecutive
      cells there, yellow and bold; nothing else is ever written. */
  lemma PlanetLabelPlacement(m: MathLib, p: Planet, centerAlt: real, centerAz: real, fov: real, w: int, h: int)
    ensures var q := Project(m, p.altitude, p.azimuth, centerAlt, centerAz, fov, w, h);
      PlanetLabel(m, p, centerAlt, centerAz, fov, w, h) != [] ==> q.visible
    ensures var q := Project(m, p.altitude, p.azimuth, centerAlt, centerAz, fov, w, h);
      forall b :: b in PlanetLabel(m, p, centerAlt, centerAz, fov, w, h) ==>
        b.over.None? && b.y == q.y && 0 <= b.y < h && q.x + 2 <= b.x && 0 <= b.x < w
        && b.cell.style == PlanetLabelStyle && b.cell.ch in p.name
    ensures var q := Project(m, p.altitude, p.azimuth, centerAlt, centerAz, fov, w, h);
      q.visible && IsAscii(p.name) && 0 <= q.x + 2 && q.x + 2 + |p.name| <= w ==>
        PlanetLabel(m, p, centerAlt, centerAz, fov, w, h)
        == seq(|p.name|, k requires 0 <= k < |p.name| => Plain(q.x + 2 + k, q.y, Cell(p.name[k], PlanetLabelStyle)))
        && (PlanetGlyph(p.name).None? ==> PlanetMarker(m, p, centerAlt, centerAz, fov, w, h) == [])
  {
    LabelBesidePlacement(p.name, Project(m, p.altitude, p.azimuth, centerAlt, centerAz, fov, w, h), PlanetLabelStyle, w, h);
  }

  /** Every write of the label layer belongs to the label of some body. */
  lemma {:induction false} PlanetLabelsFrom(m: MathLib, bodies: seq<Planet>, centerAlt: real, centerAz: real, fov: real, w: int, h: int, b: Brush)
    ensures b in PlanetLabels(m, bodies, centerAlt, centerAz, fov, w, h)
      <==> exists k :: 0 <= k < |bodies| && b in PlanetLabel(m, bodies[k], centerAlt, centerAz, fov, w, h)
    decreases |bodies|
  {
    if bodies != [] {
      var n := |bodies| - 1;
      var pre := PlanetLabels(m, bodies[..n], centerAlt, centerAz, fov, w, h);
      var last := PlanetLabel(m, bodies[n], centerAlt, centerAz, fov, w, h);
      assert PlanetLabels(m, bodies, centerAlt, centerAz, fov, w, h) == pre + last;
      PlanetLabelsFrom(m, bodies[..n], centerAlt, centerAz, fov, w, h, b);
      if b in pre {
        var k :| 0 <= k < n && b in PlanetLabel(m, bodies[..n][k], centerAlt, centerAz, fov, w, h);
        assert bodies[..n][k] == bodies[k];
      } else if b !in last {
        forall k | 0 <= k < |bodies|
          ensures b !in PlanetLabel(m, bodies[k], centerAlt, centerAz, fov, w, h)
        {
          if k < n {
            assert bodies[..n][k] == bodies[k];
          }
        }
      }
    }
  }

  /** One pass of the loop of `RenderPlanetLabels`: the name beside the
      body's projection. */
  method DrawPlanetLabel(m: MathLib, c: Canvas, p: Planet, centerAlt: real, centerAz: real, fov: real)
    requires c.Valid()
    modifies c.cells
    ensures c.Shows(PlanetLabel(m, p, centerAlt, centerAz, fov, c.width, c.height))
  {
    var q := Project(m, p.altitude, p.azimuth, centerAlt, centerAz, fov, c.width, c.height);
    WriteLabelBeside(c, p.name, q, PlanetLabelStyle);
  }

  /** `RenderPlanetLabels(canvas, planets, centerAlt, centerAz, fov)`. */
  method RenderPlanetLabels(m: MathLib, c: Canvas, planets: Option<PlanetarySystem>, centerAlt: real, centerAz: real, fov: real)
    requires c.Valid()
    modifies c.cells
    ensures c.Shows(PlanetLabelLayer(m, planets, centerAlt, centerAz, fov, c.width, c.height))
    ensures planets.None? ==> forall j, i :: 0 <= j < c.height && 0 <= i < c.width ==> c.cells[j, i] == old(c.cells[j, i])
  {
    if planets.None? {
      return;
    }
    DrawPlanetLabels(m, c, AllPlanets(planets.value), centerAlt, centerAz, fov);
  }

  /** The loop of `RenderPlanetLabels` over the bodies, in order. */
  method DrawPlanetLabels(m: MathLib, c: Canvas, bodies: seq<Planet>, centerAlt: real, centerAz: real, fov: real)
    requires c.Valid()
    modifies c.cells
    ensures c.Shows(PlanetLabels(m, bodies, centerAlt, centerAz, fov, c.width, c.height))
  {
    for k := 0 to |bodies|
      invariant c.Shows(PlanetLabels(m, bodies[..k], centerAlt, centerAz, fov, c.width, c.height))
    {
      assert bodies[..k + 1][..k] == bodies[..k];
      ghost var done := PlanetLabels(m, bodies[..k], centerAlt, centerAz, fov, c.width, c.height);
      ghost var next := PlanetLabel(m, bodies[k], centerAlt, centerAz, fov, c.width, c.height);
      assert PlanetLabels(m, bodies[..k + 1], centerAlt, centerAz, fov, c.width, c.height) == done + next;
      DrawPlanetLabel(m, c, bodies[k], centerAlt, centerAz, fov);
      forall y, x | 0 <= y < c.height && 0 <= x < c.width
        ensures c.cells[y, x] == Painted(done + next, x, y, old(c.cells[y, x]))
      {
        PaintedAppend(done, next, x, y, old(c.cells[y, x]));
      }
    }
    assert bodies[..|bodies|] == bodies;
  }
}
