/** Constellation figures and their names (internal/render/constellations.go):
    each figure line joins two named stars with `drawLine`, and each label is
    written next to its star. Both renderers look stars up by name in a map
    built from the star slice. */
module RenderConstellations {
  import opened Wrappers
  import opened GoMath
  import opened Catalog
  import opened RenderCanvas
  import opened RenderStars
  import opened RenderLines
  import opened Text

  // ------------------------------------------------------------ star map

  /** `starMap[star.Name] = star` over the slice, in order: a later star
      replaces an earlier one of the same name. */
  function StarMap(stars: seq<Star>): map<string, Star> {
    if stars == [] then map[]
    else StarMap(stars[..|stars| - 1])[stars[|stars| - 1].name := stars[|stars| - 1]]
  }

  /** A name is in the map exactly when some star has it. */
  lemma {:induction false} StarMapDomain(stars: seq<Star>, name: string)
    ensures name in StarMap(stars) <==> exists k :: 0 <= k < |stars| && stars[k].name == name
    decreases |stars|
  {
    if stars != [] {
      var n := |stars| - 1;
      var pre := stars[..n];
      StarMapDomain(pre, name);
      if name in StarMap(pre) {
        var k :| 0 <= k < |pre| && pre[k].name == name;
        assert stars[k] == pre[k];
      } else if stars[n].name != name {
        forall k | 0 <= k < |stars|
          ensures stars[k].name != name
        {
          if k < n {
            assert stars[k] == pre[k];
          }
        }
      }
    }
  }

  /** The last star of a name is the one the map holds for it. */
  lemma {:induction false} StarMapLastWins(stars: seq<Star>, k: nat)
    requires k < |stars| && forall j :: k < j < |stars| ==> stars[j].name != stars[k].name
    ensures stars[k].name in StarMap(stars) && StarMap(stars)[stars[k].name] == stars[k]
    decreases |stars|
  {
    var n := |stars| - 1;
    if k < n {
      var pre := stars[..n];
      assert pre[k] == stars[k];
      StarMapLastWins(pre, k);
    }
  }

  /** The map-building loop at the head of both renderers. */
  method BuildStarMap(stars: seq<Star>) returns (starMap: map<string, Star>)
    ensures starMap == StarMap(stars)
  {
    starMap := map[];
    for k := 0 to |stars|
      invariant starMap == StarMap(stars[..k])
    {
      assert stars[..k + 1][..k] == stars[..k];
      starMap := starMap[stars[k].name := stars[k]];
    }
    assert stars[..|stars|] == stars;
  }

  // --------------------------------------------------------------- lines

  /** Colour 240, foreground only. */
  const LineStyle: Style := Foreground("240")

  /** U+2500, a horizontal box-drawing stroke. */
  const LineChar: char := '─'

  /** Where a star lands on the canvas. */
  function Spot(m: MathLib, s: Star, centerAlt: real, centerAz: real, fov: real, w: int, h: int): Projection {
    Project(m, s.altitude, s.azimuth, centerAlt, centerAz, fov, w, h)
  }

  /** The segment drawn for a figure line: none when a name is missing, when
      both names are the same, or when either star is off the view. */
  function LineSegment(m: MathLib, starMap: map<string, Star>, line: ConstellationLine,
                       centerAlt: real, centerAz: real, fov: real, w: int, h: int): Option<Segment> {
    if line.star1Name !in starMap || line.star2Name !in starMap then None
    else if line.star1Name == line.star2Name then None
    else
      var p1 := Spot(m, starMap[line.star1Name], centerAlt, centerAz, fov, w, h);
      var p2 := Spot(m, starMap[line.star2Name], centerAlt, centerAz, fov, w, h);
      if !p1.visible || !p2.visible then None
      else Some(Segment(p1.x, p1.y, p2.x, p2.y))
  }

  /** A line is drawn exactly when both names are known and distinct and both
      stars are in view; the segment then joins the two stars' cells, which
      lie on the canvas, and the path drawn runs from the first star to the
      second through 8-neighbouring cells, all on the canvas. */
  lemma LineSegmentJoinsStars(m: MathLib, starMap: map<string, Star>, line: ConstellationLine,
                              centerAlt: real, centerAz: real, fov: real, w: int, h: int)
    ensures var r := LineSegment(m, starMap, line, centerAlt, centerAz, fov, w, h);
      r.Some? <==> (line.star1Name in starMap && line.star2Name in starMap && line.star1Name != line.star2Name
        && Spot(m, starMap[line.star1Name], centerAlt, centerAz, fov, w, h).visible
        && Spot(m, starMap[line.star2Name], centerAlt, centerAz, fov, w, h).visible)
    ensures var r := LineSegment(m, starMap, line, centerAlt, centerAz, fov, w, h);
      r.Some? ==>
        var p1 := Spot(m, starMap[line.star1Name], centerAlt, centerAz, fov, w, h);
        var p2 := Spot(m, starMap[line.star2Name], centerAlt, centerAz, fov, w, h);
        var t := Path(r.value, w, h);
        r.value == Segment(p1.x, p1.y, p2.x, p2.y)
        && 0 <= p1.x < w && 0 <= p1.y < h && 0 <= p2.x < w && 0 <= p2.y < h
        && t[0] == (p1.x, p1.y) && t[|t| - 1] == (p2.x, p2.y)
        && (forall k :: 0 <= k < |t| ==> 0 <= t[k].0 < w && 0 <= t[k].1 < h)
        && (forall k :: 0 <= k < |t| - 1 ==> Neighbours(t[k], t[k + 1]))
  {
    var r := LineSegment(m, starMap, line, centerAlt, centerAz, fov, w, h);
    if r.Some? {
      PathGeometry(r.value, w, h);
    }
  }

  /** The writes of one figure line. */
  ghost function SegmentBrushes(m: MathLib, starMap: map<string, Star>, line: ConstellationLine,
                                centerAlt: real, centerAz: real, fov: real, w: int, h: int): seq<Brush> {
    match LineSegment(m, starMap, line, centerAlt, centerAz, fov, w, h)
    case None => []
    case Some(seg) => LineBrushes(Path(seg, w, h), LineChar, LineStyle)
  }

  /** The writes of a figure's lines, in order. */
  ghost function FigureBrushes(m: MathLib, starMap: map<string, Star>, lines: seq<ConstellationLine>,
                               centerAlt: real, centerAz: real, fov: real, w: int, h: int): seq<Brush> {
    if lines == [] then []
    else (FigureBrushes(m, starMap, lines[..|lines| - 1], centerAlt, centerAz, fov, w, h)
          + SegmentBrushes(m, starMap, lines[|lines| - 1], centerAlt, centerAz, fov, w, h))
  }

  /** The writes of `RenderConstellations`: every figure, in order. */
  ghost function ConstellationBrushes(m: MathLib, starMap: map<string, Star>, cs: seq<Constellation>,
                                      centerAlt: real, centerAz: real, fov: real, w: int, h: int): seq<Brush> {
    if cs == [] then []
    else (ConstellationBrushes(m, starMap, cs[..|cs| - 1], centerAlt, centerAz, fov, w, h)
          + FigureBrushes(m, starMap, cs[|cs| - 1].lines, centerAlt, centerAz, fov, w, h))
  }

  /** Every constellation write puts the line glyph in the line style, on
      the canvas, and only over a space or the line glyph. */
  predicate IsStroke(b: Brush, w: int, h: int) {
    b.cell == Cell(LineChar, LineStyle) && b.over == Some([' ', LineChar]) && 0 <= b.x < w && 0 <= b.y < h
  }

  lemma SegmentStrokes(m: MathLib, starMap: map<string, Star>, line: ConstellationLine,
                       centerAlt: real, centerAz: real, fov: real, w: int, h: int)
    ensures forall k :: 0 <= k < |SegmentBrushes(m, starMap, line, centerAlt, centerAz, fov, w, h)| ==>
      IsStroke(SegmentBrushes(m, starMap, line, centerAlt, centerAz, fov, w, h)[k], w, h)
  {
    var r := LineSegment(m, starMap, line, centerAlt, centerAz, fov, w, h);
    if r.Some? {
      LineSegmentJoinsStars(m, starMap, line, centerAlt, centerAz, fov, w, h);
      LineBrushesAt(Path(r.value, w, h), LineChar, LineStyle);
    }
  }

  lemma {:induction false} FigureStrokes(m: MathLib, starMap: map<string, Star>, lines: seq<ConstellationLine>,
                                         centerAlt: real, centerAz: real, fov: real, w: int, h: int)
    ensures forall k :: 0 <= k < |FigureBrushes(m, starMap, lines, centerAlt, centerAz, fov, w, h)| ==>
      IsStroke(FigureBrushes(m, starMap, lines, centerAlt, centerAz, fov, w, h)[k], w, h)
    decreases |lines|
  {
    if lines != [] {
      var pre := FigureBrushes(m, starMap, lines[..|lines| - 1], centerAlt, centerAz, fov, w, h);
      var last := SegmentBrushes(m, starMap, lines[|lines| - 1], centerAlt, centerAz, fov, w, h);
      FigureStrokes(m, starMap, lines[..|lines| - 1], centerAlt, centerAz, fov, w, h);
      SegmentStrokes(m, starMap, lines[|lines| - 1], centerAlt, centerAz, fov, w, h);
      assert FigureBrushes(m, starMap, lines, centerAlt, centerAz, fov, w, h) == pre + last;
      forall k | 0 <= k < |pre + last|
        ensures IsStroke((pre + last)[k], w, h)
      {
        if k >= |pre| {
          assert (pre + last)[k] == last[k - |pre|];
        }
      }
    }
  }

  /** Every write of `RenderConstellations` is a guarded stroke on the
      canvas. */
  lemma {:induction false} ConstellationStrokes(m: MathLib, starMap: map<string, Star>, cs: seq<Constellation>,
                                                centerAlt: real, centerAz: real, fov: real, w: int, h: int)
    ensures forall k :: 0 <= k < |ConstellationBrushes(m, starMap, cs, centerAlt, centerAz, fov, w, h)| ==>
      IsStroke(ConstellationBrushes(m, starMap, cs, centerAlt, centerAz, fov, w, h)[k], w, h)
    decreases |cs|
  {
    if cs != [] {
      var pre := ConstellationBrushes(m, starMap, cs[..|cs| - 1], centerAlt, centerAz, fov, w, h);
      var last := FigureBrushes(m, starMap, cs[|cs| - 1].lines, centerAlt, centerAz, fov, w, h);
      ConstellationStrokes(m, starMap, cs[..|cs| - 1], centerAlt, centerAz, fov, w, h);
      FigureStrokes(m, starMap, cs[|cs| - 1].lines, centerAlt, centerAz, fov, w, h);
      assert ConstellationBrushes(m, starMap, cs, centerAlt, centerAz, fov, w, h) == pre + last;
      forall k | 0 <= k < |pre + last|
        ensures IsStroke((pre + last)[k], w, h)
      {
        if k >= |pre| {
          assert (pre + last)[k] == last[k - |pre|];
        }
      }
    }
  }

  /** Stars, labels and any other glyph already on the canvas survive the
      constellation layer; a cell holding a space or the line glyph either
      keeps it or shows the line glyph in the line style. */
  lemma ConstellationsKeepForeignGlyphs(m: MathLib, starMap: map<string, Star>, cs: seq<Constellation>,
                                        centerAlt: real, centerAz: real, fov: real, w: int, h: int,
                                        x: int, y: int, c: Cell)
    ensures var r := Painted(ConstellationBrushes(m, starMap, cs, centerAlt, centerAz, fov, w, h), x, y, c);
      (c.ch != ' ' && c.ch != LineChar ==> r == c)
      && (r == c || r == Cell(LineChar, LineStyle))
  {
    var bs := ConstellationBrushes(m, starMap, cs, centerAlt, centerAz, fov, w, h);
    ConstellationStrokes(m, starMap, cs, centerAlt, centerAz, fov, w, h);
    if c.ch != ' ' && c.ch != LineChar {
      PaintedGuarded(bs, x, y, c);
    }
    PaintedFromCells(bs, x, y, c, Cell(LineChar, LineStyle));
  }

  /** When every brush paints the same cell value `v`, painting leaves `c`
      or shows `v`. */
  lemma {:induction false} PaintedFromCells(bs: seq<Brush>, x: int, y: int, c: Cell, v: Cell)
    requires forall k :: 0 <= k < |bs| ==> bs[k].cell == v
    ensures Painted(bs, x, y, c) == c || Painted(bs, x, y, c) == v
    decreases |bs|
  {
    if bs != [] {
      PaintedFromCells(bs[..|bs| - 1], x, y, c, v);
    }
  }

  /** `RenderConstellations(canvas, stars, constellations, centerAlt,
      centerAz, fov)`. */
  method RenderConstellationLines(m: MathLib, c: Canvas, stars: seq<Star>, constellations: seq<Constellation>,
                                  centerAlt: real, centerAz: real, fov: real)
    requires c.Valid()
    modifies c.cells
    ensures c.Shows(ConstellationBrushes(m, StarMap(stars), constellations, centerAlt, centerAz, fov, c.width, c.height))
  {
    var starMap := BuildStarMap(stars);
    for n := 0 to |constellations|
      invariant c.Shows(ConstellationBrushes(m, starMap, constellations[..n], centerAlt, centerAz, fov, c.width, c.height))
    {
      assert constellations[..n + 1][..n] == constellations[..n];
      ghost var done := ConstellationBrushes(m, starMap, constellations[..n], centerAlt, centerAz, fov, c.width, c.height);
      var lines := constellations[n].lines;
      DrawFigure(m, c, starMap, lines, centerAlt, centerAz, fov);
      ghost var fb := FigureBrushes(m, starMap, lines, centerAlt, centerAz, fov, c.width, c.height);
      forall j, i | 0 <= j < c.height && 0 <= i < c.width
        ensures c.cells[j, i] == Painted(done + fb, i, j, old(c.cells[j, i]))
      {
        PaintedAppend(done, fb, i, j, old(c.cells[j, i]));
      }
    }
    assert constellations[..|constellations|] == constellations;
  }

  /** The inner loop of `RenderConstellations`: one figure's lines. */
  method DrawFigure(m: MathLib, c: Canvas, starMap: map<string, Star>, lines: seq<ConstellationLine>,
                    centerAlt: real, centerAz: real, fov: real)
    requires c.Valid()
    modifies c.cells
    ensures c.Shows(FigureBrushes(m, starMap, lines, centerAlt, centerAz, fov, c.width, c.height))
  {
    for k := 0 to |lines|
      invariant c.Shows(FigureBrushes(m, starMap, lines[..k], centerAlt, centerAz, fov, c.width, c.height))
    {
      assert lines[..k + 1][..k] == lines[..k];
      ghost var done := FigureBrushes(m, starMap, lines[..k], centerAlt, centerAz, fov, c.width, c.height);
      var line := lines[k];
      if line.star1Name !in starMap || line.star2Name !in starMap {
        assert FigureBrushes(m, starMap, lines[..k + 1], centerAlt, centerAz, fov, c.width, c.height) == done;
        continue;
      }
      if line.star1Name == line.star2Name {
        assert FigureBrushes(m, starMap, lines[..k + 1], centerAlt, centerAz, fov, c.width, c.height) == done;
        continue;
      }
      var star1, star2 := starMap[line.star1Name], starMap[line.star2Name];
      var p1 := Project(m, star1.altitude, star1.azimuth, centerAlt, centerAz, fov, c.width, c.height);
      var p2 := Project(m, star2.altitude, star2.azimuth, centerAlt, centerAz, fov, c.width, c.height);
      if !p1.visible || !p2.visible {
        assert FigureBrushes(m, starMap, lines[..k + 1], centerAlt, centerAz, fov, c.width, c.height) == done;
        continue;
      }
      ghost var lb := LineBrushes(Path(Segment(p1.x, p1.y, p2.x, p2.y), c.width, c.height), LineChar, LineStyle);
      assert FigureBrushes(m, starMap, lines[..k + 1], centerAlt, centerAz, fov, c.width, c.height) == done + lb;
      DrawLine(c, p1.x, p1.y, p2.x, p2.y, LineChar, LineStyle);
      forall j, i | 0 <= j < c.height && 0 <= i < c.width
        ensures c.cells[j, i] == Painted(done + lb, i, j, old(c.cells[j, i]))
      {
        PaintedAppend(done, lb, i, j, old(c.cells[j, i]));
      }
    }
    assert lines[..|lines|] == lines;
  }

  // -------------------------------------------------------------- labels

  /** Colour 51 (bright cyan), bold. */
  const LabelStyle: Style := Style(Some("51"), true, false)

  /** The row of a label beside a star on row `y`: the row above, unless it
      is off the canvas; then the row below, unless that is off too. */
  function LabelRow(y: int, h: int): Option<int> {
    var above := y - 1;
    if above < 0 || above >= h then (if y + 1 >= h then None else Some(y + 1))
    else Some(above)
  }

  /** For a star on the canvas the label goes on an adjacent row of the
      canvas, above whenever there is a row above, and is dropped only on a
      one-row canvas. */
  lemma LabelRowPlacement(y: int, h: int)
    requires 0 <= y < h
    ensures LabelRow(y, h).Some? ==> 0 <= LabelRow(y, h).value < h && Abs(LabelRow(y, h).value - y) == 1
    ensures y > 0 ==> LabelRow(y, h) == Some(y - 1)
    ensures y == 0 && h > 1 ==> LabelRow(y, h) == Some(1)
    ensures LabelRow(y, h).None? <==> h == 1
  {
  }

  /** The writes for one entry: its name from two columns right of the star,
      on `LabelRow`; nothing when the star is unknown, out of view, or has
      no row for its entry. */
  function LabelWrites(m: MathLib, starMap: map<string, Star>, entry: ConstellationLabel,
                       centerAlt: real, centerAz: real, fov: real, w: int, h: int): seq<Brush> {
    if entry.starName !in starMap then []
    else
      var p := Spot(m, starMap[entry.starName], centerAlt, centerAz, fov, w, h);
      if !p.visible then []
      else match LabelRow(p.y, h)
        case None => []
        case Some(row) => LabelBrushes(entry.name, p.x + 2, row, LabelStyle, w)
  }

  /** The writes of `RenderConstellationLabels`: every entry, in order. */
  function ConstellationLabelBrushes(m: MathLib, starMap: map<string, Star>, labels: seq<ConstellationLabel>,
                                     centerAlt: real, centerAz: real, fov: real, w: int, h: int): seq<Brush> {
    if labels == [] then []
    else (ConstellationLabelBrushes(m, starMap, labels[..|labels| - 1], centerAlt, centerAz, fov, w, h)
          + LabelWrites(m, starMap, labels[|labels| - 1], centerAlt, centerAz, fov, w, h))
  }

  /** A label is written only for a known, visible star; its characters are
      written unconditionally, in the label style, on the row beside the star
      and in canvas columns from two right of it; an ASCII name that fits
      takes consecutive columns. */
  lemma LabelWritesPlacement(m: MathLib, starMap: map<string, Star>, entry: ConstellationLabel,
                             centerAlt: real, centerAz: real, fov: real, w: int, h: int)
    ensures LabelWrites(m, starMap, entry, centerAlt, centerAz, fov, w, h) != [] ==>
      entry.starName in starMap && Spot(m, starMap[entry.starName], centerAlt, centerAz, fov, w, h).visible
    ensures entry.starName in starMap ==>
      var p := Spot(m, starMap[entry.starName], centerAlt, centerAz, fov, w, h);
      forall b :: b in LabelWrites(m, starMap, entry, centerAlt, centerAz, fov, w, h) ==>
        b.over.None? && b.cell.style == LabelStyle && b.cell.ch in entry.name
        && 0 <= b.y < h && Abs(b.y - p.y) == 1 && p.x + 2 <= b.x < w
    ensures entry.starName in starMap ==>
      var p := Spot(m, starMap[entry.starName], centerAlt, centerAz, fov, w, h);
      p.visible && LabelRow(p.y, h).Some? && IsAscii(entry.name) && p.x + 2 + |entry.name| <= w ==>
        LabelWrites(m, starMap, entry, centerAlt, centerAz, fov, w, h)
        == seq(|entry.name|, k requires 0 <= k < |entry.name| =>
               Plain(p.x + 2 + k, LabelRow(p.y, h).value, Cell(entry.name[k], LabelStyle)))
  {
    if entry.starName in starMap {
      var p := Spot(m, starMap[entry.starName], centerAlt, centerAz, fov, w, h);
      if p.visible {
        LabelRowPlacement(p.y, h);
        if LabelRow(p.y, h).Some? {
          var row := LabelRow(p.y, h).value;
          LabelBrushesClipped(entry.name, p.x + 2, row, LabelStyle, w);
          if IsAscii(entry.name) && p.x + 2 + |entry.name| <= w {
            LabelBrushesAscii(entry.name, p.x + 2, row, LabelStyle, w);
          }
        }
      }
    }
  }

  /** `RenderConstellationLabels(canvas, stars, labels, centerAlt, centerAz,
      fov)`. */
  method RenderConstellationLabels(m: MathLib, c: Canvas, stars: seq<Star>, labels: seq<ConstellationLabel>,
                                   centerAlt: real, centerAz: real, fov: real)
    requires c.Valid()
    modifies c.cells
    ensures c.Shows(ConstellationLabelBrushes(m, StarMap(stars), labels, centerAlt, centerAz, fov, c.width, c.height))
  {
    var starMap := BuildStarMap(stars);
    for n := 0 to |labels|
      invariant c.Shows(ConstellationLabelBrushes(m, starMap, labels[..n], centerAlt, centerAz, fov, c.width, c.height))
    {
      assert labels[..n + 1][..n] == labels[..n];
      ghost var done := ConstellationLabelBrushes(m, starMap, labels[..n], centerAlt, centerAz, fov, c.width, c.height);
      ghost var lb := LabelWrites(m, starMap, labels[n], centerAlt, centerAz, fov, c.width, c.height);
      DrawConstellationLabel(m, c, starMap, labels[n], centerAlt, centerAz, fov);
      forall j, i | 0 <= j < c.height && 0 <= i < c.width
        ensures c.cells[j, i] == Painted(done + lb, i, j, old(c.cells[j, i]))
      {
        PaintedAppend(done, lb, i, j, old(c.cells[j, i]));
      }
    }
    assert labels[..|labels|] == labels;
  }

  /** The body of the label loop of `RenderConstellationLabels`. */
  method DrawConstellationLabel(m: MathLib, c: Canvas, starMap: map<string, Star>, entry: ConstellationLabel,
                                centerAlt: real, centerAz: real, fov: real)
    requires c.Valid()
    modifies c.cells
    ensures c.Shows(LabelWrites(m, starMap, entry, centerAlt, centerAz, fov, c.width, c.height))
  {
    if entry.starName !in starMap {
      return;
    }
    var star := starMap[entry.starName];
    var p := Project(m, star.altitude, star.azimuth, centerAlt, centerAz, fov, c.width, c.height);
    if !p.visible {
      return;
    }
    var labelX := p.x + 2;
    var labelY := p.y - 1;
    if labelY < 0 || labelY >= c.height {
      labelY := p.y + 1;
      if labelY >= c.height {
        return;
      }
    }
    WriteLabel(c, entry.name, labelX, labelY, LabelStyle);
  }
}
