/** The altitude/azimuth grid overlay (internal/render/grid.go): dots along
    altitude circles and meridians that only fill blank cells, degree labels
    beside them, and the four cardinal letters on the horizon. The sampling
    loops of the source step `float64` counters by whole degrees, which are
    exact in binary; here each loop runs over the index of its sample
    (thirteen altitude circles of 72 azimuths, twenty-four meridians of 37
    altitudes). */
module RenderGrid {
  import opened Wrappers
  import opened GoMath
  import opened Text
  import opened RenderCanvas
  import opened RenderStars

  /** Colour 238 for dots, 242 for labels, bold yellow for cardinals. */
  const GridStyle: Style := Foreground("238")
  const GridLabelStyle: Style := Foreground("242")
  const CardinalStyle: Style := Style(Some("yellow"), true, false)

  /** U+00B7, a middle dot. */
  const GridDot: char := '·'

  /** `fmt.Sprintf("%.0f°", v)` for the whole-degree values the grid
      labels. */
  function DegreeLabel(v: int): string {
    IntToString(v) + "°"
  }

  /** Only the final degree sign of a grid label is wider than one byte, so
      each character's byte offset is its index. */
  lemma DegreeLabelOffsets(v: int)
    ensures forall k :: 0 <= k < |DegreeLabel(v)| ==> Utf8Len(DegreeLabel(v)[..k]) == k
  {
    var s := DegreeLabel(v);
    var digits := IntToString(v);
    forall k | 0 <= k < |s|
      ensures Utf8Len(s[..k]) == k
    {
      assert s[..k] == digits[..k];
      assert IsAscii(digits[..k]);
      Utf8LenAscii(digits[..k]);
    }
  }

  // --------------------------------------------------------------- dots

  /** The guarded dot write at the projection of (`alt`, `az`), if visible. */
  function DotAt(m: MathLib, alt: int, az: int, centerAlt: real, centerAz: real, fov: real, w: int, h: int): seq<Brush> {
    var p := Project(m, alt as real, az as real, centerAlt, centerAz, fov, w, h);
    if p.visible then [Brush(p.x, p.y, Cell(GridDot, GridStyle), Some([' ']))] else []
  }

  /** A dot write: the dot glyph, only over a blank cell. */
  predicate IsDot(b: Brush) {
    b.cell == Cell(GridDot, GridStyle) && b.over == Some([' '])
  }

  /** The first `n` samples of the altitude circle at `alt`:
      azimuths 0, 5, 10, and so on. */
  function CircleDots(m: MathLib, alt: int, n: nat, centerAlt: real, centerAz: real, fov: real, w: int, h: int): seq<Brush> {
    if n == 0 then []
    else CircleDots(m, alt, n - 1, centerAlt, centerAz, fov, w, h) + DotAt(m, alt, 5 * (n - 1), centerAlt, centerAz, fov, w, h)
  }

  /** The first `n` samples of the meridian at `az`: altitudes -90, -85,
      -80, and so on. */
  function MeridianDots(m: MathLib, az: int, n: nat, centerAlt: real, centerAz: real, fov: real, w: int, h: int): seq<Brush> {
    if n == 0 then []
    else MeridianDots(m, az, n - 1, centerAlt, centerAz, fov, w, h) + DotAt(m, -90 + 5 * (n - 1), az, centerAlt, centerAz, fov, w, h)
  }

  /** An altitude circle's dots are exactly the dot writes at its visible
      samples (alt, 5j) for j < n. */
  lemma {:induction false} CircleDotsSamples(m: MathLib, alt: int, n: nat, centerAlt: real, centerAz: real, fov: real, w: int, h: int, b: Brush)
    ensures b in CircleDots(m, alt, n, centerAlt, centerAz, fov, w, h)
      <==> exists j :: 0 <= j < n && b in DotAt(m, alt, 5 * j, centerAlt, centerAz, fov, w, h)
    decreases n
  {
    if n > 0 {
      CircleDotsSamples(m, alt, n - 1, centerAlt, centerAz, fov, w, h, b);
      if b in DotAt(m, alt, 5 * (n - 1), centerAlt, centerAz, fov, w, h) {
        assert exists j :: 0 <= j < n && b in DotAt(m, alt, 5 * j, centerAlt, centerAz, fov, w, h);
      }
    }
  }

  /** A meridian's dots are exactly the dot writes at its visible samples
      (-90 + 5j, az) for j < n. */
  lemma {:induction false} MeridianDotsSamples(m: MathLib, az: int, n: nat, centerAlt: real, centerAz: real, fov: real, w: int, h: int, b: Brush)
    ensures b in MeridianDots(m, az, n, centerAlt, centerAz, fov, w, h)
      <==> exists j :: 0 <= j < n && b in DotAt(m, -90 + 5 * j, az, centerAlt, centerAz, fov, w, h)
    decreases n
  {
    if n > 0 {
      MeridianDotsSamples(m, az, n - 1, centerAlt, centerAz, fov, w, h, b);
      if b in DotAt(m, -90 + 5 * (n - 1), az, centerAlt, centerAz, fov, w, h) {
        assert exists j :: 0 <= j < n && b in DotAt(m, -90 + 5 * j, az, centerAlt, centerAz, fov, w, h);
      }
    }
  }

  lemma {:induction false} CircleDotsAreDots(m: MathLib, alt: int, n: nat, centerAlt: real, centerAz: real, fov: real, w: int, h: int)
    ensures forall k :: 0 <= k < |CircleDots(m, alt, n, centerAlt, centerAz, fov, w, h)| ==>
      IsDot(CircleDots(m, alt, n, centerAlt, centerAz, fov, w, h)[k])
    decreases n
  {
    if n > 0 {
      CircleDotsAreDots(m, alt, n - 1, centerAlt, centerAz, fov, w, h);
    }
  }

  lemma {:induction false} MeridianDotsAreDots(m: MathLib, az: int, n: nat, centerAlt: real, centerAz: real, fov: real, w: int, h: int)
    ensures forall k :: 0 <= k < |MeridianDots(m, az, n, centerAlt, centerAz, fov, w, h)| ==>
      IsDot(MeridianDots(m, az, n, centerAlt, centerAz, fov, w, h)[k])
    decreases n
  {
    if n > 0 {
      MeridianDotsAreDots(m, az, n - 1, centerAlt, centerAz, fov, w, h);
    }
  }

  /** Dots fill only blank cells: a cell holding any other character keeps
      it, and a blank cell either stays blank or shows the dot. */
  lemma {:induction false} DotsFillOnlyBlanks(bs: seq<Brush>, x: int, y: int, c: Cell)
    requires forall k :: 0 <= k < |bs| ==> IsDot(bs[k])
    ensures c.ch != ' ' ==> Painted(bs, x, y, c) == c
    ensures Painted(bs, x, y, c) == c || Painted(bs, x, y, c) == Cell(GridDot, GridStyle)
    decreases |bs|
  {
    if c.ch != ' ' {
      PaintedGuarded(bs, x, y, c);
    }
    if bs != [] {
      DotsFillOnlyBlanks(bs[..|bs| - 1], x, y, c);
    }
  }

  // ------------------------------------------------------------- labels

  /** The altitude label of the circle at `alt`, left to right from the
      projection of (`alt`, `centerAz`). The source clips only at the right
      edge; the column is never negative because the projection is on the
      canvas, so the shared label writes coincide. */
  function AltitudeLabel(m: MathLib, alt: int, centerAlt: real, centerAz: real, fov: real, w: int, h: int): seq<Brush> {
    var p := Project(m, alt as real, centerAz, centerAlt, centerAz, fov, w, h);
    if p.visible then LabelBrushes(DegreeLabel(alt), p.x, p.y, GridLabelStyle, w) else []
  }

  /** `for i, ch := range text` writing `ch` at row `y0 + i` of column `x`
      where `y0 + i < h`. */
  function ColumnBrushes(text: string, x: int, y0: int, style: Style, h: int): seq<Brush> {
    if text == [] then []
    else
      var k := |text| - 1;
      var yPos := y0 + Utf8Len(text[..k]);
      ColumnBrushes(text[..k], x, y0, style, h)
      + (if yPos < h then [Plain(x, yPos, Cell(text[k], style))] else [])
  }

  /** The azimuth label of the meridian at `az`, top to bottom from the
      projection of (0, `az`). */
  function AzimuthLabel(m: MathLib, az: int, centerAlt: real, centerAz: real, fov: real, w: int, h: int): seq<Brush> {
    var p := Project(m, 0.0, az as real, centerAlt, centerAz, fov, w, h);
    if p.visible then ColumnBrushes(DegreeLabel(az), p.x, p.y, GridLabelStyle, h) else []
  }

  /** Column writes whose offsets are the character indices put character
      `k` at row `y0 + k` while it is above row `h`. */
  lemma {:induction false} ColumnBrushesIndexed(text: string, x: int, y0: int, style: Style, h: int)
    requires forall k :: 0 <= k < |text| ==> Utf8Len(text[..k]) == k
    requires y0 + |text| <= h
    ensures ColumnBrushes(text, x, y0, style, h) == seq(|text|, k requires 0 <= k < |text| => Plain(x, y0 + k, Cell(text[k], style)))
    decreases |text|
  {
    if text != [] {
      var k := |text| - 1;
      forall i | 0 <= i < |text[..k]|
        ensures Utf8Len(text[..k][..i]) == i
      {
        assert text[..k][..i] == text[..i];
      }
      ColumnBrushesIndexed(text[..k], x, y0, style, h);
    }
  }

  /** Column writes are unconditional, stay in column `x`, and go from row
      `y0` down, never past row `h - 1`. */
  lemma {:induction false} ColumnBrushesClipped(text: string, x: int, y0: int, style: Style, h: int)
    ensures forall b :: b in ColumnBrushes(text, x, y0, style, h) ==>
      b.over.None? && b.x == x && y0 <= b.y < h && b.cell.style == style && b.cell.ch in text
    decreases |text|
  {
    if text != [] {
      ColumnBrushesClipped(text[..|text| - 1], x, y0, style, h);
    }
  }

  /** An azimuth label is written down its column from the horizon point of
      the meridian, one character per row, cut at the bottom edge; when it
      fits, character `k` lands on row `y + k`. */
  lemma AzimuthLabelLayout(m: MathLib, az: int, centerAlt: real, centerAz: real, fov: real, w: int, h: int)
    ensures var p := Project(m, 0.0, az as real, centerAlt, centerAz, fov, w, h);
      forall b :: b in AzimuthLabel(m, az, centerAlt, centerAz, fov, w, h) ==>
        p.visible && b.over.None? && b.x == p.x && p.y <= b.y < h && b.cell.style == GridLabelStyle
    ensures var p := Project(m, 0.0, az as real, centerAlt, centerAz, fov, w, h);
      var text := DegreeLabel(az);
      p.visible && p.y + |text| <= h ==>
        AzimuthLabel(m, az, centerAlt, centerAz, fov, w, h)
        == seq(|text|, k requires 0 <= k < |text| => Plain(p.x, p.y + k, Cell(text[k], GridLabelStyle)))
  {
    var p := Project(m, 0.0, az as real, centerAlt, centerAz, fov, w, h);
    if p.visible {
      ColumnBrushesClipped(DegreeLabel(az), p.x, p.y, GridLabelStyle, h);
      DegreeLabelOffsets(az);
      if p.y + |DegreeLabel(az)| <= h {
        ColumnBrushesIndexed(DegreeLabel(az), p.x, p.y, GridLabelStyle, h);
      }
    }
  }

  /** An altitude label is written along its row from the projection of
      (alt, centerAz), cut at the right edge; when it fits, character `k`
      lands on column `x + k`. */
  lemma AltitudeLabelLayout(m: MathLib, alt: int, centerAlt: real, centerAz: real, fov: real, w: int, h: int)
    ensures var p := Project(m, alt as real, centerAz, centerAlt, centerAz, fov, w, h);
      forall b :: b in AltitudeLabel(m, alt, centerAlt, centerAz, fov, w, h) ==>
        p.visible && b.over.None? && b.y == p.y && p.x <= b.x < w && b.cell.style == GridLabelStyle
    ensures var p := Project(m, alt as real, centerAz, centerAlt, centerAz, fov, w, h);
      var text := DegreeLabel(alt);
      p.visible && p.x + |text| <= w ==>
        AltitudeLabel(m, alt, centerAlt, centerAz, fov, w, h)
        == seq(|text|, k requires 0 <= k < |text| => Plain(p.x + k, p.y, Cell(text[k], GridLabelStyle)))
  {
    var p := Project(m, alt as real, centerAz, centerAlt, centerAz, fov, w, h);
    if p.visible {
      LabelBrushesClipped(DegreeLabel(alt), p.x, p.y, GridLabelStyle, w);
      DegreeLabelOffsets(alt);
      if p.x + |DegreeLabel(alt)| <= w {
        LabelBrushesIndexed(DegreeLabel(alt), p.x, p.y, GridLabelStyle, w);
      }
    }
  }

  /** Row writes whose offsets are the character indices put character `k`
      at column `x0 + k`. */
  lemma {:induction false} LabelBrushesIndexed(text: string, x0: int, y: int, style: Style, w: int)
    requires forall k :: 0 <= k < |text| ==> Utf8Len(text[..k]) == k
    requires 0 <= x0 && x0 + |text| <= w
    ensures LabelBrushes(text, x0, y, style, w) == seq(|text|, k requires 0 <= k < |text| => Plain(x0 + k, y, Cell(text[k], style)))
    decreases |text|
  {
    if text != [] {
      var k := |text| - 1;
      forall i | 0 <= i < |text[..k]|
        ensures Utf8Len(text[..k][..i]) == i
      {
        assert text[..k][..i] == text[..i];
      }
      LabelBrushesIndexed(text[..k], x0, y, style, w);
    }
  }

  // ------------------------------------------------------------ layers

  /** Altitudes of the circles: -90, -75, ..., 90 (thirteen of them). */
  function CircleAltitude(i: int): int { -90 + 15 * i }

  /** Azimuths of the meridians: 0, 15, ..., 345 (twenty-four of them). */
  function MeridianAzimuth(i: int): int { 15 * i }

  /** The first `n` altitude circles, each with its 72 dots and its label. */
  function CirclesBrushes(m: MathLib, n: nat, centerAlt: real, centerAz: real, fov: real, w: int, h: int): seq<Brush> {
    if n == 0 then []
    else
      var alt := CircleAltitude(n - 1);
      CirclesBrushes(m, n - 1, centerAlt, centerAz, fov, w, h)
      + (CircleDots(m, alt, 72, centerAlt, centerAz, fov, w, h) + AltitudeLabel(m, alt, centerAlt, centerAz, fov, w, h))
  }

  /** The first `n` meridians, each with its 37 dots and its label. */
  function MeridiansBrushes(m: MathLib, n: nat, centerAlt: real, centerAz: real, fov: real, w: int, h: int): seq<Brush> {
    if n == 0 then []
    else
      var az := MeridianAzimuth(n - 1);
      MeridiansBrushes(m, n - 1, centerAlt, centerAz, fov, w, h)
      + (MeridianDots(m, az, 37, centerAlt, centerAz, fov, w, h) + AzimuthLabel(m, az, centerAlt, centerAz, fov, w, h))
  }

  /** The cardinal letters and their horizon azimuths, in the order this
      model visits them. */
  const CardinalPoints: seq<(int, char)> := [(0, 'N'), (90, 'E'), (180, 'S'), (270, 'W')]

  function CardinalAt(m: MathLib, point: (int, char), centerAlt: real, centerAz: real, fov: real, w: int, h: int): seq<Brush> {
    var p := Project(m, 0.0, point.0 as real, centerAlt, centerAz, fov, w, h);
    if p.visible then [Plain(p.x, p.y, Cell(point.1, CardinalStyle))] else []
  }

  /** The first `n` cardinal writes: unconditional. */
  function CardinalBrushes(m: MathLib, n: nat, centerAlt: real, centerAz: real, fov: real, w: int, h: int): seq<Brush>
    requires n <= |CardinalPoints|
  {
    if n == 0 then []
    else CardinalBrushes(m, n - 1, centerAlt, centerAz, fov, w, h) + CardinalAt(m, CardinalPoints[n - 1], centerAlt, centerAz, fov, w, h)
  }

  /** Everything `RenderGrid` writes, in order. */
  function GridBrushes(m: MathLib, centerAlt: real, centerAz: real, fov: real, w: int, h: int): seq<Brush> {
    (CirclesBrushes(m, 13, centerAlt, centerAz, fov, w, h) + MeridiansBrushes(m, 24, centerAlt, centerAz, fov, w, h))
    + CardinalBrushes(m, 4, centerAlt, centerAz, fov, w, h)
  }

  /** A visible cardinal letter shows on its cell whatever was there before,
      unless another cardinal lands on the same cell. */
  lemma {:induction false} CardinalShows(m: MathLib, n: nat, k: nat, centerAlt: real, centerAz: real, fov: real, w: int, h: int, c: Cell)
    requires k < n <= |CardinalPoints|
    requires Project(m, 0.0, CardinalPoints[k].0 as real, centerAlt, centerAz, fov, w, h).visible
    requires var p := Project(m, 0.0, CardinalPoints[k].0 as real, centerAlt, centerAz, fov, w, h);
      forall j :: 0 <= j < |CardinalPoints| && j != k ==>
        var q := Project(m, 0.0, CardinalPoints[j].0 as real, centerAlt, centerAz, fov, w, h);
        !q.visible || q.x != p.x || q.y != p.y
    ensures var p := Project(m, 0.0, CardinalPoints[k].0 as real, centerAlt, centerAz, fov, w, h);
      Painted(CardinalBrushes(m, n, centerAlt, centerAz, fov, w, h), p.x, p.y, c) == Cell(CardinalPoints[k].1, CardinalStyle)
    decreases n
  {
    var p := Project(m, 0.0, CardinalPoints[k].0 as real, centerAlt, centerAz, fov, w, h);
    var pre := CardinalBrushes(m, n - 1, centerAlt, centerAz, fov, w, h);
    var last := CardinalAt(m, CardinalPoints[n - 1], centerAlt, centerAz, fov, w, h);
    PaintedAppend(pre, last, p.x, p.y, c);
    CardinalAtPaints(m, CardinalPoints[n - 1], centerAlt, centerAz, fov, w, h, p.x, p.y, Painted(pre, p.x, p.y, c));
    if k < n - 1 {
      CardinalShows(m, n - 1, k, centerAlt, centerAz, fov, w, h, c);
    }
  }

  /** One cardinal write changes only the cell its letter projects to. */
  lemma CardinalAtPaints(m: MathLib, point: (int, char), centerAlt: real, centerAz: real, fov: real, w: int, h: int, x: int, y: int, c: Cell)
    ensures var q := Project(m, 0.0, point.0 as real, centerAlt, centerAz, fov, w, h);
      Painted(CardinalAt(m, point, centerAlt, centerAz, fov, w, h), x, y, c)
      == if q.visible && q.x == x && q.y == y then Cell(point.1, CardinalStyle) else c
  {
    var q := Project(m, 0.0, point.0 as real, centerAlt, centerAz, fov, w, h);
    if q.visible {
      assert CardinalAt(m, point, centerAlt, centerAz, fov, w, h)[..0] == [];
    }
  }

  /** After `RenderGrid`, a visible cardinal letter is on its cell, over
      whatever dot, label or glyph was there, unless another cardinal lands
      on the same cell. */
  lemma CardinalsOverwrite(m: MathLib, k: nat, centerAlt: real, centerAz: real, fov: real, w: int, h: int, c: Cell)
    requires k < |CardinalPoints|
    requires Project(m, 0.0, CardinalPoints[k].0 as real, centerAlt, centerAz, fov, w, h).visible
    requires var p := Project(m, 0.0, CardinalPoints[k].0 as real, centerAlt, centerAz, fov, w, h);
      forall j :: 0 <= j < |CardinalPoints| && j != k ==>
        var q := Project(m, 0.0, CardinalPoints[j].0 as real, centerAlt, centerAz, fov, w, h);
        !q.visible || q.x != p.x || q.y != p.y
    ensures var p := Project(m, 0.0, CardinalPoints[k].0 as real, centerAlt, centerAz, fov, w, h);
      Painted(GridBrushes(m, centerAlt, centerAz, fov, w, h), p.x, p.y, c) == Cell(CardinalPoints[k].1, CardinalStyle)
  {
    var p := Project(m, 0.0, CardinalPoints[k].0 as real, centerAlt, centerAz, fov, w, h);
    var a := CirclesBrushes(m, 13, centerAlt, centerAz, fov, w, h) + MeridiansBrushes(m, 24, centerAlt, centerAz, fov, w, h);
    PaintedAppend(a, CardinalBrushes(m, 4, centerAlt, centerAz, fov, w, h), p.x, p.y, c);
    CardinalShows(m, 4, k, centerAlt, centerAz, fov, w, h, Painted(a, p.x, p.y, c));
  }

  // ----------------------------------------------------------- methods

  /** The column-label loop: `for i, ch := range text` writing at row
      `y0 + i` of column `x` where `y0 + i < Height`. */
  method WriteColumnLabel(c: Canvas, text: string, x: int, y0: int, style: Style)
    requires c.Valid()
    modifies c.cells
    ensures c.Shows(ColumnBrushes(text, x, y0, style, c.height))
  {
    var i := 0;
    for k := 0 to |text|
      invariant i == Utf8Len(text[..k])
      invariant c.Shows(ColumnBrushes(text[..k], x, y0, style, c.height))
    {
      assert text[..k + 1][..k] == text[..k];
      ghost var before := ColumnBrushes(text[..k], x, y0, style, c.height);
      if y0 + i < c.height {
        c.Set(x, y0 + i, text[k], style);
        PaintedSnoc(before, Plain(x, y0 + i, Cell(text[k], style)));
        assert ColumnBrushes(text[..k + 1], x, y0, style, c.height) == before + [Plain(x, y0 + i, Cell(text[k], style))];
      } else {
        assert ColumnBrushes(text[..k + 1], x, y0, style, c.height) == before;
      }
      i := i + Utf8Width(text[k]);
    }
    assert text[..|text|] == text;
  }

  /** The guarded dot write at one sample point. */
  method DrawDot(m: MathLib, c: Canvas, alt: int, az: int, centerAlt: real, centerAz: real, fov: real)
    requires c.Valid()
    modifies c.cells
    ensures c.Shows(DotAt(m, alt, az, centerAlt, centerAz, fov, c.width, c.height))
  {
    var p := Project(m, alt as real, az as real, centerAlt, centerAz, fov, c.width, c.height);
    if p.visible {
      c.SetOver(p.x, p.y, GridDot, GridStyle, [' ']);
    }
  }

  /** The inner loop of the first outer loop of `RenderGrid`: azimuths 0,
      5, ..., 355 on the circle at `alt`. */
  method DrawCircleDots(m: MathLib, c: Canvas, alt: int, centerAlt: real, centerAz: real, fov: real)
    requires c.Valid()
    modifies c.cells
    ensures c.Shows(CircleDots(m, alt, 72, centerAlt, centerAz, fov, c.width, c.height))
  {
    for j := 0 to 72
      invariant c.Shows(CircleDots(m, alt, j, centerAlt, centerAz, fov, c.width, c.height))
    {
      var az := 5 * j;
      ghost var done := CircleDots(m, alt, j, centerAlt, centerAz, fov, c.width, c.height);
      ghost var dot := DotAt(m, alt, az, centerAlt, centerAz, fov, c.width, c.height);
      assert CircleDots(m, alt, j + 1, centerAlt, centerAz, fov, c.width, c.height) == done + dot;
      DrawDot(m, c, alt, az, centerAlt, centerAz, fov);
      forall y, x | 0 <= y < c.height && 0 <= x < c.width
        ensures c.cells[y, x] == Painted(done + dot, x, y, old(c.cells[y, x]))
      {
        PaintedAppend(done, dot, x, y, old(c.cells[y, x]));
      }
    }
  }

  /** One pass of the first outer loop of `RenderGrid`: the dots of the
      circle at `alt`, then its label. */
  method DrawAltitudeCircle(m: MathLib, c: Canvas, alt: int, centerAlt: real, centerAz: real, fov: real)
    requires c.Valid()
    modifies c.cells
    ensures c.Shows(CircleDots(m, alt, 72, centerAlt, centerAz, fov, c.width, c.height)
                    + AltitudeLabel(m, alt, centerAlt, centerAz, fov, c.width, c.height))
  {
    ghost var dots := CircleDots(m, alt, 72, centerAlt, centerAz, fov, c.width, c.height);
    ghost var lb := AltitudeLabel(m, alt, centerAlt, centerAz, fov, c.width, c.height);
    DrawCircleDots(m, c, alt, centerAlt, centerAz, fov);
    var p := Project(m, alt as real, centerAz, centerAlt, centerAz, fov, c.width, c.height);
    if p.visible {
      WriteLabel(c, DegreeLabel(alt), p.x, p.y, GridLabelStyle);
    }
    forall y, x | 0 <= y < c.height && 0 <= x < c.width
      ensures c.cells[y, x] == Painted(dots + lb, x, y, old(c.cells[y, x]))
    {
      PaintedAppend(dots, lb, x, y, old(c.cells[y, x]));
    }
  }

  /** The inner loop of the second outer loop of `RenderGrid`: altitudes
      -90, -85, ..., 90 on the meridian at `az`. */
  method DrawMeridianDots(m: MathLib, c: Canvas, az: int, centerAlt: real, centerAz: real, fov: real)
    requires c.Valid()
    modifies c.cells
    ensures c.Shows(MeridianDots(m, az, 37, centerAlt, centerAz, fov, c.width, c.height))
  {
    for j := 0 to 37
      invariant c.Shows(MeridianDots(m, az, j, centerAlt, centerAz, fov, c.width, c.height))
    {
      var alt := -90 + 5 * j;
      ghost var done := MeridianDots(m, az, j, centerAlt, centerAz, fov, c.width, c.height);
      ghost var dot := DotAt(m, alt, az, centerAlt, centerAz, fov, c.width, c.height);
      assert MeridianDots(m, az, j + 1, centerAlt, centerAz, fov, c.width, c.height) == done + dot;
      DrawDot(m, c, alt, az, centerAlt, centerAz, fov);
      forall y, x | 0 <= y < c.height && 0 <= x < c.width
        ensures c.cells[y, x] == Painted(done + dot, x, y, old(c.cells[y, x]))
      {
        PaintedAppend(done, dot, x, y, old(c.cells[y, x]));
      }
    }
  }

  /** One pass of the second outer loop of `RenderGrid`: the dots of the
      meridian at `az`, then its label. */
  method DrawMeridian(m: MathLib, c: Canvas, az: int, centerAlt: real, centerAz: real, fov: real)
    requires c.Valid()
    modifies c.cells
    ensures c.Shows(MeridianDots(m, az, 37, centerAlt, centerAz, fov, c.width, c.height)
                    + AzimuthLabel(m, az, centerAlt, centerAz, fov, c.width, c.height))
  {
    ghost var dots := MeridianDots(m, az, 37, centerAlt, centerAz, fov, c.width, c.height);
    ghost var lb := AzimuthLabel(m, az, centerAlt, centerAz, fov, c.width, c.height);
    DrawMeridianDots(m, c, az, centerAlt, centerAz, fov);
    var p := Project(m, 0.0, az as real, centerAlt, centerAz, fov, c.width, c.height);
    if p.visible {
      WriteColumnLabel(c, DegreeLabel(az), p.x, p.y, GridLabelStyle);
    }
    forall y, x | 0 <= y < c.height && 0 <= x < c.width
      ensures c.cells[y, x] == Painted(dots + lb, x, y, old(c.cells[y, x]))
    {
      PaintedAppend(dots, lb, x, y, old(c.cells[y, x]));
    }
  }

  /** The altitude circles at -90, -75, ..., 90. */
  method DrawAltitudeCircles(m: MathLib, c: Canvas, centerAlt: real, centerAz: real, fov: real)
    requires c.Valid()
    modifies c.cells
    ensures c.Shows(CirclesBrushes(m, 13, centerAlt, centerAz, fov, c.width, c.height))
  {
    for i := 0 to 13
      invariant c.Shows(CirclesBrushes(m, i, centerAlt, centerAz, fov, c.width, c.height))
    {
      var alt := CircleAltitude(i);
      ghost var done := CirclesBrushes(m, i, centerAlt, centerAz, fov, c.width, c.height);
      ghost var next := CircleDots(m, alt, 72, centerAlt, centerAz, fov, c.width, c.height)
        + AltitudeLabel(m, alt, centerAlt, centerAz, fov, c.width, c.height);
      DrawAltitudeCircle(m, c, alt, centerAlt, centerAz, fov);
      forall y, x | 0 <= y < c.height && 0 <= x < c.width
        ensures c.cells[y, x] == Painted(done + next, x, y, old(c.cells[y, x]))
      {
        PaintedAppend(done, next, x, y, old(c.cells[y, x]));
      }
    }
  }

  /** The meridians at 0, 15, ..., 345. */
  method DrawMeridians(m: MathLib, c: Canvas, centerAlt: real, centerAz: real, fov: real)
    requires c.Valid()
    modifies c.cells
    ensures c.Shows(MeridiansBrushes(m, 24, centerAlt, centerAz, fov, c.width, c.height))
  {
    for i := 0 to 24
      invariant c.Shows(MeridiansBrushes(m, i, centerAlt, centerAz, fov, c.width, c.height))
    {
      var az := MeridianAzimuth(i);
      ghost var done := MeridiansBrushes(m, i, centerAlt, centerAz, fov, c.width, c.height);
      ghost var next := MeridianDots(m, az, 37, centerAlt, centerAz, fov, c.width, c.height)
        + AzimuthLabel(m, az, centerAlt, centerAz, fov, c.width, c.height);
      DrawMeridian(m, c, az, centerAlt, centerAz, fov);
      forall y, x | 0 <= y < c.height && 0 <= x < c.width
        ensures c.cells[y, x] == Painted(done + next, x, y, old(c.cells[y, x]))
      {
        PaintedAppend(done, next, x, y, old(c.cells[y, x]));
      }
    }
  }

  /** One pass of the cardinal loop: the letter of `point`, when its
      horizon azimuth projects onto the canvas. */
  method DrawCardinal(m: MathLib, c: Canvas, point: (int, char), centerAlt: real, centerAz: real, fov: real)
    requires c.Valid()
    modifies c.cells
    ensures c.Shows(CardinalAt(m, point, centerAlt, centerAz, fov, c.width, c.height))
  {
    var p := Project(m, 0.0, point.0 as real, centerAlt, centerAz, fov, c.width, c.height);
    if p.visible {
      c.Set(p.x, p.y, point.1, CardinalStyle);
    }
  }

  /** The cardinal loop, visiting N, E, S, W in that order. */
  method DrawCardinals(m: MathLib, c: Canvas, centerAlt: real, centerAz: real, fov: real)
    requires c.Valid()
    modifies c.cells
    ensures c.Shows(CardinalBrushes(m, 4, centerAlt, centerAz, fov, c.width, c.height))
  {
    for n := 0 to 4
      invariant c.Shows(CardinalBrushes(m, n, centerAlt, centerAz, fov, c.width, c.height))
    {
      ghost var done := CardinalBrushes(m, n, centerAlt, centerAz, fov, c.width, c.height);
      ghost var one := CardinalAt(m, CardinalPoints[n], centerAlt, centerAz, fov, c.width, c.height);
      DrawCardinal(m, c, CardinalPoints[n], centerAlt, centerAz, fov);
      forall y, x | 0 <= y < c.height && 0 <= x < c.width
        ensures c.cells[y, x] == Painted(done + one, x, y, old(c.cells[y, x]))
      {
        PaintedAppend(done, one, x, y, old(c.cells[y, x]));
      }
    }
  }

  /** `RenderGrid(canvas, centerAlt, centerAz, fov)`. */
  method RenderGridLayer(m: MathLib, c: Canvas, centerAlt: real, centerAz: real, fov: real)
    requires c.Valid()
    modifies c.cells
    ensures c.Shows(GridBrushes(m, centerAlt, centerAz, fov, c.width, c.height))
  {
    ghost var circles := CirclesBrushes(m, 13, centerAlt, centerAz, fov, c.width, c.height);
    ghost var meridians := MeridiansBrushes(m, 24, centerAlt, centerAz, fov, c.width, c.height);
    ghost var cardinals := CardinalBrushes(m, 4, centerAlt, centerAz, fov, c.width, c.height);
    DrawAltitudeCircles(m, c, centerAlt, centerAz, fov);
    DrawMeridians(m, c, centerAlt, centerAz, fov);
    forall y, x | 0 <= y < c.height && 0 <= x < c.width
      ensures c.cells[y, x] == Painted(circles + meridians, x, y, old(c.cells[y, x]))
    {
      PaintedAppend(circles, meridians, x, y, old(c.cells[y, x]));
    }
    DrawCardinals(m, c, centerAlt, centerAz, fov);
    forall y, x | 0 <= y < c.height && 0 <= x < c.width
      ensures c.cells[y, x] == Painted((circles + meridians) + cardinals, x, y, old(c.cells[y, x]))
    {
      PaintedAppend(circles + meridians, cardinals, x, y, old(c.cells[y, x]));
    }
  }
}
