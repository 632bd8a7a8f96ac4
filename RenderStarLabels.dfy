/** Names of the brightest stars (internal/render/starlabels.go). */
module RenderStarLabels {
  import opened Wrappers
  import opened GoMath
  import opened Catalog
  import opened RenderCanvas
  import opened RenderStars
  import opened RenderLabels

  /** White, faint. */
  const StarLabelStyle: Style := Style(Some("white"), false, true)

  /** Stars fainter than this are never labelled. */
  const LabelMagnitudeLimit: real := 2.5

  /** The label writes for one star. */
  function StarLabel(m: MathLib, s: Star, centerAlt: real, centerAz: real, fov: real, magLimit: real, w: int, h: int): seq<Brush> {
    if s.magnitude > LabelMagnitudeLimit || s.magnitude > magLimit then []
    else LabelBeside(s.name, Project(m, s.altitude, s.azimuth, centerAlt, centerAz, fov, w, h), StarLabelStyle, w, h)
  }

  /** The writes of `RenderStarLabels`: every star's label, in order. */
  function StarLabelBrushes(m: MathLib, stars: seq<Star>, centerAlt: real, centerAz: real, fov: real, magLimit: real, w: int, h: int): seq<Brush> {
    if stars == [] then []
    else (StarLabelBrushes(m, stars[..|stars| - 1], centerAlt, centerAz, fov, magLimit, w, h)
          + StarLabel(m, stars[|stars| - 1], centerAlt, centerAz, fov, magLimit, w, h))
  }

  /** Only a star of magnitude at most 2.5 and at most the limit, whose
      projection is visible, is labelled; its label is its name, on its row,
      from two columns right of it, clipped to the canvas, overwriting. */
  lemma StarLabelPlacement(m: MathLib, s: Star, centerAlt: real, centerAz: real, fov: real, magLimit: real, w: int, h: int)
    ensures var p := Project(m, s.altitude, s.azimuth, centerAlt, centerAz, fov, w, h);
      StarLabel(m, s, centerAlt, centerAz, fov, magLimit, w, h) != [] ==>
        s.magnitude <= LabelMagnitudeLimit && s.magnitude <= magLimit && p.visible
    ensures var p := Project(m, s.altitude, s.azimuth, centerAlt, centerAz, fov, w, h);
      forall b :: b in StarLabel(m, s, centerAlt, centerAz, fov, magLimit, w, h) ==>
        b.over.None? && b.y == p.y && 0 <= b.y < h && p.x + 2 <= b.x && 0 <= b.x < w
        && b.cell.style == StarLabelStyle && b.cell.ch in s.name
  {
    LabelBesidePlacement(s.name, Project(m, s.altitude, s.azimuth, centerAlt, centerAz, fov, w, h), StarLabelStyle, w, h);
  }

  /** Every write of the layer belongs to the label of some star. */
  lemma {:induction false} StarLabelBrushesFrom(m: MathLib, stars: seq<Star>, centerAlt: real, centerAz: real, fov: real, magLimit: real, w: int, h: int, b: Brush)
    ensures b in StarLabelBrushes(m, stars, centerAlt, centerAz, fov, magLimit, w, h)
      <==> exists k :: 0 <= k < |stars| && b in StarLabel(m, stars[k], centerAlt, centerAz, fov, magLimit, w, h)
    decreases |stars|
  {
    if stars != [] {
      var n := |stars| - 1;
      var pre := StarLabelBrushes(m, stars[..n], centerAlt, centerAz, fov, magLimit, w, h);
      var last := StarLabel(m, stars[n], centerAlt, centerAz, fov, magLimit, w, h);
      assert StarLabelBrushes(m, stars, centerAlt, centerAz, fov, magLimit, w, h) == pre + last;
      StarLabelBrushesFrom(m, stars[..n], centerAlt, centerAz, fov, magLimit, w, h, b);
      if b in pre {
        var k :| 0 <= k < n && b in StarLabel(m, stars[..n][k], centerAlt, centerAz, fov, magLimit, w, h);
        assert stars[..n][k] == stars[k];
      } else if b !in last {
        forall k | 0 <= k < |stars|
          ensures b !in StarLabel(m, stars[k], centerAlt, centerAz, fov, magLimit, w, h)
        {
          if k < n {
            assert stars[..n][k] == stars[k];
          }
        }
      }
    }
  }

  /** One pass of the loop of `RenderStarLabels`. */
  method DrawStarLabel(m: MathLib, c: Canvas, s: Star, centerAlt: real, centerAz: real, fov: real, magLimit: real)
    requires c.Valid()
    modifies c.cells
    ensures c.Shows(StarLabel(m, s, centerAlt, centerAz, fov, magLimit, c.width, c.height))
  {
    if s.magnitude > LabelMagnitudeLimit {
      return;
    }
    if s.magnitude > magLimit {
      return;
    }
    var p := Project(m, s.altitude, s.azimuth, centerAlt, centerAz, fov, c.width, c.height);
    WriteLabelBeside(c, s.name, p, StarLabelStyle);
  }

  /** `RenderStarLabels(canvas, stars, centerAlt, centerAz, fov, magLimit)`. */
  method RenderStarLabels(m: MathLib, c: Canvas, stars: seq<Star>, centerAlt: real, centerAz: real, fov: real, magLimit: real)
    requires c.Valid()
    modifies c.cells
    ensures c.Shows(StarLabelBrushes(m, stars, centerAlt, centerAz, fov, magLimit, c.width, c.height))
  {
    for k := 0 to |stars|
      invariant c.Shows(StarLabelBrushes(m, stars[..k], centerAlt, centerAz, fov, magLimit, c.width, c.height))
    {
      assert stars[..k + 1][..k] == stars[..k];
      ghost var done := StarLabelBrushes(m, stars[..k], centerAlt, centerAz, fov, magLimit, c.width, c.height);
      ghost var next := StarLabel(m, stars[k], centerAlt, centerAz, fov, magLimit, c.width, c.height);
      assert StarLabelBrushes(m, stars[..k + 1], centerAlt, centerAz, fov, magLimit, c.width, c.height) == done + next;
      DrawStarLabel(m, c, stars[k], centerAlt, centerAz, fov, magLimit);
      forall y, x | 0 <= y < c.height && 0 <= x < c.width
        ensures c.cells[y, x] == Painted(done + next, x, y, old(c.cells[y, x]))
      {
        PaintedAppend(done, next, x, y, old(c.cells[y, x]));
      }
    }
    assert stars[..|stars|] == stars;
  }
}
