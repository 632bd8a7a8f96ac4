/** The Bresenham line of `drawLine` (internal/render/constellations.go). */
module RenderLines {
  import opened Wrappers
  import opened GoMath
  import opened Catalog
  import opened RenderCanvas
  import opened RenderStars

  // --------------------------------------------------------- Bresenham

  /** A segment from (`x1`, `y1`) to (`x2`, `y2`). */
  datatype Segment = Segment(x1: int, y1: int, x2: int, y2: int)

  function Dx(l: Segment): int { Abs(l.x2 - l.x1) }
  function Dy(l: Segment): int { Abs(l.y2 - l.y1) }
  function Sx(l: Segment): int { if l.x1 < l.x2 then 1 else -1 }
  function Sy(l: Segment): int { if l.y1 < l.y2 then 1 else -1 }

  /** `drawLine`'s loop variables `x`, `y` and `err`. */
  datatype Pen = Pen(x: int, y: int, err: int)

  function Start(l: Segment): Pen {
    Pen(l.x1, l.y1, Dx(l) - Dy(l))
  }

  /** One pass of the loop after the plot: the `e2` tests that move `x`
      and `y`. */
  function Step(l: Segment, p: Pen): Pen {
    var p1 := if MovesX(l, p) then Pen(p.x + Sx(l), p.y, p.err - Dy(l)) else p;
    if MovesY(l, p) then Pen(p1.x, p1.y + Sy(l), p1.err + Dx(l)) else p1
  }

  /** Steps taken so far along each axis. */
  function StepsX(l: Segment, p: Pen): int { if l.x1 < l.x2 then p.x - l.x1 else l.x1 - p.x }
  function StepsY(l: Segment, p: Pen): int { if l.y1 < l.y2 then p.y - l.y1 else l.y1 - p.y }

  /** The error term after `i` steps in x and `j` in y: each x step
      subtracts `dy`, each y step adds `dx`. */
  function ErrorAfter(l: Segment, i: nat, j: nat): int {
    if i > 0 then ErrorAfter(l, i - 1, j) - Dy(l)
    else if j > 0 then ErrorAfter(l, 0, j - 1) + Dx(l)
    else Dx(l) - Dy(l)
  }

  lemma {:induction false} ErrorAfterClosed(l: Segment, i: nat, j: nat)
    ensures ErrorAfter(l, i, j) == Dx(l) - Dy(l) - i * Dy(l) + j * Dx(l)
  {
    if i > 0 {
      ErrorAfterClosed(l, i - 1, j);
      MulSucc(i - 1, Dy(l));
    } else if j > 0 {
      ErrorAfterClosed(l, 0, j - 1);
      MulSucc(j - 1, Dx(l));
    }
  }

  /** The Bresenham invariant: neither axis has overshot its target, and
      `err` is the error term of the steps taken. */
  ghost predicate OnTrack(l: Segment, p: Pen) {
    var i, j := StepsX(l, p), StepsY(l, p);
    0 <= i <= Dx(l) && 0 <= j <= Dy(l) && p.err == ErrorAfter(l, i, j)
  }

  function Remaining(l: Segment, p: Pen): int {
    (Dx(l) - StepsX(l, p)) + (Dy(l) - StepsY(l, p))
  }

  lemma StartOnTrack(l: Segment)
    ensures OnTrack(l, Start(l)) && StepsX(l, Start(l)) == 0 && StepsY(l, Start(l)) == 0
  {
  }

  /** Whether a step moves x, and whether it moves y. */
  function MovesX(l: Segment, p: Pen): bool { 2 * p.err > -Dy(l) }
  function MovesY(l: Segment, p: Pen): bool { 2 * p.err < Dx(l) }

  /** On track and away from the target the error term moves an axis
      that has not reached its target, and never one that has. */
  lemma NoOvershoot(l: Segment, p: Pen)
    requires OnTrack(l, p) && !(p.x == l.x2 && p.y == l.y2)
    ensures MovesX(l, p) || MovesY(l, p)
    ensures StepsX(l, p) == Dx(l) ==> !MovesX(l, p)
    ensures StepsY(l, p) == Dy(l) ==> !MovesY(l, p)
  {
    var dx, dy, i, j := Dx(l), Dy(l), StepsX(l, p), StepsY(l, p);
    ErrorAfterClosed(l, i, j);
    if i == dx {
      DoneInX(dx, dy, i, j, p.err);
    }
    if j == dy {
      DoneInY(dx, dy, i, j, p.err);
    }
  }

  /** With every x step taken and some y step left, the error term is at
      most minus `dy`. */
  lemma DoneInX(dx: nat, dy: nat, i: int, j: int, e: int)
    requires i == dx && 0 <= j < dy && e == dx - dy - i * dy + j * dx
    ensures 2 * e + dy <= 0
  {
    MulMonotone(dx, 1 + j, dy);
    MulSucc(j, dx);
  }

  /** With every y step taken and some x step left, the error term is at
      least `dx`. */
  lemma DoneInY(dx: nat, dy: nat, i: int, j: int, e: int)
    requires j == dy && 0 <= i < dx && e == dx - dy - i * dy + j * dx
    ensures 2 * e >= dx
  {
    MulMonotone(dy, 1 + i, dx);
    MulSucc(i, dy);
  }

  /** Away from the target a step keeps the invariant, gets closer, and
      moves each coordinate by at most one toward the target, at least one of
      them. */
  lemma StepOnTrack(l: Segment, p: Pen)
    requires OnTrack(l, p) && !(p.x == l.x2 && p.y == l.y2)
    ensures OnTrack(l, Step(l, p))
    ensures Remaining(l, Step(l, p)) < Remaining(l, p)
    ensures var q := Step(l, p);
      StepsX(l, p) <= StepsX(l, q) <= StepsX(l, p) + 1 && StepsY(l, p) <= StepsY(l, q) <= StepsY(l, p) + 1
      && (q.x != p.x || q.y != p.y)
  {
    NoOvershoot(l, p);
    var i, j := StepsX(l, p), StepsY(l, p);
    var q := Step(l, p);
    assert StepsX(l, q) == if MovesX(l, p) then i + 1 else i;
    assert StepsY(l, q) == if MovesY(l, p) then j + 1 else j;
    if MovesX(l, p) {
      assert ErrorAfter(l, i + 1, j) == ErrorAfter(l, i, j) - Dy(l);
    }
    if MovesY(l, p) {
      ErrorAfterClosed(l, StepsX(l, q), j);
      ErrorAfterClosed(l, StepsX(l, q), j + 1);
      MulSucc(j, Dx(l));
    }
  }

  lemma ConcatAssoc<T>(a: seq<T>, b: seq<T>, c: seq<T>)
    ensures a + (b + c) == (a + b) + c
  {
  }

  lemma MulSucc(a: int, b: int)
    ensures (a + 1) * b == a * b + b
  {
  }

  lemma MulMonotone(a: nat, b: int, c: int)
    requires b <= c
    ensures a * b <= a * c
  {
  }

  /** A pen position inside the canvas. */
  predicate Inside(p: Pen, w: int, h: int) {
    0 <= p.x < w && 0 <= p.y < h
  }

  /** The cells `drawLine` visits from pen `p`: it plots, stops at the
      target, steps, and stops when the step leaves the canvas. */
  ghost function Trace(l: Segment, p: Pen, w: int, h: int): (r: seq<(int, int)>)
    requires OnTrack(l, p)
    ensures |r| >= 1 && r[0] == (p.x, p.y)
    decreases Remaining(l, p)
  {
    if p.x == l.x2 && p.y == l.y2 then [(p.x, p.y)]
    else
      StepOnTrack(l, p);
      var q := Step(l, p);
      [(p.x, p.y)] + (if Inside(q, w, h) then Trace(l, q, w, h) else [])
  }

  lemma TraceAtTarget(l: Segment, p: Pen, w: int, h: int)
    requires OnTrack(l, p) && p.x == l.x2 && p.y == l.y2
    ensures Trace(l, p, w, h) == [(p.x, p.y)]
  {
  }

  lemma TraceStep(l: Segment, p: Pen, w: int, h: int)
    requires OnTrack(l, p) && !(p.x == l.x2 && p.y == l.y2)
    ensures OnTrack(l, Step(l, p))
    ensures Trace(l, p, w, h) == [(p.x, p.y)] + (if Inside(Step(l, p), w, h) then Trace(l, Step(l, p), w, h) else [])
  {
    StepOnTrack(l, p);
  }

  /** The bounding box of the segment's endpoints. */
  predicate InBox(l: Segment, pt: (int, int)) {
    Min(l.x1, l.x2) <= pt.0 <= Max(l.x1, l.x2) && Min(l.y1, l.y2) <= pt.1 <= Max(l.y1, l.y2)
  }

  /** 8-neighbours: distinct cells at most one apart on each axis. */
  predicate Neighbours(a: (int, int), b: (int, int)) {
    a != b && Abs(a.0 - b.0) <= 1 && Abs(a.1 - b.1) <= 1
  }

  lemma OnTrackInBox(l: Segment, p: Pen)
    requires OnTrack(l, p)
    ensures InBox(l, (p.x, p.y))
  {
  }

  /** Every cell of the trace lies in the endpoints' bounding box and on
      the canvas. */
  lemma {:induction false} TraceInBox(l: Segment, p: Pen, w: int, h: int)
    requires OnTrack(l, p) && Inside(p, w, h)
    ensures var t := Trace(l, p, w, h);
      forall k :: 0 <= k < |t| ==> InBox(l, t[k]) && 0 <= t[k].0 < w && 0 <= t[k].1 < h
    decreases Remaining(l, p)
  {
    OnTrackInBox(l, p);
    if !(p.x == l.x2 && p.y == l.y2) {
      StepOnTrack(l, p);
      var q := Step(l, p);
      TraceStep(l, p, w, h);
      if Inside(q, w, h) {
        TraceInBox(l, q, w, h);
        var t, t' := Trace(l, p, w, h), Trace(l, q, w, h);
        forall k | 0 <= k < |t|
          ensures InBox(l, t[k]) && 0 <= t[k].0 < w && 0 <= t[k].1 < h
        {
          if k > 0 {
            assert t[k] == t'[k - 1];
          }
        }
      }
    }
  }

  /** A step away from the target lands on an 8-neighbour. */
  lemma StepNeighbour(l: Segment, p: Pen)
    requires OnTrack(l, p) && !(p.x == l.x2 && p.y == l.y2)
    ensures Neighbours((p.x, p.y), (Step(l, p).x, Step(l, p).y))
  {
    StepOnTrack(l, p);
  }

  /** Each cell of the trace is an 8-neighbour of the one before it. */
  lemma {:induction false} TraceNeighbours(l: Segment, p: Pen, w: int, h: int)
    requires OnTrack(l, p) && Inside(p, w, h)
    ensures var t := Trace(l, p, w, h);
      forall k :: 0 <= k < |t| - 1 ==> Neighbours(t[k], t[k + 1])
    decreases Remaining(l, p)
  {
    if !(p.x == l.x2 && p.y == l.y2) {
      StepOnTrack(l, p);
      var q := Step(l, p);
      StepNeighbour(l, p);
      TraceStep(l, p, w, h);
      if Inside(q, w, h) {
        TraceNeighbours(l, q, w, h);
        var t, t' := Trace(l, p, w, h), Trace(l, q, w, h);
        forall k | 0 <= k < |t| - 1
          ensures Neighbours(t[k], t[k + 1])
        {
          if k > 0 {
            assert t[k] == t'[k - 1] && t[k + 1] == t'[k];
          }
        }
      }
    }
  }

  /** With both endpoints on the canvas the trace is never cut short: it
      ends exactly at the segment's second endpoint. */
  lemma {:induction false} TraceReachesTarget(l: Segment, p: Pen, w: int, h: int)
    requires OnTrack(l, p) && Inside(p, w, h)
    requires 0 <= l.x1 < w && 0 <= l.y1 < h && 0 <= l.x2 < w && 0 <= l.y2 < h
    ensures Trace(l, p, w, h)[|Trace(l, p, w, h)| - 1] == (l.x2, l.y2)
    decreases Remaining(l, p)
  {
    if !(p.x == l.x2 && p.y == l.y2) {
      StepOnTrack(l, p);
      var q := Step(l, p);
      OnTrackInBox(l, q);
      assert Inside(q, w, h);
      TraceReachesTarget(l, q, w, h);
    }
  }

  /** The cells `drawLine` visits for segment `l` on a `w` by `h` canvas. */
  ghost function Path(l: Segment, w: int, h: int): seq<(int, int)>
  {
    StartOnTrack(l);
    Trace(l, Start(l), w, h)
  }

  /** The path of a segment that starts on the canvas starts at (x1, y1),
      stays in the endpoints' bounding box and on the canvas, moves between
      8-neighbours, and, when (x2, y2) is on the canvas too, ends there. */
  lemma PathGeometry(l: Segment, w: int, h: int)
    requires 0 <= l.x1 < w && 0 <= l.y1 < h
    ensures |Path(l, w, h)| >= 1 && Path(l, w, h)[0] == (l.x1, l.y1)
    ensures var t := Path(l, w, h);
      forall k :: 0 <= k < |t| ==> InBox(l, t[k]) && 0 <= t[k].0 < w && 0 <= t[k].1 < h
    ensures var t := Path(l, w, h);
      forall k :: 0 <= k < |t| - 1 ==> Neighbours(t[k], t[k + 1])
    ensures 0 <= l.x2 < w && 0 <= l.y2 < h ==> Path(l, w, h)[|Path(l, w, h)| - 1] == (l.x2, l.y2)
  {
    PathIsTrace(l, w, h);
    PathInBox(l, w, h);
    PathNeighbours(l, w, h);
    if 0 <= l.x2 < w && 0 <= l.y2 < h {
      StartOnTrack(l);
      TraceReachesTarget(l, Start(l), w, h);
    }
  }

  lemma PathIsTrace(l: Segment, w: int, h: int)
    requires 0 <= l.x1 < w && 0 <= l.y1 < h
    ensures OnTrack(l, Start(l)) && Path(l, w, h) == Trace(l, Start(l), w, h)
  {
    StartOnTrack(l);
  }

  lemma PathInBox(l: Segment, w: int, h: int)
    requires 0 <= l.x1 < w && 0 <= l.y1 < h
    ensures var t := Path(l, w, h);
      forall k :: 0 <= k < |t| ==> InBox(l, t[k]) && 0 <= t[k].0 < w && 0 <= t[k].1 < h
  {
    PathIsTrace(l, w, h);
    TraceInBox(l, Start(l), w, h);
  }

  lemma PathNeighbours(l: Segment, w: int, h: int)
    requires 0 <= l.x1 < w && 0 <= l.y1 < h
    ensures var t := Path(l, w, h);
      forall k :: 0 <= k < |t| - 1 ==> Neighbours(t[k], t[k + 1])
  {
    PathIsTrace(l, w, h);
    TraceNeighbours(l, Start(l), w, h);
  }

  /** A cell holding neither a space nor the line glyph survives the line:
      stars and labels drawn earlier are never overwritten. */
  lemma LineKeepsForeignGlyphs(pts: seq<(int, int)>, ch: char, style: Style, x: int, y: int, c: Cell)
    requires c.ch != ' ' && c.ch != ch
    ensures Painted(LineBrushes(pts, ch, style), x, y, c) == c
  {
    LineBrushesAt(pts, ch, style);
    PaintedGuarded(LineBrushes(pts, ch, style), x, y, c);
  }

  /** A cell off the path is unchanged by the line. */
  lemma LineOffPath(pts: seq<(int, int)>, ch: char, style: Style, x: int, y: int, c: Cell)
    requires (x, y) !in pts
    ensures Painted(LineBrushes(pts, ch, style), x, y, c) == c
  {
    var bs := LineBrushes(pts, ch, style);
    LineBrushesAt(pts, ch, style);
    forall k | 0 <= k < |bs|
      ensures bs[k].x != x || bs[k].y != y
    {
      assert pts[k] != (x, y);
    }
    PaintedElsewhere(bs, x, y, c);
  }

  /** A cell on the path that held a space or the line glyph shows the
      line glyph in the line's style. */
  lemma {:induction false} LineOnPath(pts: seq<(int, int)>, ch: char, style: Style, x: int, y: int, c: Cell)
    requires (x, y) in pts && (c.ch == ' ' || c.ch == ch)
    ensures Painted(LineBrushes(pts, ch, style), x, y, c) == Cell(ch, style)
    decreases |pts|
  {
    var pre := pts[..|pts| - 1];
    assert LineBrushes(pts, ch, style) == LineBrushes(pre, ch, style) + [LineBrush(pts[|pts| - 1], ch, style)];
    PaintedSnoc(LineBrushes(pre, ch, style), LineBrush(pts[|pts| - 1], ch, style));
    if (x, y) in pre {
      LineOnPath(pre, ch, style, x, y, c);
    } else {
      LineOffPath(pre, ch, style, x, y, c);
      assert pts == pre + [pts[|pts| - 1]];
    }
  }

  /** What `drawLine` writes at a visited cell: the line glyph, only over
      a blank cell or one already holding the glyph. */
  function LineBrush(pt: (int, int), ch: char, style: Style): Brush {
    Brush(pt.0, pt.1, Cell(ch, style), Some([' ', ch]))
  }

  function LineBrushes(pts: seq<(int, int)>, ch: char, style: Style): seq<Brush> {
    if pts == [] then [] else LineBrushes(pts[..|pts| - 1], ch, style) + [LineBrush(pts[|pts| - 1], ch, style)]
  }

  /** One guarded brush per path cell, in path order. */
  lemma {:induction false} LineBrushesAt(pts: seq<(int, int)>, ch: char, style: Style)
    ensures var r := LineBrushes(pts, ch, style);
      |r| == |pts| && forall k :: 0 <= k < |pts| ==> r[k] == LineBrush(pts[k], ch, style)
    decreases |pts|
  {
    if pts != [] {
      LineBrushesAt(pts[..|pts| - 1], ch, style);
    }
  }

  /** The writes of `drawLine` from pen `p` on: `LineBrushes` of the
      trace, built along it. */
  ghost function TraceBrushes(l: Segment, p: Pen, w: int, h: int, ch: char, style: Style): seq<Brush>
    requires OnTrack(l, p)
    decreases Remaining(l, p)
  {
    if p.x == l.x2 && p.y == l.y2 then [LineBrush((p.x, p.y), ch, style)]
    else
      StepOnTrack(l, p);
      var q := Step(l, p);
      [LineBrush((p.x, p.y), ch, style)] + (if Inside(q, w, h) then TraceBrushes(l, q, w, h, ch, style) else [])
  }

  lemma {:induction false} TraceBrushesAlongTrace(l: Segment, p: Pen, w: int, h: int, ch: char, style: Style)
    requires OnTrack(l, p)
    ensures TraceBrushes(l, p, w, h, ch, style) == LineBrushes(Trace(l, p, w, h), ch, style)
    decreases Remaining(l, p)
  {
    if !(p.x == l.x2 && p.y == l.y2) {
      StepOnTrack(l, p);
      var q := Step(l, p);
      if Inside(q, w, h) {
        TraceBrushesAlongTrace(l, q, w, h, ch, style);
        LineBrushesAt(Trace(l, p, w, h), ch, style);
        LineBrushesAt(Trace(l, q, w, h), ch, style);
      }
    }
  }

  lemma TraceBrushesAtTarget(l: Segment, p: Pen, w: int, h: int, ch: char, style: Style)
    requires OnTrack(l, p) && p.x == l.x2 && p.y == l.y2
    ensures TraceBrushes(l, p, w, h, ch, style) == [LineBrush((p.x, p.y), ch, style)]
  {
  }

  lemma TraceBrushesStep(l: Segment, p: Pen, w: int, h: int, ch: char, style: Style)
    requires OnTrack(l, p) && !(p.x == l.x2 && p.y == l.y2)
    ensures OnTrack(l, Step(l, p))
    ensures TraceBrushes(l, p, w, h, ch, style) == [LineBrush((p.x, p.y), ch, style)]
      + (if Inside(Step(l, p), w, h) then TraceBrushes(l, Step(l, p), w, h, ch, style) else [])
  {
    StepOnTrack(l, p);
  }

  /** The `e2` block of `drawLine`'s loop. */
  method Advance(ghost l: Segment, x: int, y: int, err: int, dx: int, dy: int, sx: int, sy: int)
    returns (x': int, y': int, err': int)
    requires dx == Dx(l) && dy == Dy(l) && sx == Sx(l) && sy == Sy(l)
    ensures Pen(x', y', err') == Step(l, Pen(x, y, err))
  {
    x', y', err' := x, y, err;
    var e2 := 2 * err';
    if e2 > -dy {
      err' := err' - dy;
      x' := x' + sx;
    }
    if e2 < dx {
      err' := err' + dx;
      y' := y' + sy;
    }
  }

  /** `drawLine(canvas, x1, y1, x2, y2, char, style)`; the first cell is
      read unguarded, so the start must lie on the canvas. */
  method DrawLine(c: Canvas, x1: int, y1: int, x2: int, y2: int, ch: char, style: Style)
    requires c.Valid() && c.InBounds(x1, y1)
    modifies c.cells
    ensures c.Shows(LineBrushes(Path(Segment(x1, y1, x2, y2), c.width, c.height), ch, style))
  {
    ghost var l := Segment(x1, y1, x2, y2);
    var dx: int := Abs(x2 - x1);
    var dy: int := Abs(y2 - y1);
    var sx := -1;
    if x1 < x2 {
      sx := 1;
    }
    var sy := -1;
    if y1 < y2 {
      sy := 1;
    }
    var err := dx - dy;
    var x, y := x1, y1;
    StartOnTrack(l);
    ghost var full := LineBrushes(Path(l, c.width, c.height), ch, style);
    TraceBrushesAlongTrace(l, Start(l), c.width, c.height, ch, style);
    assert TraceBrushes(l, Start(l), c.width, c.height, ch, style) == full;
    ghost var done: seq<Brush> := [];
    while true
      invariant dx == Dx(l) && dy == Dy(l) && sx == Sx(l) && sy == Sy(l)
      invariant OnTrack(l, Pen(x, y, err)) && Inside(Pen(x, y, err), c.width, c.height)
      invariant done + TraceBrushes(l, Pen(x, y, err), c.width, c.height, ch, style) == full
      invariant c.Shows(done)
      decreases Remaining(l, Pen(x, y, err))
    {
      ghost var pen := Pen(x, y, err);
      ghost var b := LineBrush((x, y), ch, style);
      c.SetOver(x, y, ch, style, [' ', ch]);
      PaintedSnoc(done, b);
      ghost var prior := done;
      done := done + [b];
      if x == x2 && y == y2 {
        TraceBrushesAtTarget(l, pen, c.width, c.height, ch, style);
        break;
      }
      StepOnTrack(l, pen);
      x, y, err := Advance(l, x, y, err, dx, dy, sx, sy);
      TraceBrushesStep(l, pen, c.width, c.height, ch, style);
      if x < 0 || x >= c.width || y < 0 || y >= c.height {
        break;
      }
      ConcatAssoc(prior, [b], TraceBrushes(l, Pen(x, y, err), c.width, c.height, ch, style));
    }
    assert done == full;
  }
}
