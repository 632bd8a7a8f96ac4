/** The Braille canvas (internal/render/braille.go): each character cell
    is a 2 x 4 matrix of dots held as a bit mask, so a canvas of `width` x
    `height` cells has `2 * width` x `4 * height` pixels. `PixelData[y][x]`
    is the array element `pixelData[y, x]`. */
module RenderBraille {
  import opened Wrappers
  import opened GoMath
  import opened Catalog
  import opened RenderCanvas
  import opened RenderStyles

  /** Unicode U+2800, the Braille pattern with no dots raised. */
  const BrailleBase: int := 0x2800

  /** `brailleDots[dotY][dotX]`: the bit of the dot in row `dotY` (0..3)
      and column `dotX` (0..1) of a cell. */
  const BrailleDots: seq<seq<bv8>> := [[1, 8], [2, 16], [4, 32], [64, 128]]

  function DotBit(dotX: int, dotY: int): bv8
    requires 0 <= dotX < 2 && 0 <= dotY < 4
  {
    BrailleDots[dotY][dotX]
  }

  /** The eight dots are eight distinct single bits that together fill the
      mask, so a cell can hold any of the 256 patterns. */
  lemma DotBitsAreTheEightBits()
    ensures forall dx, dy :: 0 <= dx < 2 && 0 <= dy < 4 ==>
      DotBit(dx, dy) != 0 && DotBit(dx, dy) & (DotBit(dx, dy) - 1) == 0
    ensures forall dx, dy, ex, ey :: 0 <= dx < 2 && 0 <= dy < 4 && 0 <= ex < 2 && 0 <= ey < 4 && (dx, dy) != (ex, ey) ==>
      DotBit(dx, dy) & DotBit(ex, ey) == 0
    ensures DotBit(0, 0) | DotBit(1, 0) | DotBit(0, 1) | DotBit(1, 1)
      | DotBit(0, 2) | DotBit(1, 2) | DotBit(0, 3) | DotBit(1, 3) == 255
  {
  }

  /** `rune(brailleBase + int(mask))`. */
  function BrailleChar(mask: bv8): char {
    (BrailleBase + mask as int) as char
  }

  /** Every mask gives a character of the Braille Patterns block
      U+2800..U+28FF, and different masks give different characters. */
  lemma BrailleCharRange(a: bv8, b: bv8)
    ensures 0x2800 <= BrailleChar(a) as int <= 0x28FF
    ensures BrailleChar(a) == BrailleChar(b) ==> a == b
  {
  }

  // --------------------------------------------------------- set pixel

  /** Pixel (`x`, `y`) lies on the canvas and falls in cell (`i`, `j`). */
  predicate Hits(x: int, y: int, i: int, j: int, w: int, h: int) {
    x >= 0 && y >= 0 && x / 2 < w && y / 4 < h && x / 2 == i && y / 4 == j
  }

  /** The mask of cell (`i`, `j`) after `SetPixel(x, y, _)` over `mask`. */
  function MaskAfter(mask: bv8, x: int, y: int, i: int, j: int, w: int, h: int): bv8 {
    if Hits(x, y, i, j, w, h) then mask | DotBit(x % 2, y % 4) else mask
  }

  /** The mask of cell (`i`, `j`) after the pixels `pts`, in order. */
  function MaskPlotted(pts: seq<(int, int)>, i: int, j: int, w: int, h: int, mask: bv8): bv8 {
    if pts == [] then mask
    else MaskAfter(MaskPlotted(pts[..|pts| - 1], i, j, w, h, mask), pts[|pts| - 1].0, pts[|pts| - 1].1, i, j, w, h)
  }

  /** The style of cell (`i`, `j`) after the pixels `pts`, all drawn with
      `style`. */
  function StylePlotted(pts: seq<(int, int)>, i: int, j: int, w: int, h: int, style: Style, s0: Style): Style {
    if pts == [] then s0
    else if Hits(pts[|pts| - 1].0, pts[|pts| - 1].1, i, j, w, h) then style
    else StylePlotted(pts[..|pts| - 1], i, j, w, h, style, s0)
  }

  /** The bits the pixels of `pts` that fall in cell (`i`, `j`) raise. */
  function HitBits(pts: seq<(int, int)>, i: int, j: int, w: int, h: int): bv8 {
    MaskPlotted(pts, i, j, w, h, 0)
  }

  /** Plotting only ORs bits in: the result is the starting mask with the
      bits of the pixels that fall in the cell, and nothing else. */
  lemma {:induction false} MaskPlottedIsUnion(pts: seq<(int, int)>, i: int, j: int, w: int, h: int, mask: bv8)
    ensures MaskPlotted(pts, i, j, w, h, mask) == mask | HitBits(pts, i, j, w, h)
    decreases |pts|
  {
    if pts != [] {
      MaskPlottedIsUnion(pts[..|pts| - 1], i, j, w, h, mask);
      MaskPlottedIsUnion(pts[..|pts| - 1], i, j, w, h, 0);
    }
  }

  /** The bits of two runs of pixels combine by OR. */
  lemma {:induction false} HitBitsAppend(a: seq<(int, int)>, b: seq<(int, int)>, i: int, j: int, w: int, h: int)
    ensures HitBits(a + b, i, j, w, h) == HitBits(a, i, j, w, h) | HitBits(b, i, j, w, h)
    decreases |b|
  {
    if b == [] {
      assert a + b == a;
    } else {
      var b' := b[..|b| - 1];
      assert (a + b)[..|a + b| - 1] == a + b';
      HitBitsAppend(a, b', i, j, w, h);
      MaskPlottedIsUnion([b[|b| - 1]], i, j, w, h, HitBits(a + b', i, j, w, h));
      MaskPlottedIsUnion([b[|b| - 1]], i, j, w, h, HitBits(b', i, j, w, h));
      assert [b[|b| - 1]][..0] == [];
    }
  }

  /** On masks, plotting is insensitive to the order of the pixels and
      plotting the same pixels again changes nothing. */
  lemma PlotOrderAndRepeat(a: seq<(int, int)>, b: seq<(int, int)>, i: int, j: int, w: int, h: int, mask: bv8)
    ensures MaskPlotted(a + b, i, j, w, h, mask) == MaskPlotted(b + a, i, j, w, h, mask)
    ensures MaskPlotted(a + a, i, j, w, h, mask) == MaskPlotted(a, i, j, w, h, mask)
  {
    MaskPlottedIsUnion(a + b, i, j, w, h, mask);
    MaskPlottedIsUnion(b + a, i, j, w, h, mask);
    MaskPlottedIsUnion(a + a, i, j, w, h, mask);
    MaskPlottedIsUnion(a, i, j, w, h, mask);
    HitBitsAppend(a, b, i, j, w, h);
    HitBitsAppend(b, a, i, j, w, h);
    HitBitsAppend(a, a, i, j, w, h);
  }

  /** A pixel off the canvas (negative, or past the last cell) changes no
      cell; one on it raises exactly its own dot in its own cell. */
  lemma MaskAfterEffect(mask: bv8, x: int, y: int, i: int, j: int, w: int, h: int)
    ensures (x < 0 || y < 0 || x / 2 >= w || y / 4 >= h) ==> MaskAfter(mask, x, y, i, j, w, h) == mask
    ensures (i, j) != (x / 2, y / 4) ==> MaskAfter(mask, x, y, i, j, w, h) == mask
    ensures x >= 0 && y >= 0 && x / 2 < w && y / 4 < h && (i, j) == (x / 2, y / 4) ==>
      MaskAfter(mask, x, y, i, j, w, h) == mask | BrailleDots[y % 4][x % 2]
  {
  }

  // ------------------------------------------------------------ clusters

  /** The pixels `RenderStarsBraille` sets for a star of magnitude `mag` at
      pixel (`px`, `py`), in the source's loop order. */
  function ClusterPixels(mag: real, px: int, py: int): (r: seq<(int, int)>)
    ensures mag < 1.0 ==> |r| == 9 && forall a, b :: (a, b) in r <==> px - 1 <= a <= px + 1 && py - 1 <= b <= py + 1
    ensures 1.0 <= mag < 3.0 ==> |r| == 4 && forall a, b :: (a, b) in r <==> px <= a <= px + 1 && py <= b <= py + 1
    ensures mag >= 3.0 ==> r == [(px, py)]
  {
    if mag < 1.0 then
      [(px - 1, py - 1), (px, py - 1), (px + 1, py - 1),
       (px - 1, py), (px, py), (px + 1, py),
       (px - 1, py + 1), (px, py + 1), (px + 1, py + 1)]
    else if mag < 3.0 then
      [(px, py), (px + 1, py), (px, py + 1), (px + 1, py + 1)]
    else [(px, py)]
  }

  /** `projectNormalized`: the source's placeholder, which reports every
      position as not visible. */
  function ProjectNormalized(alt: real, az: real, centerAlt: real, centerAz: real, fov: real): (real, real, bool) {
    (0.0, 0.0, false)
  }

  /** The pixel a normalised position in [-1, 1] maps to on a canvas of
      `w` x `h` cells, with Go's truncating conversion. */
  function PixelOf(nx: real, ny: real, w: int, h: int): (int, int) {
    (Trunc((nx + 1.0) * ((w * 2) as real) / 2.0), Trunc((1.0 - ny) * ((h * 4) as real) / 2.0))
  }

  /** The pixels one star sets, given its normalised projection. */
  function StarPixels(s: Star, nx: real, ny: real, visible: bool, magLimit: real, w: int, h: int): (r: seq<(int, int)>)
    ensures (s.magnitude > magLimit || !visible) ==> r == []
    ensures s.magnitude <= magLimit && visible ==> r == ClusterPixels(s.magnitude, PixelOf(nx, ny, w, h).0, PixelOf(nx, ny, w, h).1)
  {
    if s.magnitude > magLimit || !visible then []
    else
      var (px, py) := PixelOf(nx, ny, w, h);
      ClusterPixels(s.magnitude, px, py)
  }

  class BrailleCanvas {
    const width: int
    const height: int
    const pixelData: array2<bv8>
    const styles: array2<Style>

    ghost predicate Valid() {
      pixelData.Length0 == height && pixelData.Length1 == width
      && styles.Length0 == height && styles.Length1 == width
      && pixelData as object != styles as object
    }

    /** `NewBrailleCanvas(width, height)`: every mask empty, every style
        plain. */
    constructor (w: int, h: int)
      requires w >= 0 && h >= 0
      ensures Valid() && width == w && height == h && fresh(pixelData) && fresh(styles)
      ensures forall y, x :: 0 <= y < h && 0 <= x < w ==> pixelData[y, x] == 0 && styles[y, x] == PlainStyle
    {
      width, height := w, h;
      pixelData := new bv8[h, w];
      styles := new Style[h, w];
      new;
      for y := 0 to h
        invariant forall j, i :: 0 <= j < y && 0 <= i < w ==> pixelData[j, i] == 0 && styles[j, i] == PlainStyle
      {
        for x := 0 to w
          invariant forall j, i :: 0 <= j < y && 0 <= i < w ==> pixelData[j, i] == 0 && styles[j, i] == PlainStyle
          invariant forall i :: 0 <= i < x ==> pixelData[y, i] == 0 && styles[y, i] == PlainStyle
        {
          pixelData[y, x] := 0;
          styles[y, x] := PlainStyle;
        }
      }
    }

    /** `(*BrailleCanvas).SetPixel(x, y, style)`. */
    method SetPixel(x: int, y: int, style: Style)
      requires Valid()
      modifies pixelData, styles
      ensures forall j, i :: 0 <= j < height && 0 <= i < width ==>
        pixelData[j, i] == MaskAfter(old(pixelData[j, i]), x, y, i, j, width, height)
        && styles[j, i] == (if Hits(x, y, i, j, width, height) then style else old(styles[j, i]))
    {
      if x < 0 || y < 0 {
        return;
      }
      var charX := x / 2;
      var charY := y / 4;
      if charX >= width || charY >= height {
        return;
      }
      var dotX := x % 2;
      var dotY := y % 4;
      pixelData[charY, charX] := pixelData[charY, charX] | BrailleDots[dotY][dotX];
      styles[charY, charX] := style;
    }

    /** The canvas holds the pixels `pts` plotted with `style` over its
        contents on entry to the enclosing method. */
    twostate predicate Plots(pts: seq<(int, int)>, style: Style)
      requires Valid()
      reads this, pixelData, styles
    {
      forall j, i :: 0 <= j < height && 0 <= i < width ==>
        pixelData[j, i] == MaskPlotted(pts, i, j, width, height, old(pixelData[j, i]))
        && styles[j, i] == StylePlotted(pts, i, j, width, height, style, old(styles[j, i]))
    }

    /** `SetPixel` on each of `pts` in turn: the nested `dx`/`dy` loops of
        `RenderStarsBraille` walk a cluster's pixels in this order. */
    method PlotPixels(pts: seq<(int, int)>, style: Style)
      requires Valid()
      modifies pixelData, styles
      ensures Plots(pts, style)
    {
      for k := 0 to |pts|
        invariant Plots(pts[..k], style)
      {
        assert pts[..k + 1][..k] == pts[..k];
        SetPixel(pts[k].0, pts[k].1, style);
      }
      assert pts[..|pts|] == pts;
    }

    /** One pass of the loop of `RenderStarsBraille`, given the star's
        normalised projection. */
    method PlotStar(s: Star, nx: real, ny: real, visible: bool, magLimit: real)
      requires Valid()
      modifies pixelData, styles
      ensures Plots(StarPixels(s, nx, ny, visible, magLimit, width, height), Foreground(SpectralColor(s.spectralType)))
    {
      if s.magnitude > magLimit || !visible {
        return;
      }
      var (px, py) := PixelOf(nx, ny, width, height);
      var style := Foreground(SpectralColor(s.spectralType));
      PlotPixels(ClusterPixels(s.magnitude, px, py), style);
    }

    /** `RenderStarsBraille(bc, stars, centerAlt, centerAz, fov, magLimit)`:
        since `projectNormalized` hides every star, nothing changes. */
    method RenderStarsBraille(stars: seq<Star>, centerAlt: real, centerAz: real, fov: real, magLimit: real)
      requires Valid()
      modifies pixelData, styles
      ensures forall j, i :: 0 <= j < height && 0 <= i < width ==>
        pixelData[j, i] == old(pixelData[j, i]) && styles[j, i] == old(styles[j, i])
    {
      for k := 0 to |stars|
        invariant forall j, i :: 0 <= j < height && 0 <= i < width ==>
          pixelData[j, i] == old(pixelData[j, i]) && styles[j, i] == old(styles[j, i])
      {
        if stars[k].magnitude > magLimit {
          continue;
        }
        var (nx, ny, visible) := ProjectNormalized(stars[k].altitude, stars[k].azimuth, centerAlt, centerAz, fov);
        PlotStar(stars[k], nx, ny, visible, magLimit);
      }
    }

    /** `(*BrailleCanvas).Clear()`. */
    method Clear()
      requires Valid()
      modifies pixelData, styles
      ensures forall j, i :: 0 <= j < height && 0 <= i < width ==> pixelData[j, i] == 0 && styles[j, i] == PlainStyle
    {
      for y := 0 to height
        invariant forall j, i :: 0 <= j < y && 0 <= i < width ==> pixelData[j, i] == 0 && styles[j, i] == PlainStyle
      {
        for x := 0 to width
          invariant forall j, i :: 0 <= j < y && 0 <= i < width ==> pixelData[j, i] == 0 && styles[j, i] == PlainStyle
          invariant forall i :: 0 <= i < x ==> pixelData[y, i] == 0 && styles[y, i] == PlainStyle
        {
          pixelData[y, x] := 0;
          styles[y, x] := PlainStyle;
        }
      }
    }

    /** Cell (`x`, `y`) as `Render` emits it. */
    function CellAt(y: int, x: int): Cell
      requires Valid() && 0 <= y < height && 0 <= x < width
      reads this, pixelData, styles
    {
      Cell(BrailleChar(pixelData[y, x]), styles[y, x])
    }

    /** Row `y`'s first `n` cells. */
    function RowPieces(y: int, n: int): (r: seq<Piece>)
      requires Valid() && 0 <= y < height && 0 <= n <= width
      reads this, pixelData, styles
      ensures |r| == n
      ensures forall i :: 0 <= i < n ==> r[i] == Glyph(CellAt(y, i))
    {
      if n == 0 then [] else RowPieces(y, n - 1) + [Glyph(CellAt(y, n - 1))]
    }

    /** The first `n` rows, each followed by a newline except the last of
        the whole canvas. */
    function Rendered(n: int): seq<Piece>
      requires Valid() && 0 <= n <= height
      reads this, pixelData, styles
    {
      if n == 0 then []
      else Rendered(n - 1) + RowPieces(n - 1, width) + (if n - 1 < height - 1 then [Newline] else [])
    }

    /** Everything `Render` emits is a Braille pattern or a newline. */
    lemma {:induction false} RenderedIsBraille(n: int)
      requires Valid() && 0 <= n <= height
      ensures forall p :: p in Rendered(n) ==> p == Newline || (p.Glyph? && 0x2800 <= p.cell.ch as int <= 0x28FF)
    {
      if n > 0 {
        RenderedIsBraille(n - 1);
        var y := n - 1;
        forall i | 0 <= i < width
          ensures 0x2800 <= BrailleChar(pixelData[y, i]) as int <= 0x28FF
        {
          BrailleCharRange(pixelData[y, i], 0);
        }
      }
    }

    /** `(*BrailleCanvas).Render()`. */
    method Render() returns (out: seq<Piece>)
      requires Valid()
      ensures out == Rendered(height)
    {
      out := [];
      for y := 0 to height
        invariant out == Rendered(y)
      {
        ghost var before := out;
        for x := 0 to width
          invariant out == before + RowPieces(y, x)
        {
          var brailleChar := BrailleChar(pixelData[y, x]);
          out := out + [Glyph(Cell(brailleChar, styles[y, x]))];
        }
        if y < height - 1 {
          out := out + [Newline];
        }
      }
    }
  }
}
