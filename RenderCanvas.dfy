/** The character canvas the sky is painted on (internal/render/canvas.go).
    `Cells[y][x]` is the array element `cells[y, x]`. A lipgloss style is
    recorded as the attributes the renderers set on it. */
module RenderCanvas {
  import opened Wrappers
  import opened Text

  /** `lipgloss.NewStyle()` with the `Foreground`, `Bold` and `Faint`
      settings the renderers use; colours are lipgloss colour strings. */
  datatype Style = Style(foreground: Option<string>, bold: bool, faint: bool)

  /** `lipgloss.NewStyle()`. */
  const PlainStyle: Style := Style(None, false, false)

  function Foreground(color: string): Style {
    PlainStyle.(foreground := Some(color))
  }

  datatype Cell = Cell(ch: char, style: Style)

  /** The cell `NewCanvas` and `Clear` write. */
  const BlankCell: Cell := Cell(' ', PlainStyle)

  // ------------------------------------------------------------ brushes

  /** One write a renderer performs at (`x`, `y`): unconditional when `over`
      is `None` (a plain `Set`), otherwise only when the cell's current
      character is among `over` (the renderer inspects the cell first). */
  datatype Brush = Brush(x: int, y: int, cell: Cell, over: Option<seq<char>>)

  function Plain(x: int, y: int, cell: Cell): Brush {
    Brush(x, y, cell, None)
  }

  /** The cell at (`x`, `y`) after brush `b`, given that it held `c`. */
  function Apply(b: Brush, x: int, y: int, c: Cell): (r: Cell)
    ensures r == c || r == b.cell
    ensures (b.x != x || b.y != y) ==> r == c
    ensures b.x == x && b.y == y && b.over.None? ==> r == b.cell
  {
    if b.x == x && b.y == y && (b.over.None? || c.ch in b.over.value) then b.cell else c
  }

  /** The cell at (`x`, `y`) after the brushes `bs`, in order, over `c`. */
  function Painted(bs: seq<Brush>, x: int, y: int, c: Cell): Cell {
    if bs == [] then c else Apply(bs[|bs| - 1], x, y, Painted(bs[..|bs| - 1], x, y, c))
  }

  /** One more brush applies on top of the ones before it. */
  lemma PaintedSnoc(bs: seq<Brush>, b: Brush)
    ensures forall x, y, c :: Painted(bs + [b], x, y, c) == Apply(b, x, y, Painted(bs, x, y, c))
  {
    assert (bs + [b])[..|bs|] == bs;
  }

  /** Painting `a` then `b` is painting `a + b`. */
  lemma {:induction false} PaintedAppend(a: seq<Brush>, b: seq<Brush>, x: int, y: int, c: Cell)
    ensures Painted(a + b, x, y, c) == Painted(b, x, y, Painted(a, x, y, c))
    decreases |b|
  {
    if b == [] {
      assert a + b == a;
    } else {
      var b' := b[..|b| - 1];
      assert a + b == (a + b') + [b[|b| - 1]];
      assert b == b' + [b[|b| - 1]];
      PaintedSnoc(a + b', b[|b| - 1]);
      PaintedSnoc(b', b[|b| - 1]);
      PaintedAppend(a, b', x, y, c);
    }
  }

  /** A cell no brush targets keeps its contents. */
  lemma {:induction false} PaintedElsewhere(bs: seq<Brush>, x: int, y: int, c: Cell)
    requires forall k :: 0 <= k < |bs| ==> bs[k].x != x || bs[k].y != y
    ensures Painted(bs, x, y, c) == c
    decreases |bs|
  {
    if bs != [] {
      PaintedElsewhere(bs[..|bs| - 1], x, y, c);
    }
  }

  /** When the last brush at a cell is unconditional, the cell shows it,
      whatever came before. */
  lemma {:induction false} PaintedLastWins(bs: seq<Brush>, k: nat, c: Cell)
    requires k < |bs| && bs[k].over.None?
    requires forall j :: k < j < |bs| ==> bs[j].x != bs[k].x || bs[j].y != bs[k].y
    ensures Painted(bs, bs[k].x, bs[k].y, c) == bs[k].cell
    decreases |bs|
  {
    if k < |bs| - 1 {
      PaintedLastWins(bs[..|bs| - 1], k, c);
    }
  }

  /** A cell holding a character outside every conditional brush's `over`
      list is changed only by unconditional brushes: a guarded layer never
      overwrites a foreign glyph. */
  lemma {:induction false} PaintedGuarded(bs: seq<Brush>, x: int, y: int, c: Cell)
    requires forall k :: 0 <= k < |bs| ==> bs[k].over.Some? && c.ch !in bs[k].over.value
    ensures Painted(bs, x, y, c) == c
    decreases |bs|
  {
    if bs != [] {
      PaintedGuarded(bs[..|bs| - 1], x, y, c);
    }
  }

  /** What `Render` emits for a cell, and the row separator. The escape
      sequences lipgloss wraps around a cell are not modelled. */
  datatype Piece = Glyph(cell: Cell) | Newline

  // -------------------------------------------------------------- canvas

  class Canvas {
    const width: int
    const height: int
    const cells: array2<Cell>

    ghost predicate Valid() {
      cells.Length0 == height && cells.Length1 == width
    }

    predicate InBounds(x: int, y: int) {
      0 <= x < width && 0 <= y < height
    }

    /** `NewCanvas(width, height)`: `height` rows of `width` blank cells. */
    constructor (w: int, h: int)
      requires w >= 0 && h >= 0
      ensures Valid() && width == w && height == h && fresh(cells)
      ensures forall y, x :: 0 <= y < h && 0 <= x < w ==> cells[y, x] == BlankCell
    {
      width, height := w, h;
      cells := new Cell[h, w];
      new;
      for y := 0 to h
        invariant forall j, i :: 0 <= j < y && 0 <= i < w ==> cells[j, i] == BlankCell
      {
        for x := 0 to w
          invariant forall j, i :: 0 <= j < y && 0 <= i < w ==> cells[j, i] == BlankCell
          invariant forall i :: 0 <= i < x ==> cells[y, i] == BlankCell
        {
          cells[y, x] := BlankCell;
        }
      }
    }

    /** `(*Canvas).Clear()`: every cell blank again, size unchanged. */
    method Clear()
      requires Valid()
      modifies cells
      ensures forall y, x :: 0 <= y < height && 0 <= x < width ==> cells[y, x] == BlankCell
    {
      for y := 0 to height
        invariant forall j, i :: 0 <= j < y && 0 <= i < width ==> cells[j, i] == BlankCell
      {
        for x := 0 to width
          invariant forall j, i :: 0 <= j < y && 0 <= i < width ==> cells[j, i] == BlankCell
          invariant forall i :: 0 <= i < x ==> cells[y, i] == BlankCell
        {
          cells[y, x] := BlankCell;
        }
      }
    }

    /** `(*Canvas).Set(x, y, char, style)`: inside the canvas exactly
        `Cells[y][x]` changes; outside it nothing does. */
    method Set(x: int, y: int, ch: char, style: Style)
      requires Valid()
      modifies cells
      ensures forall j, i :: 0 <= j < height && 0 <= i < width ==>
        cells[j, i] == (if i == x && j == y then Cell(ch, style) else old(cells[j, i]))
      ensures !InBounds(x, y) ==> forall j, i :: 0 <= j < height && 0 <= i < width ==>
        cells[j, i] == old(cells[j, i])
    {
      if x >= 0 && x < width && y >= 0 && y < height {
        cells[y, x] := Cell(ch, style);
      }
    }

    /** The guarded write of `drawLine` and `RenderGrid`: read
        `Cells[y][x]` and `Set` it only if its character is among `over`. */
    method SetOver(x: int, y: int, ch: char, style: Style, over: seq<char>)
      requires Valid() && InBounds(x, y)
      modifies cells
      ensures forall j, i :: 0 <= j < height && 0 <= i < width ==>
        cells[j, i] == Apply(Brush(x, y, Cell(ch, style), Some(over)), i, j, old(cells[j, i]))
    {
      var cell := cells[y, x];
      if cell.ch in over {
        Set(x, y, ch, style);
      }
    }

    /** The canvas shows the brushes `bs` painted over its contents on entry
        to the enclosing method. */
    twostate predicate Shows(bs: seq<Brush>)
      requires Valid()
      reads this, cells
    {
      forall j, i :: 0 <= j < height && 0 <= i < width ==> cells[j, i] == Painted(bs, i, j, old(cells[j, i]))
    }

    /** Row `y`'s first `n` cells, as `Render` emits them. */
    function RowPieces(y: int, n: int): (r: seq<Piece>)
      requires Valid() && 0 <= y < height && 0 <= n <= width
      reads this, cells
      ensures |r| == n
      ensures forall i :: 0 <= i < n ==> r[i] == Glyph(cells[y, i])
    {
      if n == 0 then [] else RowPieces(y, n - 1) + [Glyph(cells[y, n - 1])]
    }

    /** The first `n` rows, each followed by a newline except the last of
        the whole canvas. */
    function Rendered(n: int): seq<Piece>
      requires Valid() && 0 <= n <= height
      reads this, cells
    {
      if n == 0 then []
      else Rendered(n - 1) + RowPieces(n - 1, width) + (if n - 1 < height - 1 then [Newline] else [])
    }

    /** `(*Canvas).Render()`. */
    method Render() returns (out: seq<Piece>)
      requires Valid()
      ensures out == Rendered(height)
    {
      out := [];
      for y := 0 to height
        invariant out == Rendered(y)
      {
        ghost var before := out;
        for x := 0 to width
          invariant out == before + RowPieces(y, x)
        {
          out := out + [Glyph(cells[y, x])];
        }
        if y < height - 1 {
          out := out + [Newline];
        }
      }
    }

    /** Where row `y` starts in `Render`'s output: after `y` rows of
        `width` glyphs and a newline each. */
    function RowStart(y: nat): nat
      requires width >= 0
    {
      if y == 0 then 0 else RowStart(y - 1) + width + 1
    }

    lemma {:induction false} RowStartIsProduct(y: nat)
      requires width >= 0
      ensures RowStart(y) == y * (width + 1)
    {
      if y > 0 {
        RowStartIsProduct(y - 1);
        assert y * (width + 1) == (y - 1) * (width + 1) + width + 1;
      }
    }

    lemma {:induction false} RowStartsIncrease(y: nat, n: nat)
      requires width >= 0 && y < n
      ensures RowStart(y) + width + 1 <= RowStart(n)
      decreases n
    {
      if y < n - 1 {
        RowStartsIncrease(y, n - 1);
      }
    }

    /** `Render`'s output is `width` glyphs per row plus one newline
        between consecutive rows: none after the last. */
    lemma {:induction false} RenderedLength(n: int)
      requires Valid() && 0 <= n <= height
      ensures |Rendered(n)| == RowStart(n) - (if n == height && n > 0 then 1 else 0)
    {
      if n > 0 {
        RenderedLength(n - 1);
      }
    }

    /** Cell (`x`, `y`) is emitted at `RowStart(y) + x`: row-major order. */
    lemma {:induction false} RenderedGlyph(n: int, y: nat, x: int)
      requires Valid() && 0 <= n <= height && y < n && 0 <= x < width
      ensures RowStart(y) + x < |Rendered(n)| && Rendered(n)[RowStart(y) + x] == Glyph(cells[y, x])
      decreases n
    {
      RenderedLength(n);
      RenderedLength(n - 1);
      if y < n - 1 {
        RowStartsIncrease(y, n - 1);
        RenderedGlyph(n - 1, y, x);
        assert Rendered(n)[RowStart(y) + x] == Rendered(n - 1)[RowStart(y) + x];
      } else {
        assert Rendered(n)[RowStart(y) + x] == RowPieces(n - 1, width)[x];
      }
    }

    /** Every row but the last is followed by a newline. */
    lemma {:induction false} RenderedNewline(n: int, y: nat)
      requires Valid() && 0 <= n <= height && y < n && y < height - 1
      ensures RowStart(y) + width < |Rendered(n)| && Rendered(n)[RowStart(y) + width] == Newline
      decreases n
    {
      RenderedLength(n);
      RenderedLength(n - 1);
      if y < n - 1 {
        RowStartsIncrease(y, n - 1);
        RenderedNewline(n - 1, y);
        assert Rendered(n)[RowStart(y) + width] == Rendered(n - 1)[RowStart(y) + width];
      }
    }
  }

  // --------------------------------------------------------------- labels

  /** The writes of the label loop the renderers share: character `k` of
      `text` goes to column `x0` plus its byte offset (Go's `range` over a
      string yields byte offsets), on row `y`, and columns outside
      [0, `w`) are skipped. */
  function LabelBrushes(text: string, x0: int, y: int, style: Style, w: int): seq<Brush> {
    if text == [] then []
    else
      var k := |text| - 1;
      var xPos := x0 + Utf8Len(text[..k]);
      LabelBrushes(text[..k], x0, y, style, w)
      + (if 0 <= xPos < w then [Plain(xPos, y, Cell(text[k], style))] else [])
  }

  /** Label writes are unconditional, stay on row `y` within [0, `w`), and
      put only characters of the text at or right of `x0`. */
  lemma {:induction false} LabelBrushesClipped(text: string, x0: int, y: int, style: Style, w: int)
    ensures forall b :: b in LabelBrushes(text, x0, y, style, w) ==>
      b.over.None? && b.y == y && 0 <= b.x < w && x0 <= b.x && b.cell.style == style && b.cell.ch in text
    decreases |text|
  {
    if text != [] {
      LabelBrushesClipped(text[..|text| - 1], x0, y, style, w);
    }
  }

  /** An ASCII label that fits puts character `k` at column `x0 + k`. */
  lemma {:induction false} LabelBrushesAscii(text: string, x0: int, y: int, style: Style, w: int)
    requires IsAscii(text) && 0 <= x0 && x0 + |text| <= w
    ensures LabelBrushes(text, x0, y, style, w) == seq(|text|, k requires 0 <= k < |text| => Plain(x0 + k, y, Cell(text[k], style)))
    decreases |text|
  {
    if text != [] {
      var k := |text| - 1;
      assert IsAscii(text[..k]);
      LabelBrushesAscii(text[..k], x0, y, style, w);
      Utf8LenAscii(text[..k]);
    }
  }

  /** The label loop: `for i, ch := range text`, writing where
      `0 <= x0+i < Width`. */
  method WriteLabel(c: Canvas, text: string, x0: int, y: int, style: Style)
    requires c.Valid()
    modifies c.cells
    ensures c.Shows(LabelBrushes(text, x0, y, style, c.width))
  {
    var i := 0;
    for k := 0 to |text|
      invariant i == Utf8Len(text[..k])
      invariant c.Shows(LabelBrushes(text[..k], x0, y, style, c.width))
    {
      assert text[..k + 1][..k] == text[..k];
      ghost var before := LabelBrushes(text[..k], x0, y, style, c.width);
      var xPos := x0 + i;
      if xPos >= 0 && xPos < c.width {
        c.Set(xPos, y, text[k], style);
        PaintedSnoc(before, Plain(xPos, y, Cell(text[k], style)));
        assert LabelBrushes(text[..k + 1], x0, y, style, c.width) == before + [Plain(xPos, y, Cell(text[k], style))];
      } else {
        assert LabelBrushes(text[..k + 1], x0, y, style, c.width) == before;
      }
      i := i + Utf8Width(text[k]);
    }
    assert text[..|text|] == text;
  }
}
