/** The label placement the star, planet and deep-sky label renderers share
    (internal/render/starlabels.go, planets.go, deepsky.go): the text starts
    two columns right of the marker, on the marker's row, and is written
    with the canvas's label loop. */
module RenderLabels {
  import opened Text
  import opened RenderCanvas
  import opened RenderStars

  /** The writes of a label beside the projection `p`: none when `p` is not
      visible or its row is off the canvas. */
  function LabelBeside(text: string, p: Projection, style: Style, w: int, h: int): seq<Brush> {
    if !p.visible || p.y < 0 || p.y >= h then [] else LabelBrushes(text, p.x + 2, p.y, style, w)
  }

  /** A label beside a marker is written only for a visible marker, on the
      marker's row, from two columns right of it, within the canvas, and
      over whatever is there; an ASCII text that fits takes consecutive
      columns. */
  lemma LabelBesidePlacement(text: string, p: Projection, style: Style, w: int, h: int)
    ensures LabelBeside(text, p, style, w, h) != [] ==> p.visible
    ensures forall b :: b in LabelBeside(text, p, style, w, h) ==>
      b.over.None? && b.y == p.y && 0 <= b.y < h && p.x + 2 <= b.x && 0 <= b.x < w
      && b.cell.style == style && b.cell.ch in text
    ensures p.visible && 0 <= p.y < h && IsAscii(text) && 0 <= p.x + 2 && p.x + 2 + |text| <= w ==>
      LabelBeside(text, p, style, w, h)
      == seq(|text|, k requires 0 <= k < |text| => Plain(p.x + 2 + k, p.y, Cell(text[k], style)))
  {
    if p.visible && 0 <= p.y < h {
      LabelBrushesClipped(text, p.x + 2, p.y, style, w);
      if IsAscii(text) && 0 <= p.x + 2 && p.x + 2 + |text| <= w {
        LabelBrushesAscii(text, p.x + 2, p.y, style, w);
      }
    }
  }

  /** `labelX := x + 2; labelY := y`, the row check, and the label loop. */
  method WriteLabelBeside(c: Canvas, text: string, p: Projection, style: Style)
    requires c.Valid()
    modifies c.cells
    ensures c.Shows(LabelBeside(text, p, style, c.width, c.height))
  {
    if !p.visible {
      return;
    }
    var labelX := p.x + 2;
    var labelY := p.y;
    if labelY < 0 || labelY >= c.height {
      return;
    }
    WriteLabel(c, text, labelX, labelY, style);
  }
}
