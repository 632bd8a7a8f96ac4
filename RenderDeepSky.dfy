/** Messier objects on the canvas (internal/render/deepsky.go). */
module RenderDeepSky {
  import opened Wrappers
  import opened GoMath
  import opened Text
  import opened Catalog
  import opened RenderCanvas
  import opened RenderStars
  import opened RenderLabels

  /** The renderer's `typeStyles` table, with the default for any other
      type: a symbol and a colour. */
  function TypeGlyph(kind: string): (char, string) {
    if kind == "Galaxy" then ('◈', "141")
    else if kind == "Nebula" then ('◇', "213")
    else if kind == "Supernova Remnant" then ('✸', "196")
    else if kind == "Globular Cluster" then ('◉', "220")
    else if kind == "Open Cluster" then ('◌', "117")
    else if kind == "Planetary Nebula" then ('◎', "48")
    else ('◆', "245")
  }

  /** The object types the table names. */
  const KnownTypes: seq<string> := ["Galaxy", "Nebula", "Supernova Remnant", "Globular Cluster", "Open Cluster", "Planetary Nebula"]

  /** Magenta, faint. */
  const DeepSkyLabelStyle: Style := Style(Some("magenta"), false, true)

  /** Deep-sky objects are drawn down to three magnitudes fainter than the
      star limit. */
  function DeepSkyLimit(magLimit: real): real {
    magLimit + 3.0
  }

  /** Each named type has a symbol of its own, none of them the default
      diamond; any other type string gets the grey diamond. */
  lemma TypeGlyphTable(kind: string)
    ensures forall j, k :: 0 <= j < k < |KnownTypes| ==> TypeGlyph(KnownTypes[j]).0 != TypeGlyph(KnownTypes[k]).0
    ensures forall k :: 0 <= k < |KnownTypes| ==> TypeGlyph(KnownTypes[k]).0 != '◆'
    ensures kind !in KnownTypes ==> TypeGlyph(kind) == ('◆', "245")
  {
    assert TypeGlyph(KnownTypes[0]).0 == '◈';
    assert TypeGlyph(KnownTypes[1]).0 == '◇';
    assert TypeGlyph(KnownTypes[2]).0 == '✸';
    assert TypeGlyph(KnownTypes[3]).0 == '◉';
    assert TypeGlyph(KnownTypes[4]).0 == '◌';
    assert TypeGlyph(KnownTypes[5]).0 == '◎';
  }

  // ------------------------------------------------------------ symbols

  /** The write of one object's symbol. */
  function DeepSkyMarker(m: MathLib, d: MessierObject, centerAlt: real, centerAz: real, fov: real, magLimit: real, w: int, h: int): seq<Brush> {
    var q := Project(m, d.altitude, d.azimuth, centerAlt, centerAz, fov, w, h);
    if d.magnitude > DeepSkyLimit(magLimit) || !q.visible then []
    else [Plain(q.x, q.y, Cell(TypeGlyph(d.kind).0, Foreground(TypeGlyph(d.kind).1)))]
  }

  /** The writes of `RenderDeepSkyObjects`: every object's symbol, in order. */
  function DeepSkyMarkers(m: MathLib, objects: seq<MessierObject>, centerAlt: real, centerAz: real, fov: real, magLimit: real, w: int, h: int): seq<Brush> {
    if objects == [] then []
    else (DeepSkyMarkers(m, objects[..|objects| - 1], centerAlt, centerAz, fov, magLimit, w, h)
          + DeepSkyMarker(m, objects[|objects| - 1], centerAlt, centerAz, fov, magLimit, w, h))
  }

  /** An object is drawn exactly when it is no fainter than the limit plus
      three and visible: one write of its type's symbol in the type's colour
      (foreground only), at its projection, over whatever is there. */
  lemma DeepSkyMarkerPlacement(m: MathLib, d: MessierObject, centerAlt: real, centerAz: real, fov: real, magLimit: real, w: int, h: int)
    ensures var q := Project(m, d.altitude, d.azimuth, centerAlt, centerAz, fov, w, h);
      DeepSkyMarker(m, d, centerAlt, centerAz, fov, magLimit, w, h) != [] <==> d.magnitude <= magLimit + 3.0 && q.visible
    ensures var q := Project(m, d.altitude, d.azimuth, centerAlt, centerAz, fov, w, h);
      d.magnitude <= magLimit + 3.0 && q.visible ==>
        DeepSkyMarker(m, d, centerAlt, centerAz, fov, magLimit, w, h)
          == [Plain(q.x, q.y, Cell(TypeGlyph(d.kind).0, Style(Some(TypeGlyph(d.kind).1), false, false)))]
        && 0 <= q.x < w && 0 <= q.y < h
  {
  }

  /** Object `d` puts its symbol on (`x`, `y`). */
  predicate MarksAt(m: MathLib, d: MessierObject, centerAlt: real, centerAz: real, fov: real, magLimit: real, w: int, h: int, x: int, y: int) {
    var q := Project(m, d.altitude, d.azimuth, centerAlt, centerAz, fov, w, h);
    d.magnitude <= DeepSkyLimit(magLimit) && q.visible && q.x == x && q.y == y
  }

  /** Where objects overlap, the last one in the list that marks the cell
      shows, whatever the cell held. */
  lemma {:induction false} DeepSkyMarkersLastWins(m: MathLib, objects: seq<MessierObject>, centerAlt: real, centerAz: real, fov: real, magLimit: real, w: int, h: int, k: nat, c: Cell)
    requires k < |objects|
    requires var q := Project(m, objects[k].altitude, objects[k].azimuth, centerAlt, centerAz, fov, w, h);
      objects[k].magnitude <= magLimit + 3.0 && q.visible
      && forall j :: k < j < |objects| ==> !MarksAt(m, objects[j], centerAlt, centerAz, fov, magLimit, w, h, q.x, q.y)
    ensures var q := Project(m, objects[k].altitude, objects[k].azimuth, centerAlt, centerAz, fov, w, h);
      var g := TypeGlyph(objects[k].kind);
      Painted(DeepSkyMarkers(m, objects, centerAlt, centerAz, fov, magLimit, w, h), q.x, q.y, c) == Cell(g.0, Foreground(g.1))
    decreases |objects|
  {
    var q := Project(m, objects[k].altitude, objects[k].azimuth, centerAlt, centerAz, fov, w, h);
    var n := |objects| - 1;
    var pre := DeepSkyMarkers(m, objects[..n], centerAlt, centerAz, fov, magLimit, w, h);
    var last := DeepSkyMarker(m, objects[n], centerAlt, centerAz, fov, magLimit, w, h);
    PaintedAppend(pre, last, q.x, q.y, c);
    if k == n {
      assert last[..0] == [];
    } else {
      assert objects[..n][k] == objects[k];
      forall j | k < j < n
        ensures !MarksAt(m, objects[..n][j], centerAlt, centerAz, fov, magLimit, w, h, q.x, q.y)
      {
        assert objects[..n][j] == objects[j];
      }
      DeepSkyMarkersLastWins(m, objects[..n], centerAlt, centerAz, fov, magLimit, w, h, k, c);
      assert !MarksAt(m, objects[n], centerAlt, centerAz, fov, magLimit, w, h, q.x, q.y);
      if last != [] {
        assert last[..0] == [];
      }
    }
  }

  /** One pass of the loop of `RenderDeepSkyObjects`. */
  method DrawDeepSkyObject(m: MathLib, c: Canvas, d: MessierObject, centerAlt: real, centerAz: real, fov: real, magLimit: real)
    requires c.Valid()
    modifies c.cells
    ensures c.Shows(DeepSkyMarker(m, d, centerAlt, centerAz, fov, magLimit, c.width, c.height))
  {
    if d.magnitude > magLimit + 3.0 {
      return;
    }
    var q := Project(m, d.altitude, d.azimuth, centerAlt, centerAz, fov, c.width, c.height);
    if !q.visible {
      return;
    }
    var style := TypeGlyph(d.kind);
    c.Set(q.x, q.y, style.0, Foreground(style.1));
    assert [Plain(q.x, q.y, Cell(style.0, Foreground(style.1)))][..0] == [];
  }

  /** `RenderDeepSkyObjects(canvas, objects, centerAlt, centerAz, fov, magLimit)`. */
  method RenderDeepSkyObjects(m: MathLib, c: Canvas, objects: seq<MessierObject>, centerAlt: real, centerAz: real, fov: real, magLimit: real)
    requires c.Valid()
    modifies c.cells
    ensures c.Shows(DeepSkyMarkers(m, objects, centerAlt, centerAz, fov, magLimit, c.width, c.height))
  {
    for k := 0 to |objects|
      invariant c.Shows(DeepSkyMarkers(m, objects[..k], centerAlt, centerAz, fov, magLimit, c.width, c.height))
    {
      assert objects[..k + 1][..k] == objects[..k];
      ghost var done := DeepSkyMarkers(m, objects[..k], centerAlt, centerAz, fov, magLimit, c.width, c.height);
      ghost var next := DeepSkyMarker(m, objects[k], centerAlt, centerAz, fov, magLimit, c.width, c.height);
      assert DeepSkyMarkers(m, objects[..k + 1], centerAlt, centerAz, fov, magLimit, c.width, c.height) == done + next;
      DrawDeepSkyObject(m, c, objects[k], centerAlt, centerAz, fov, magLimit);
      forall y, x | 0 <= y < c.height && 0 <= x < c.width
        ensures c.cells[y, x] == Painted(done + next, x, y, old(c.cells[y, x]))
      {
        PaintedAppend(done, next, x, y, old(c.cells[y, x]));
      }
    }
    assert objects[..|objects|] == objects;
  }

  // ------------------------------------------------------------- labels

  /** `fmt.Sprintf("M%d", obj.Number)`. */
  function MessierLabel(number: int): string {
    "M" + IntToString(number)
  }

  /** The label is an ASCII "M" followed by the number's decimal digits,
      which read back as the number. */
  lemma MessierLabelDigits(number: int)
    ensures var r := MessierLabel(number); |r| >= 2 && r[0] == 'M' && IsAscii(r)
    ensures number >= 0 ==> DecimalValue(MessierLabel(number)[1..]) == number
  {
    var r := MessierLabel(number);
    assert r[1..] == IntToString(number);
    if number >= 0 {
      NatToStringValue(number);
    }
  }

  /** The label writes for one object. */
  function DeepSkyLabel(m: MathLib, d: MessierObject, centerAlt: real, centerAz: real, fov: real, magLimit: real, w: int, h: int): seq<Brush> {
    if d.magnitude > DeepSkyLimit(magLimit) then []
    else LabelBeside(MessierLabel(d.number), Project(m, d.altitude, d.azimuth, centerAlt, centerAz, fov, w, h), DeepSkyLabelStyle, w, h)
  }

  /** The writes of `RenderDeepSkyLabels`. */
  function DeepSkyLabels(m: MathLib, objects: seq<MessierObject>, centerAlt: real, centerAz: real, fov: real, magLimit: real, w: int, h: int): seq<Brush> {
    if objects == [] then []
    else (DeepSkyLabels(m, objects[..|objects| - 1], centerAlt, centerAz, fov, magLimit, w, h)
          + DeepSkyLabel(m, objects[|objects| - 1], centerAlt, centerAz, fov, magLimit, w, h))
  }

  /** An object is labelled under the same magnitude and visibility rule as
      its symbol; the label "M<number>" sits on its row from two columns
      right of it, magenta and faint, clipped to the canvas, consecutive
      when it fits. */
  lemma DeepSkyLabelPlacement(m: MathLib, d: MessierObject, centerAlt: real, centerAz: real, fov: real, magLimit: real, w: int, h: int)
    ensures var q := Project(m, d.altitude, d.azimuth, centerAlt, centerAz, fov, w, h);
      DeepSkyLabel(m, d, centerAlt, centerAz, fov, magLimit, w, h) != [] ==> d.magnitude <= magLimit + 3.0 && q.visible
    ensures var q := Project(m, d.altitude, d.azimuth, centerAlt, centerAz, fov, w, h);
      forall b :: b in DeepSkyLabel(m, d, centerAlt, centerAz, fov, magLimit, w, h) ==>
        b.over.None? && b.y == q.y && 0 <= b.y < h && q.x + 2 <= b.x && 0 <= b.x < w
        && b.cell.style == DeepSkyLabelStyle && b.cell.ch in MessierLabel(d.number)
    ensures var q := Project(m, d.altitude, d.azimuth, centerAlt, centerAz, fov, w, h);
      var text := MessierLabel(d.number);
      d.magnitude <= magLimit + 3.0 && q.visible && 0 <= q.x + 2 && q.x + 2 + |text| <= w ==>
        DeepSkyLabel(m, d, centerAlt, centerAz, fov, magLimit, w, h)
        == seq(|text|, k requires 0 <= k < |text| => Plain(q.x + 2 + k, q.y, Cell(text[k], DeepSkyLabelStyle)))
  {
    LabelBesidePlacement(MessierLabel(d.number), Project(m, d.altitude, d.azimuth, centerAlt, centerAz, fov, w, h), DeepSkyLabelStyle, w, h);
  }

  /** Every catalog entry's label is its own `Name`, and its type is one
      the table names. */
  lemma CatalogLabels()
    ensures forall k :: 0 <= k < |MessierObjects| ==>
      MessierLabel(MessierObjects[k].number) == MessierObjects[k].name && MessierObjects[k].kind in KnownTypes
  {
    assert MessierLabel(1) == "M1";
    assert MessierLabel(8) == "M8";
    assert MessierLabel(13) == "M13";
    assert MessierLabel(31) == "M31";
  }

  /** Every write of the label layer belongs to the label of some object. */
  lemma {:induction false} DeepSkyLabelsFrom(m: MathLib, objects: seq<MessierObject>, centerAlt: real, centerAz: real, fov: real, magLimit: real, w: int, h: int, b: Brush)
    requires b in DeepSkyLabels(m, objects, centerAlt, centerAz, fov, magLimit, w, h)
    ensures exists k :: 0 <= k < |objects| && b in DeepSkyLabel(m, objects[k], centerAlt, centerAz, fov, magLimit, w, h)
    decreases |objects|
  {
    var n := |objects| - 1;
    var pre := DeepSkyLabels(m, objects[..n], centerAlt, centerAz, fov, magLimit, w, h);
    var last := DeepSkyLabel(m, objects[n], centerAlt, centerAz, fov, magLimit, w, h);
    assert DeepSkyLabels(m, objects, centerAlt, centerAz, fov, magLimit, w, h) == pre + last;
    if b in pre {
      DeepSkyLabelsFrom(m, objects[..n], centerAlt, centerAz, fov, magLimit, w, h, b);
      var k :| 0 <= k < n && b in DeepSkyLabel(m, objects[..n][k], centerAlt, centerAz, fov, magLimit, w, h);
      assert objects[..n][k] == objects[k];
    } else {
      assert b in DeepSkyLabel(m, objects[n], centerAlt, centerAz, fov, magLimit, w, h);
    }
  }

  /** One pass of the loop of `RenderDeepSkyLabels`. */
  method DrawDeepSkyLabel(m: MathLib, c: Canvas, d: MessierObject, centerAlt: real, centerAz: real, fov: real, magLimit: real)
    requires c.Valid()
    modifies c.cells
    ensures c.Shows(DeepSkyLabel(m, d, centerAlt, centerAz, fov, magLimit, c.width, c.height))
  {
    if d.magnitude > magLimit + 3.0 {
      return;
    }
    var q := Project(m, d.altitude, d.azimuth, centerAlt, centerAz, fov, c.width, c.height);
    var text := MessierLabel(d.number);
    WriteLabelBeside(c, text, q, DeepSkyLabelStyle);
  }

  /** `RenderDeepSkyLabels(canvas, objects, centerAlt, centerAz, fov, magLimit)`. */
  method RenderDeepSkyLabels(m: MathLib, c: Canvas, objects: seq<MessierObject>, centerAlt: real, centerAz: real, fov: real, magLimit: real)
    requires c.Valid()
    modifies c.cells
    ensures c.Shows(DeepSkyLabels(m, objects, centerAlt, centerAz, fov, magLimit, c.width, c.height))
  {
    for k := 0 to |objects|
      invariant c.Shows(DeepSkyLabels(m, objects[..k], centerAlt, centerAz, fov, magLimit, c.width, c.height))
    {
      assert objects[..k + 1][..k] == objects[..k];
      ghost var done := DeepSkyLabels(m, objects[..k], centerAlt, centerAz, fov, magLimit, c.width, c.height);
      ghost var next := DeepSkyLabel(m, objects[k], centerAlt, centerAz, fov, magLimit, c.width, c.height);
      assert DeepSkyLabels(m, objects[..k + 1], centerAlt, centerAz, fov, magLimit, c.width, c.height) == done + next;
      DrawDeepSkyLabel(m, c, objects[k], centerAlt, centerAz, fov, magLimit);
      forall y, x | 0 <= y < c.height && 0 <= x < c.width
        ensures c.cells[y, x] == Painted(done + next, x, y, old(c.cells[y, x]))
      {
        PaintedAppend(done, next, x, y, old(c.cells[y, x]));
      }
    }
    assert objects[..|objects|] == objects;
  }
}
