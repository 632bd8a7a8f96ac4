/** Projection onto the screen and the star layer
    (internal/render/stars.go). */
module RenderStars {
  import opened GoMath
  import opened AstroCoords
  import opened Catalog
  import opened RenderCanvas
  import opened RenderStyles

  datatype Vector = Vector(x: real, y: real, z: real)

  function Dot(a: Vector, b: Vector): real {
    a.x * b.x + a.y * b.y + a.z * b.z
  }

  function Cross(a: Vector, b: Vector): Vector {
    Vector(a.y * b.z - a.z * b.y, a.z * b.x - a.x * b.z, a.x * b.y - a.y * b.x)
  }

  /** The unit vector toward altitude `alt` and azimuth `az` (radians),
      x east, y north, z up. */
  function Direction(m: MathLib, alt: real, az: real): Vector {
    Vector(m.cos(alt) * m.sin(az), m.cos(alt) * m.cos(az), m.sin(alt))
  }

  /** Dividing each component by `len` when `len > 0`. */
  function Normalized(v: Vector, len: real): Vector {
    if len > 0.0 then Vector(v.x / len, v.y / len, v.z / len) else v
  }

  /** `Cross(a, b)` is perpendicular to both `a` and `b`. */
  lemma CrossPerpendicular(a: Vector, b: Vector)
    ensures Dot(a, Cross(a, b)) == 0.0 && Dot(b, Cross(a, b)) == 0.0
  {
  }

  lemma DotNormalized(a: Vector, v: Vector, len: real)
    requires Dot(a, v) == 0.0
    ensures Dot(a, Normalized(v, len)) == 0.0
  {
    if len > 0.0 {
      assert Dot(a, Normalized(v, len)) == Dot(a, v) / len;
    }
  }

  /** The screen basis for a view centred on `c`: `right` is `c` x up
      (normalised), and the new up is `right` x `c`. */
  function RightAxis(m: MathLib, c: Vector): Vector {
    var r := Cross(c, Vector(0.0, 0.0, 1.0));
    Normalized(r, m.sqrt(Dot(r, r)))
  }

  function UpAxis(m: MathLib, c: Vector): Vector {
    Cross(RightAxis(m, c), c)
  }

  /** The result of `Project`: `(x, y, visible)`. */
  datatype Projection = Projection(x: int, y: int, visible: bool)

  const Hidden: Projection := Projection(0, 0, false)

  /** The angular separation of `s` from `c`: `acos` of the dot product
      clamped into [-1, 1]. */
  function Separation(m: MathLib, s: Vector, c: Vector): real {
    m.acos(ClampUnit(Dot(s, c)))
  }

  /** The column and the row of a point whose scaled tangent-plane
      coordinates are `screenX` and `screenY`; rows grow downwards. */
  function Column(w: int, screenX: real): int {
    Trunc(w as real / 2.0 + screenX * w as real / 2.0)
  }

  function Row(h: int, screenY: real): int {
    Trunc(h as real / 2.0 - screenY * h as real / 2.0)
  }

  /** The final bounds gate of `Project`. */
  function Place(w: int, h: int, screenX: real, screenY: real): (p: Projection)
    ensures !p.visible ==> p == Hidden
    ensures p.visible ==> 0 <= p.x < w && 0 <= p.y < h
    ensures p.visible <==> 0 <= Column(w, screenX) < w && 0 <= Row(h, screenY) < h
  {
    var x := Column(w, screenX);
    var y := Row(h, screenY);
    if x < 0 || x >= w || y < 0 || y >= h then Hidden else Projection(x, y, true)
  }

  /** `Project(alt, az, centerAlt, centerAz, fov, w, h)`. A zero
      `tan(fov/2)`, which makes Go's scale infinite, is reported as not
      visible. */
  function Project(m: MathLib, alt: real, az: real, centerAlt: real, centerAz: real, fov: real, w: int, h: int): (p: Projection)
    ensures !p.visible ==> p == Hidden
    ensures p.visible ==> 0 <= p.x < w && 0 <= p.y < h
    ensures var sep := Separation(m, Direction(m, Radians(alt), Radians(az)), Direction(m, Radians(centerAlt), Radians(centerAz)));
      sep > Radians(fov) / 2.0 ==> p == Hidden
  {
    var star := Direction(m, Radians(alt), Radians(az));
    var center := Direction(m, Radians(centerAlt), Radians(centerAz));
    var fovRad := Radians(fov);
    var t := m.tan(fovRad / 2.0);
    if Separation(m, star, center) > fovRad / 2.0 || t == 0.0 then Hidden
    else Place(w, h, Dot(star, RightAxis(m, center)) * (2.0 / t), Dot(star, UpAxis(m, center)) * (2.0 / t))
  }

  /** For a non-negative width, `int(w/2.0)` is `w/2`. */
  lemma HalfTruncates(w: int)
    requires w >= 0
    ensures Trunc(w as real / 2.0) == w / 2
  {
    var q := w / 2;
    assert w == 2 * q || w == 2 * q + 1;
    assert q as real <= w as real / 2.0 < q as real + 1.0;
  }

  /** The view centre has zero coordinates on both screen axes. */
  lemma CentreOnAxes(m: MathLib, c: Vector)
    ensures Dot(c, RightAxis(m, c)) == 0.0 && Dot(c, UpAxis(m, c)) == 0.0
  {
    var r := Cross(c, Vector(0.0, 0.0, 1.0));
    CrossPerpendicular(c, Vector(0.0, 0.0, 1.0));
    DotNormalized(c, r, m.sqrt(Dot(r, r)));
    CrossPerpendicular(RightAxis(m, c), c);
  }

  lemma PlaceOrigin(w: int, h: int)
    requires w > 0 && h > 0
    ensures Place(w, h, 0.0, 0.0) == Projection(w / 2, h / 2, true)
  {
    HalfTruncates(w);
    HalfTruncates(h);
    assert Column(w, 0.0) == Trunc(w as real / 2.0);
    assert Row(h, 0.0) == Trunc(h as real / 2.0);
  }

  /** An object at the view centre has zero tangent coordinates, so when it
      is visible it lands on the middle cell. */
  lemma ProjectCentre(m: MathLib, alt: real, az: real, fov: real, w: int, h: int)
    requires Project(m, alt, az, alt, az, fov, w, h).visible
    ensures Project(m, alt, az, alt, az, fov, w, h) == Projection(w / 2, h / 2, true)
  {
    var c := Direction(m, Radians(alt), Radians(az));
    CentreOnAxes(m, c);
    var t := m.tan(Radians(fov) / 2.0);
    assert Project(m, alt, az, alt, az, fov, w, h) == Place(w, h, 0.0 * (2.0 / t), 0.0 * (2.0 / t));
    PlaceOrigin(w, h);
  }

  /** Rows are inverted: a larger up-coordinate never gives a lower row. */
  lemma RowAntitone(h: int, up1: real, up2: real)
    requires h >= 0 && up1 <= up2
    ensures Row(h, up2) <= Row(h, up1)
  {
    ScaledByCells(h, up1, up2);
    HalfShiftAntitone(h as real / 2.0, up1 * h as real, up2 * h as real);
  }

  /** Columns follow the right-coordinate. */
  lemma ColumnMonotone(w: int, r1: real, r2: real)
    requires w >= 0 && r1 <= r2
    ensures Column(w, r1) <= Column(w, r2)
  {
    ScaledByCells(w, r1, r2);
    HalfShiftMonotone(w as real / 2.0, r1 * w as real, r2 * w as real);
  }

  /** Scaling by a cell count keeps order. */
  lemma ScaledByCells(n: int, a: real, b: real)
    requires n >= 0 && a <= b
    ensures a * n as real <= b * n as real
  {
    MulRightNonNegative(a, b, n as real);
  }

  lemma HalfShiftMonotone(c: real, a: real, b: real)
    requires a <= b
    ensures Trunc(c + a / 2.0) <= Trunc(c + b / 2.0)
  {
    TruncMonotone(c + a / 2.0, c + b / 2.0);
  }

  lemma HalfShiftAntitone(c: real, a: real, b: real)
    requires a <= b
    ensures Trunc(c - b / 2.0) <= Trunc(c - a / 2.0)
  {
    TruncMonotone(c - b / 2.0, c - a / 2.0);
  }

  // ----------------------------------------------------------- the layer

  /** What `RenderStars` writes for one star. */
  function StarBrush(m: MathLib, s: Star, centerAlt: real, centerAz: real, fov: real, magLimit: real,
                     w: int, h: int): seq<Brush>
  {
    if s.magnitude > magLimit then []
    else
      var p := Project(m, s.altitude, s.azimuth, centerAlt, centerAz, fov, w, h);
      if !p.visible then []
      else [Plain(p.x, p.y, Cell(CharForMagnitude(s.magnitude), StarStyle(s.magnitude, s.spectralType, true)))]
  }

  /** The writes of `RenderStars`, star by star. */
  function StarBrushes(m: MathLib, stars: seq<Star>, centerAlt: real, centerAz: real, fov: real, magLimit: real,
                       w: int, h: int): seq<Brush>
  {
    if stars == [] then []
    else
      StarBrushes(m, stars[..|stars| - 1], centerAlt, centerAz, fov, magLimit, w, h)
      + StarBrush(m, stars[|stars| - 1], centerAlt, centerAz, fov, magLimit, w, h)
  }

  /** Every star write comes from a star no fainter than the limit whose
      projection is visible; it is unconditional, in bounds, and carries the
      glyph for the star's magnitude, coloured by its spectral type. */
  lemma {:induction false} StarBrushesFromStars(m: MathLib, stars: seq<Star>, centerAlt: real, centerAz: real,
                                                fov: real, magLimit: real, w: int, h: int)
    ensures forall b :: b in StarBrushes(m, stars, centerAlt, centerAz, fov, magLimit, w, h) ==>
      b.over.None? && 0 <= b.x < w && 0 <= b.y < h
      && exists k :: 0 <= k < |stars| && StarBrush(m, stars[k], centerAlt, centerAz, fov, magLimit, w, h) == [b]
    ensures forall k :: 0 <= k < |stars| ==>
      var bs := StarBrush(m, stars[k], centerAlt, centerAz, fov, magLimit, w, h);
      (bs != [] <==>
        stars[k].magnitude <= magLimit && Project(m, stars[k].altitude, stars[k].azimuth, centerAlt, centerAz, fov, w, h).visible)
    ensures forall k :: 0 <= k < |stars| ==>
      var bs := StarBrush(m, stars[k], centerAlt, centerAz, fov, magLimit, w, h);
      bs != [] ==> bs[0].cell == Cell(CharForMagnitude(stars[k].magnitude), StarStyle(stars[k].magnitude, stars[k].spectralType, true))
    decreases |stars|
  {
    if stars != [] {
      var n := |stars| - 1;
      StarBrushesFromStars(m, stars[..n], centerAlt, centerAz, fov, magLimit, w, h);
      forall b | b in StarBrushes(m, stars, centerAlt, centerAz, fov, magLimit, w, h)
        ensures exists k :: 0 <= k < |stars| && StarBrush(m, stars[k], centerAlt, centerAz, fov, magLimit, w, h) == [b]
      {
        if b in StarBrushes(m, stars[..n], centerAlt, centerAz, fov, magLimit, w, h) {
          var k :| 0 <= k < n && StarBrush(m, stars[..n][k], centerAlt, centerAz, fov, magLimit, w, h) == [b];
          assert stars[..n][k] == stars[k];
        } else {
          assert StarBrush(m, stars[n], centerAlt, centerAz, fov, magLimit, w, h) == [b];
        }
      }
    }
  }

  /** `RenderStars(canvas, stars, centerAlt, centerAz, fov, magLimit)`. */
  method RenderStars(m: MathLib, c: Canvas, stars: seq<Star>, centerAlt: real, centerAz: real, fov: real, magLimit: real)
    requires c.Valid()
    modifies c.cells
    ensures c.Shows(StarBrushes(m, stars, centerAlt, centerAz, fov, magLimit, c.width, c.height))
  {
    for k := 0 to |stars|
      invariant c.Shows(StarBrushes(m, stars[..k], centerAlt, centerAz, fov, magLimit, c.width, c.height))
    {
      var star := stars[k];
      assert stars[..k + 1][..k] == stars[..k];
      ghost var before := StarBrushes(m, stars[..k], centerAlt, centerAz, fov, magLimit, c.width, c.height);
      if star.magnitude > magLimit {
        assert StarBrushes(m, stars[..k + 1], centerAlt, centerAz, fov, magLimit, c.width, c.height) == before;
        continue;
      }
      var p := Project(m, star.altitude, star.azimuth, centerAlt, centerAz, fov, c.width, c.height);
      if !p.visible {
        assert StarBrushes(m, stars[..k + 1], centerAlt, centerAz, fov, magLimit, c.width, c.height) == before;
        continue;
      }
      var ch := CharForMagnitude(star.magnitude);
      var style := StarStyle(star.magnitude, star.spectralType, true);
      c.Set(p.x, p.y, ch, style);
      PaintedSnoc(before, Plain(p.x, p.y, Cell(ch, style)));
      assert StarBrushes(m, stars[..k + 1], centerAlt, centerAz, fov, magLimit, c.width, c.height)
        == before + [Plain(p.x, p.y, Cell(ch, style))];
    }
    assert stars[..|stars|] == stars;
  }
}
