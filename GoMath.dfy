/** Go's numeric semantics as the modelled code uses them, over Dafny's exact
    `int` and `real`. Transcendental functions (`math.Sin`, `math.Acos`, ...)
    cannot be computed over `real`; they are passed in as a `MathLib` record
    and only the laws a property needs are assumed of it, as a hypothesis of
    the lemma that needs them. */
module GoMath {

  /** The float64 value of `math.Pi`. */
  const Pi: real := 3.141592653589793

  /** The transcendental part of Go's `math` package. */
  datatype MathLib = MathLib(
    sin: real -> real,
    cos: real -> real,
    tan: real -> real,
    asin: real -> real,
    acos: real -> real,
    atan2: (real, real) -> real,
    sqrt: real -> real)

  /** `math.Acos` maps [-1, 1] into [0, Pi]. */
  ghost predicate AcosInRange(m: MathLib) {
    forall x :: -1.0 <= x <= 1.0 ==> 0.0 <= m.acos(x) <= Pi
  }

  /** `math.Sin` and `math.Cos` stay within [-1, 1]. */
  ghost predicate SinCosBounded(m: MathLib) {
    (forall x :: -1.0 <= m.sin(x) <= 1.0) && (forall x :: -1.0 <= m.cos(x) <= 1.0)
  }

  /** `math.Sqrt` returns the non-negative square root. */
  ghost predicate SqrtIsRoot(m: MathLib) {
    forall x: real :: x >= 0.0 ==> m.sqrt(x) >= 0.0 && m.sqrt(x) * m.sqrt(x) == x
  }

  // ------------------------------------------------------------ integers

  /** Go's integer `/`: truncates toward zero. */
  function Quot(a: int, b: int): (q: int)
    requires b != 0
    ensures a >= 0 && b > 0 ==> q == a / b
    ensures b * q + Rem(a, b) == a
  {
    if (a >= 0) == (b > 0) then Abs(a) / Abs(b) else -(Abs(a) / Abs(b))
  }

  /** Go's integer `%`: the remainder takes the sign of the dividend. */
  function Rem(a: int, b: int): (r: int)
    requires b != 0
    ensures Abs(r) < Abs(b)
    ensures a >= 0 ==> r >= 0
    ensures a <= 0 ==> r <= 0
  {
    if a >= 0 then a % Abs(b) else -((-a) % Abs(b))
  }

  function Abs(a: int): nat {
    if a < 0 then -a else a
  }

  function Min(a: int, b: int): int {
    if a < b then a else b
  }

  function Max(a: int, b: int): int {
    if a > b then a else b
  }

  // --------------------------------------------------------------- reals

  function AbsR(x: real): (r: real)
    ensures r >= 0.0 && (r == x || r == -x)
  {
    if x < 0.0 then -x else x
  }

  function MinR(a: real, b: real): real {
    if a < b then a else b
  }

  function MaxR(a: real, b: real): real {
    if a > b then a else b
  }

  /** `math.Floor`, as an integer. */
  function Floor(x: real): (r: int)
    ensures r as real <= x < r as real + 1.0
  {
    x.Floor
  }

  /** Go's conversion `int(x)` of a float: truncation toward zero. */
  function Trunc(x: real): (r: int)
    ensures x >= 0.0 ==> 0 <= r && r as real <= x < r as real + 1.0
    ensures x < 0.0 ==> r <= 0 && r as real - 1.0 < x <= r as real
  {
    if x >= 0.0 then x.Floor else -((-x).Floor)
  }

  /** Truncation keeps order. */
  lemma TruncMonotone(x: real, y: real)
    requires x <= y
    ensures Trunc(x) <= Trunc(y)
  {
    var a, b := Trunc(x), Trunc(y);
    if 0.0 <= x {
      assert a as real <= y < b as real + 1.0;
    } else if y < 0.0 {
      assert a as real - 1.0 < x <= y <= b as real;
    }
  }

  /** `math.Round`: to the nearest integer, halves away from zero. */
  function Round(x: real): (r: int)
    ensures AbsR(r as real - x) <= 0.5
    ensures AbsR(r as real - x) == 0.5 ==> AbsR(r as real) > AbsR(x)
  {
    if x >= 0.0 then (x + 0.5).Floor else -((-x + 0.5).Floor)
  }

  /** `math.Mod(x, y)`: `x - y*Trunc(x/y)`, so the result has the sign of `x`. */
  function Fmod(x: real, y: real): (r: real)
    requires y > 0.0
    ensures x >= 0.0 ==> 0.0 <= r < y
    ensures x < 0.0 ==> -y < r <= 0.0
  {
    TruncQuotientBounds(x, y);
    x - y * Trunc(x / y) as real
  }

  /** `y * Trunc(x / y)` is within one `y` of `x`, on the side of zero. */
  lemma TruncQuotientBounds(x: real, y: real)
    requires y > 0.0
    ensures x >= 0.0 ==> y * Trunc(x / y) as real <= x < y * Trunc(x / y) as real + y
    ensures x < 0.0 ==> y * Trunc(x / y) as real - y < x <= y * Trunc(x / y) as real
  {
    var q := x / y;
    var t := Trunc(q) as real;
    QuotientSign(x, y);
    if x >= 0.0 {
      ScaledAtLeast(x, y, q, t);
      ScaledBelowNext(x, y, q, t);
    } else {
      ScaledAbovePrevious(x, y, q, t);
      ScaledAtMost(x, y, q, t);
    }
  }

  /** `x / y` has the sign of `x` when `y` is positive, and `y` times it
      is `x`. */
  lemma QuotientSign(x: real, y: real)
    requires y > 0.0
    ensures y * (x / y) == x
    ensures x >= 0.0 <==> x / y >= 0.0
  {
    MulLeft(y, x / y, 0.0);
    MulLeft(y, 0.0, x / y);
  }

  /** The four one-sided bounds of `x == y * q` for a positive `y`, each
      on its own so that each proof stays small. */
  lemma ScaledAtLeast(x: real, y: real, q: real, t: real)
    requires y > 0.0 && y * q == x && t <= q
    ensures y * t <= x
  {
    MulLeft(y, t, q);
  }

  lemma ScaledAtMost(x: real, y: real, q: real, t: real)
    requires y > 0.0 && y * q == x && q <= t
    ensures x <= y * t
  {
    MulLeft(y, q, t);
  }

  lemma ScaledBelowNext(x: real, y: real, q: real, t: real)
    requires y > 0.0 && y * q == x && q < t + 1.0
    ensures x < y * t + y
  {
    MulLeft(y, q, t + 1.0);
    assert y * (t + 1.0) == y * t + y;
  }

  lemma ScaledAbovePrevious(x: real, y: real, q: real, t: real)
    requires y > 0.0 && y * q == x && t - 1.0 < q
    ensures y * t - y < x
  {
    MulLeft(y, t - 1.0, q);
    assert y * (t - 1.0) == y * t - y;
  }

  /** Multiplying by a positive number keeps order. */
  lemma MulLeft(y: real, a: real, b: real)
    requires y > 0.0
    ensures a <= b ==> y * a <= y * b
    ensures a < b ==> y * a < y * b
  {
  }

  /** Multiplying on the right by a non-negative number keeps order. */
  lemma MulRightNonNegative(a: real, b: real, y: real)
    requires a <= b && y >= 0.0
    ensures a * y <= b * y
  {
    if y > 0.0 {
      MulLeft(y, a, b);
    }
  }

  /** `math.Asin` returns an angle in [-Pi/2, Pi/2]. The law is stated for
      every real, not only for [-1, 1]: the callers pass `sin δ sin φ +
      cos δ cos φ cos H` unclamped, which exact trigonometry keeps in
      [-1, 1], while Go returns NaN for a rounding error beyond either end. */
  ghost predicate AsinInRange(m: MathLib) {
    forall x :: -Pi / 2.0 <= m.asin(x) <= Pi / 2.0
  }

  /** The identities the zenith case relies on: sin^2 + cos^2 = 1,
      cos(0) = 1 and asin(1) = Pi/2. */
  ghost predicate ZenithLaws(m: MathLib) {
    (forall x :: m.sin(x) * m.sin(x) + m.cos(x) * m.cos(x) == 1.0)
    && m.cos(0.0) == 1.0 && m.asin(1.0) == Pi / 2.0
  }

  /** `math.Max(-1, math.Min(1, num/den))` with IEEE division: a zero
      denominator gives an infinity of the numerator's sign, which the clamp
      turns into 1 or -1; 0/0 (NaN in Go) is taken as 1. */
  function ClampedQuotient(num: real, den: real): (r: real)
    ensures -1.0 <= r <= 1.0
    ensures den != 0.0 ==> r == ClampUnit(num / den)
  {
    if den != 0.0 then ClampUnit(num / den)
    else if num < 0.0 then -1.0
    else 1.0
  }

  /** `math.Max(lo, math.Min(hi, x))` as written around `math.Acos`. */
  function ClampUnit(x: real): (r: real)
    ensures -1.0 <= r <= 1.0
    ensures -1.0 <= x <= 1.0 ==> r == x
  {
    MaxR(-1.0, MinR(1.0, x))
  }
}
