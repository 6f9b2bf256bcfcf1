/** The small maths library: epsilon comparison of floating-point values,
    planar distance and the law of cosines. Floating-point numbers are modelled
    as reals; the libm functions the library calls are a record of functions
    handed in by the caller. */
module MyMath {
  import opened Base

  /** Result of `math_compare_float` / `math_compare_double`. */
  datatype FpCompare = MoreThan | LessThan | Equation

  /** FLT_EPSILON, 2^-23. */
  const FltEpsilon: real := 0.00000011920928955078125
  /** DBL_EPSILON, 2^-52. */
  const DblEpsilon: real := 0.0000000000000002220446049250313080847263336181640625

  /** pi as the firmware uses it (PI in my_math.h). */
  const Pi: real := 3.14159265358979323846

  /** The libm functions called by the controllers. `atanDiv(n, d)` is
      `atanf(n / d)` with the quotient formed in IEEE arithmetic, where a zero
      denominator gives an infinity rather than an error. */
  datatype Libm = Libm(
    sqrt: real -> real, acos: real -> real, atanDiv: (real, real) -> real,
    sin: real -> real, cos: real -> real)

  /** A square root that is exact on non-negative arguments. */
  ghost predicate SqrtSound(lib: Libm)
  {
    forall v: real {:trigger lib.sqrt(v)} :: v >= 0.0 ==> lib.sqrt(v) >= 0.0 && lib.sqrt(v) * lib.sqrt(v) == v
  }

  function Abs(x: real): (r: real)
    ensures r >= 0.0 && (r == x || r == -x)
  {
    if x < 0.0 then -x else x
  }

  /** RAD2DEG. */
  function Rad2Deg(rad: real): (deg: real)
    ensures deg * Pi == rad * 180.0
  {
    rad * 180.0 / Pi
  }

  /** Three-way comparison with a tolerance band of `eps` around equality. */
  function CompareWithin(x: real, y: real, eps: real): (c: FpCompare)
    requires eps > 0.0
    ensures c == MoreThan <==> x - y > eps
    ensures c == LessThan <==> x - y < -eps
    ensures c == Equation <==> -eps <= x - y <= eps
  {
    if x - y > eps then MoreThan
    else if x - y < -eps then LessThan
    else Equation
  }

  /** math_compare_float. */
  function CompareFloat(x: real, y: real): (c: FpCompare)
    ensures c == MoreThan <==> x > y + FltEpsilon
    ensures c == LessThan <==> x < y - FltEpsilon
    ensures c == Equation <==> Abs(x - y) <= FltEpsilon
  {
    CompareWithin(x, y, FltEpsilon)
  }

  /** math_compare_double. */
  function CompareDouble(x: real, y: real): (c: FpCompare)
    ensures c == MoreThan <==> x > y + DblEpsilon
    ensures c == LessThan <==> x < y - DblEpsilon
    ensures c == Equation <==> Abs(x - y) <= DblEpsilon
  {
    CompareWithin(x, y, DblEpsilon)
  }

  /** Swapping the operands mirrors the verdict; equal operands compare equal. */
  lemma CompareAntisymmetric(x: real, y: real, eps: real)
    requires eps > 0.0
    ensures CompareWithin(x, y, eps) == MoreThan <==> CompareWithin(y, x, eps) == LessThan
    ensures CompareWithin(x, y, eps) == Equation <==> CompareWithin(y, x, eps) == Equation
    ensures CompareWithin(x, x, eps) == Equation
  {
  }

  /** The tolerance band is exactly as wide as FLT_EPSILON on each side. */
  lemma CompareFloatBand(x: real)
    ensures CompareFloat(x + FltEpsilon, x) == Equation
    ensures CompareFloat(x + 2.0 * FltEpsilon, x) == MoreThan
    ensures CompareFloat(x - 2.0 * FltEpsilon, x) == LessThan
  {
  }

  /** two_dimensions: Euclidean distance between (x1, y1) and (x2, y2). */
  function TwoDimensions(lib: Libm, x1: real, y1: real, x2: real, y2: real): (d: real)
  {
    lib.sqrt((x2 - x1) * (x2 - x1) + (y2 - y1) * (y2 - y1))
  }

  /** With an exact square root the distance is non-negative, squares to the sum
      of squared offsets, and is symmetric in the two points. */
  lemma {:induction false} TwoDimensionsMetric(lib: Libm, x1: real, y1: real, x2: real, y2: real)
    requires SqrtSound(lib)
    ensures TwoDimensions(lib, x1, y1, x2, y2) >= 0.0
    ensures TwoDimensions(lib, x1, y1, x2, y2) * TwoDimensions(lib, x1, y1, x2, y2)
            == (x2 - x1) * (x2 - x1) + (y2 - y1) * (y2 - y1)
    ensures TwoDimensions(lib, x1, y1, x2, y2) == TwoDimensions(lib, x2, y2, x1, y1)
  {
    var dx, dy := x2 - x1, y2 - y1;
    var s := dx * dx + dy * dy;
    SquareNonNegative(dx);
    SquareNonNegative(dy);
    var d := lib.sqrt(s);
    assert d >= 0.0 && d * d == s;
    assert (x1 - x2) * (x1 - x2) + (y1 - y2) * (y1 - y2) == s;
  }

  lemma SquareNonNegative(u: real)
    ensures u * u >= 0.0
  {
    if u < 0.0 {
      var v := -u;
      assert v * v > 0.0;
      assert u * u == v * v;
    }
  }

  /** triangle_cosine_law: (a^2 + b^2 - c^2) / (2ab). The C code has no guard;
      a degenerate side (a*b == 0) yields no real number, modelled as None. */
  function TriangleCosineLaw(a: real, b: real, c: real): (r: Option<real>)
    ensures r.None? <==> a * b == 0.0
    ensures r.Some? ==> r.value * (2.0 * a * b) == a * a + b * b - c * c
  {
    if a * b == 0.0 then None else Some((a * a + b * b - c * c) / (2.0 * a * b))
  }
}
