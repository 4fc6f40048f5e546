/** Small numeric helpers shared by the spring network and the rest-angle
    functions: the angle constants, the affine random draw and the angle
    wrap. All single-precision float values are modelled as reals. */
module Util {

  /** Box2D's b2_pi. */
  const Pi: real := 3.14159265359
  const TwoPi: real := 2.0 * Pi

  /** DEGTORAD as the rest-angle functions define it. */
  const DegToRad: real := 0.0174532925199432957

  /** A pointer that may be null. */
  datatype Option<T> = None | Some(value: T)

  /** One value of rand() / RAND_MAX: a real in [0, 1]. */
  type Draw = r: real | 0.0 <= r <= 1.0

  /** n copies of x. */
  function Repeat<T>(n: nat, x: T): (r: seq<T>)
    ensures |r| == n && forall i | 0 <= i < n :: r[i] == x
  {
    seq(n, _ => x)
  }

  lemma RepeatSnoc<T>(x: T, n: nat)
    ensures Repeat(n + 1, x) == Repeat(n, x) + [x]
  {
  }

  function Abs(x: real): (r: real)
    ensures r >= 0.0 && (r == x || r == -x)
  {
    if x < 0.0 then -x else x
  }

  /** RandomFloat(a, b) for a given draw r: a + r * (b - a). */
  function RandomFloat(a: real, b: real, r: Draw): (v: real)
    ensures r == 0.0 ==> v == a
    ensures r == 1.0 ==> v == b
    ensures a <= b ==> a <= v <= b
    ensures b <= a ==> b <= v <= a
  {
    var diff := b - a;
    ScaleBetween(r, diff);
    a + r * diff
  }

  /** r * d lies between 0 and d for r in [0, 1]. */
  lemma ScaleBetween(r: real, d: real)
    requires 0.0 <= r <= 1.0
    ensures 0.0 <= d ==> 0.0 <= r * d <= d
    ensures d <= 0.0 ==> d <= r * d <= 0.0
  {
    MulNonNeg(r, if d >= 0.0 then d else -d);
    MulNonNeg(1.0 - r, if d >= 0.0 then d else -d);
  }

  lemma MulNonNeg(a: real, b: real)
    requires 0.0 <= a && 0.0 <= b
    ensures 0.0 <= a * b
  {
  }

  /** Scaling by a non-negative factor keeps an interval's order. */
  lemma ScaleInterval(k: real, u: real, lo: real, hi: real)
    requires 0.0 <= k && lo <= u <= hi
    ensures k * lo <= k * u <= k * hi
  {
    MulNonNeg(k, u - lo);
    MulNonNeg(k, hi - u);
    assert k * (u - lo) == k * u - k * lo;
    assert k * (hi - u) == k * hi - k * u;
  }

  /** A factor in [-1, 1] does not increase a magnitude. */
  lemma UnitTimes(s: real, x: real)
    requires -1.0 <= s <= 1.0
    ensures -Abs(x) <= s * x <= Abs(x)
  {
    MulNonNeg(1.0 - s, Abs(x));
    MulNonNeg(1.0 + s, Abs(x));
    assert (1.0 - s) * Abs(x) == Abs(x) - s * Abs(x);
    assert (1.0 + s) * Abs(x) == Abs(x) + s * Abs(x);
  }

  /** |k * x| <= |k| * b when |x| <= b. */
  lemma ProductBounded(k: real, x: real, b: real)
    requires -b <= x <= b
    ensures -(Abs(k) * b) <= k * x <= Abs(k) * b
  {
    MulNonNeg(Abs(k), b - x);
    MulNonNeg(Abs(k), b + x);
    assert Abs(k) * (b - x) == Abs(k) * b - Abs(k) * x;
    assert Abs(k) * (b + x) == Abs(k) * b + Abs(k) * x;
  }

  lemma MulPos(a: real, b: real)
    requires 0.0 < a && 0.0 < b
    ensures 0.0 < a * b
  {
  }

  /** clampAngle: at most one shift by 2*pi towards [-pi, pi]. */
  function ClampAngle(angle: real): (r: real)
    ensures r == angle || r == angle - TwoPi || r == angle + TwoPi
    ensures -Pi <= angle <= Pi ==> r == angle
    ensures -3.0 * Pi <= angle <= 3.0 * Pi ==> -Pi <= r <= Pi
  {
    if angle > Pi then angle - TwoPi
    else if angle < -Pi then angle + TwoPi
    else angle
  }

  /** The wrap is an odd function. */
  lemma ClampAngleOdd(x: real)
    ensures ClampAngle(-x) == -ClampAngle(x)
  {
  }

  /** The wrap of a difference of two angles that each lie in [-pi, pi]
      lands in [-pi, pi]. */
  lemma ClampAngleOfDifference(a: real, b: real)
    requires -Pi <= a <= Pi && -Pi <= b <= Pi
    ensures -Pi <= ClampAngle(a - b) <= Pi
    ensures ClampAngle(b - a) == -ClampAngle(a - b)
  {
    ClampAngleOdd(a - b);
  }
}
