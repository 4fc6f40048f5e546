/** Rest-angle set functions (RASFs): the generators that give each spring of
    a line its target angle from the relative angles recorded at the line's
    two ends, the spring's fractional position T along the line and the
    line's segment count. The source builds them as closures capturing one
    parameter; here a closure is a tagged value (`Rasf`) and calling it is
    `Evaluate`. */
module Rasf {
  import opened Util
  import opened Geometry

  /** A single-precision result that may be NaN. Only the averaging RASF can
      produce NaN (it divides by the number of recorded angles). */
  datatype Scalar = Num(v: real) | NaN

  /** The RASF_TYPE enumerators, in declaration order. */
  const RasfConstant: int := 0
  const RasfAverage: int := 1
  const RasfBasicLerp: int := 2
  const RasfRandomized: int := 3
  const RasfSinWave: int := 4
  const RasfPseudorandom: int := 5

  /** One RASF closure and the value it captured. */
  datatype Rasf =
    | Constant(angle: real)
    | AverageAngle(multiplier: real)
    | BasicLerp(multiplier: real)
    | Randomized(multiplier: real)
    | SinWave(multiplier: real)
    | Pseudorandom(multiplier: real)

  /** The RASF_TYPE tag naming each variant. */
  function Tag(f: Rasf): int {
    match f
    case Constant(_) => RasfConstant
    case AverageAngle(_) => RasfAverage
    case BasicLerp(_) => RasfBasicLerp
    case Randomized(_) => RasfRandomized
    case SinWave(_) => RasfSinWave
    case Pseudorandom(_) => RasfPseudorandom
  }

  /** The value the closure captured. */
  function Parameter(f: Rasf): real {
    match f
    case Constant(a) => a
    case AverageAngle(k) => k
    case BasicLerp(k) => k
    case Randomized(k) => k
    case SinWave(k) => k
    case Pseudorandom(k) => k
  }

  /** getRASF: the variant named by the tag, capturing `value`; any tag
      outside the enumeration falls back to the constant variant. */
  function GetRasf(kind: int, value: real): (f: Rasf)
    ensures RasfConstant <= kind <= RasfPseudorandom ==> Tag(f) == kind
    ensures !(RasfConstant <= kind <= RasfPseudorandom) ==> f == Constant(value)
    ensures Parameter(f) == value
  {
    if kind == RasfConstant then Constant(value)
    else if kind == RasfAverage then AverageAngle(value)
    else if kind == RasfBasicLerp then BasicLerp(value)
    else if kind == RasfRandomized then Randomized(value)
    else if kind == RasfSinWave then SinWave(value)
    else if kind == RasfPseudorandom then Pseudorandom(value)
    else Constant(value)
  }

  /** The tag and the captured value determine the closure. */
  lemma GetRasfRoundTrip(f: Rasf)
    ensures GetRasf(Tag(f), Parameter(f)) == f
  {
  }

  /** lerp(a, b, t) = a + t * (b - a). */
  function Lerp(a: real, b: real, t: real): (r: real)
    ensures t == 0.0 ==> r == a
    ensures t == 1.0 ==> r == b
  {
    a + t * (b - a)
  }

  /** For t in [0, 1] the lerp lies between its two end points. */
  lemma LerpBetween(a: real, b: real, t: real)
    requires 0.0 <= t <= 1.0
    ensures a <= b ==> a <= Lerp(a, b, t) <= b
    ensures b <= a ==> b <= Lerp(a, b, t) <= a
  {
    ScaleBetween(t, b - a);
  }

  /** Scaling commutes with the lerp. */
  lemma LerpScaled(k: real, a: real, b: real, t: real)
    ensures k * Lerp(a, b, t) == Lerp(k * a, k * b, t)
  {
    assert k * (b - a) == k * b - k * a;
    assert k * (t * (b - a)) == t * (k * (b - a));
    assert k * (a + t * (b - a)) == k * a + k * (t * (b - a));
  }

  /** The scan `if (abs(angle) > abs(best)) best = angle` over a list,
      starting from 0. */
  function Dominant(s: seq<real>): real {
    if s == [] then 0.0
    else
      var best := Dominant(s[..|s| - 1]);
      var x := s[|s| - 1];
      if Abs(x) > Abs(best) then x else best
  }

  /** The scan yields the signed entry of largest magnitude, the first such
      entry on ties, and 0 for an empty list. */
  lemma {:induction false} DominantIsFirstLargest(s: seq<real>)
    ensures s == [] ==> Dominant(s) == 0.0
    ensures forall i :: 0 <= i < |s| ==> Abs(s[i]) <= Abs(Dominant(s))
    ensures s != [] ==> exists k :: 0 <= k < |s| && s[k] == Dominant(s) &&
                          forall j :: 0 <= j < k ==> Abs(s[j]) < Abs(Dominant(s))
  {
    if s != [] {
      var init := s[..|s| - 1];
      DominantIsFirstLargest(init);
      assert forall i :: 0 <= i < |init| ==> s[i] == init[i];
      var x := s[|s| - 1];
      if Abs(x) > Abs(Dominant(init)) {
        assert s[|s| - 1] == Dominant(s);
      } else if init == [] {
        assert s[0] == 0.0 == Dominant(s);
      } else {
        var k :| 0 <= k < |init| && init[k] == Dominant(init) &&
                 forall j :: 0 <= j < k ==> Abs(init[j]) < Abs(Dominant(init));
        assert s[k] == Dominant(s);
      }
    }
  }

  /** The running sum of a list, first entry first. */
  function Sum(s: seq<real>): real {
    if s == [] then 0.0 else Sum(s[..|s| - 1]) + s[|s| - 1]
  }

  /** A sum of entries bounded by b in magnitude is bounded by |s| * b. */
  lemma {:induction false} SumBounded(s: seq<real>, b: real)
    requires forall i :: 0 <= i < |s| ==> Abs(s[i]) <= b
    ensures -(|s| as real * b) <= Sum(s) <= |s| as real * b
  {
    if s != [] {
      var init := s[..|s| - 1];
      assert forall i :: 0 <= i < |init| ==> init[i] == s[i];
      SumBounded(init, b);
      var x := s[|s| - 1];
      assert -b <= x <= b by { assert Abs(x) <= b; }
      assert |s| as real * b == |init| as real * b + b;
      assert Sum(s) == Sum(init) + x;
    }
  }

  /** The (unscaled) average of the negated start angles and the end angles:
      0/0, that is NaN, when there are none. */
  function MeanAngle(startAngles: seq<real>, endAngles: seq<real>): (r: Scalar)
    ensures r.NaN? <==> |startAngles| + |endAngles| == 0
    ensures r.Num? ==> r.v * (|startAngles| + |endAngles|) as real
                         == Sum(endAngles) - Sum(startAngles)
  {
    var count := |startAngles| + |endAngles|;
    if count == 0 then NaN
    else Num((Sum(endAngles) - Sum(startAngles)) / count as real)
  }

  /** A quotient by a positive count of a total within count * b lies
      within b. */
  lemma QuotientBounded(q: real, total: real, count: real, b: real)
    requires 0.0 < count && q * count == total && -(count * b) <= total <= count * b
    ensures -b <= q <= b
  {
    if q > b {
      MulPos(q - b, count);
      assert false;
    } else if q < -b {
      MulPos(-b - q, count);
      assert false;
    }
  }

  /** The arithmetic behind the mean's bound, over plain reals. */
  lemma MeanBounded(sumStart: real, sumEnd: real, ns: nat, ne: nat, b: real)
    requires ns + ne > 0
    requires -(ns as real * b) <= sumStart <= ns as real * b
    requires -(ne as real * b) <= sumEnd <= ne as real * b
    ensures -b <= (sumEnd - sumStart) / (ns + ne) as real <= b
  {
    var count := (ns + ne) as real;
    var q := (sumEnd - sumStart) / count;
    assert count * b == ns as real * b + ne as real * b;
    QuotientBounded(q, sumEnd - sumStart, count, b);
  }

  /** The mean lies within the common bound of the angles it averages. */
  lemma MeanAngleBounded(startAngles: seq<real>, endAngles: seq<real>, b: real)
    requires forall i :: 0 <= i < |startAngles| ==> Abs(startAngles[i]) <= b
    requires forall i :: 0 <= i < |endAngles| ==> Abs(endAngles[i]) <= b
    requires |startAngles| + |endAngles| > 0
    ensures -b <= MeanAngle(startAngles, endAngles).v <= b
  {
    SumBounded(startAngles, b);
    SumBounded(endAngles, b);
    MeanBounded(Sum(startAngles), Sum(endAngles), |startAngles|, |endAngles|, b);
  }

  /** The lerp variant for given dominant angles: multiplier / N times the
      interpolation from the negated start angle to the end angle. */
  function LerpBetweenEnds(multiplier: real, start: real, end: real, t: real, n: nat): (r: real)
    requires n >= 1
    ensures t == 0.0 ==> r == multiplier * (1.0 / n as real) * -start
    ensures t == 1.0 ==> r == multiplier * (1.0 / n as real) * end
  {
    var invNumSegments := 1.0 / n as real;
    multiplier * invNumSegments * Lerp(-start, end, t)
  }

  /** The lerp variant moves linearly in T: each value is the lerp of the
      values at T = 0 and T = 1, and for T in [0, 1] it lies between them. */
  lemma LerpBetweenEndsLinear(multiplier: real, start: real, end: real, t: real, n: nat)
    requires n >= 1
    ensures LerpBetweenEnds(multiplier, start, end, t, n)
         == Lerp(LerpBetweenEnds(multiplier, start, end, 0.0, n),
                 LerpBetweenEnds(multiplier, start, end, 1.0, n), t)
  {
    LerpScaled(multiplier * (1.0 / n as real), -start, end, t);
  }

  /** The lerp variant: the dominant angle of each list, then the
      interpolation between them. */
  function LerpRasf(multiplier: real, startAngles: seq<real>, endAngles: seq<real>,
                    t: real, n: nat): real
    requires n >= 1
  {
    var start := Dominant(startAngles);
    var end := Dominant(endAngles);
    LerpBetweenEnds(multiplier, start, end, t, n)
  }

  /** The averaging variant. */
  function AverageRasf(multiplier: real, startAngles: seq<real>, endAngles: seq<real>,
                       n: nat): (r: Scalar)
    requires n >= 1
    ensures r.NaN? <==> |startAngles| + |endAngles| == 0
    ensures r.Num? ==> r.v * n as real == multiplier * MeanAngle(startAngles, endAngles).v
  {
    var invNumSegments := 1.0 / n as real;
    match MeanAngle(startAngles, endAngles)
    case NaN => NaN
    case Num(mean) => Num(multiplier * invNumSegments * mean)
  }

  /** The constant variant: the captured angle, in degrees, as radians. */
  function ConstantRasf(angle: real): (r: real)
    ensures angle == 0.0 ==> r == 0.0
    ensures angle > 0.0 ==> r > 0.0
    ensures angle < 0.0 ==> r < 0.0
  {
    angle * DegToRad
  }

  const RandomizedMinimizer: real := 0.1
  const PseudorandomMinimizer: real := 0.4

  /** The randomized variant, for one draw of rand(). */
  function RandomizedRasf(multiplier: real, draw: Draw): (r: real)
    ensures 0.0 <= multiplier ==>
      multiplier * RandomizedMinimizer * (-90.0 * DegToRad) <= r
      <= multiplier * RandomizedMinimizer * (90.0 * DegToRad)
  {
    var u := RandomFloat(-90.0 * DegToRad, 90.0 * DegToRad, draw);
    var k := multiplier * RandomizedMinimizer;
    if 0.0 <= multiplier then
      ScaleInterval(k, u, -90.0 * DegToRad, 90.0 * DegToRad);
      k * u
    else k * u
  }

  /** The sine variant: one full period of sin over the line. */
  function SinWaveRasf(m: Math, multiplier: real, t: real): (r: real)
    requires Sound(m)
    ensures -Abs(multiplier) <= r <= Abs(multiplier)
  {
    var s := m.sin(t * (2.0 * Pi));
    UnitTimes(s, multiplier);
    s * multiplier
  }

  /** `unsigned int numInLine = T * numSegments`: truncation of a
      non-negative product. */
  function NumInLine(t: real, n: nat): (k: nat)
    requires 0.0 <= t
    ensures k as real <= t * n as real < k as real + 1.0
  {
    MulNonNeg(t, n as real);
    (t * n as real).Floor
  }

  /** The pseudorandom variant: a draw in [-90, -30] degrees for an even
      position index and in [30, 90] degrees for an odd one, scaled by 0.4.
      The captured multiplier is not used. */
  function PseudorandomRasf(multiplier: real, t: real, n: nat, draw: Draw): (r: real)
    requires 0.0 <= t
    ensures NumInLine(t, n) % 2 == 0 ==>
      PseudorandomMinimizer * (-90.0 * DegToRad) <= r <= PseudorandomMinimizer * (-30.0 * DegToRad)
    ensures NumInLine(t, n) % 2 == 1 ==>
      PseudorandomMinimizer * (30.0 * DegToRad) <= r <= PseudorandomMinimizer * (90.0 * DegToRad)
    ensures NumInLine(t, n) % 2 == 0 ==> r < 0.0
    ensures NumInLine(t, n) % 2 == 1 ==> r > 0.0
  {
    if NumInLine(t, n) % 2 == 0 then
      PseudorandomMinimizer * RandomFloat(-90.0 * DegToRad, -30.0 * DegToRad, draw)
    else
      PseudorandomMinimizer * RandomFloat(30.0 * DegToRad, 90.0 * DegToRad, draw)
  }

  /** Calling a RASF closure with (startAngles, endAngles, T, numSegments);
      `draw` is the value rand() would return to the variants that call it. */
  function Evaluate(f: Rasf, startAngles: seq<real>, endAngles: seq<real>,
                    t: real, n: nat, draw: Draw, m: Math): (r: Scalar)
    requires Sound(m) && n >= 1 && 0.0 <= t <= 1.0
    ensures r.NaN? <==> f.AverageAngle? && |startAngles| + |endAngles| == 0
  {
    match f
    case Constant(angle) => Num(ConstantRasf(angle))
    case AverageAngle(k) => AverageRasf(k, startAngles, endAngles, n)
    case BasicLerp(k) => Num(LerpRasf(k, startAngles, endAngles, t, n))
    case Randomized(k) => Num(RandomizedRasf(k, draw))
    case SinWave(k) => Num(SinWaveRasf(m, k, t))
    case Pseudorandom(k) => Num(PseudorandomRasf(k, t, n, draw))
  }

  /** The constant variant gives the same value for every call, whatever the
      lists, position, segment count and draw. */
  lemma ConstantUniform(angle: real, s1: seq<real>, e1: seq<real>, t1: real, n1: nat, d1: Draw,
                        s2: seq<real>, e2: seq<real>, t2: real, n2: nat, d2: Draw, m: Math)
    requires Sound(m) && n1 >= 1 && n2 >= 1 && 0.0 <= t1 <= 1.0 && 0.0 <= t2 <= 1.0
    ensures Evaluate(Constant(angle), s1, e1, t1, n1, d1, m)
         == Evaluate(Constant(angle), s2, e2, t2, n2, d2, m)
         == Num(angle * DegToRad)
  {
  }

  /** The averaging variant does not depend on T (nor on the draw). */
  lemma AverageIgnoresPosition(k: real, s: seq<real>, e: seq<real>, t1: real, t2: real,
                               n: nat, d1: Draw, d2: Draw, m: Math)
    requires Sound(m) && n >= 1 && 0.0 <= t1 <= 1.0 && 0.0 <= t2 <= 1.0
    ensures Evaluate(AverageAngle(k), s, e, t1, n, d1, m) == Evaluate(AverageAngle(k), s, e, t2, n, d2, m)
  {
  }

  /** The sine variant depends only on T and the multiplier. */
  lemma SinWaveIgnoresLists(k: real, s1: seq<real>, e1: seq<real>, n1: nat, d1: Draw,
                            s2: seq<real>, e2: seq<real>, n2: nat, d2: Draw, t: real, m: Math)
    requires Sound(m) && n1 >= 1 && n2 >= 1 && 0.0 <= t <= 1.0
    ensures Evaluate(SinWave(k), s1, e1, t, n1, d1, m) == Evaluate(SinWave(k), s2, e2, t, n2, d2, m)
  {
  }

  /** With every recorded angle within b, the averaging variant returns a
      number within |multiplier| * b / N. */
  lemma AverageRasfBounded(k: real, s: seq<real>, e: seq<real>, n: nat, b: real)
    requires n >= 1 && |s| + |e| > 0
    requires forall i :: 0 <= i < |s| ==> Abs(s[i]) <= b
    requires forall i :: 0 <= i < |e| ==> Abs(e[i]) <= b
    ensures AverageRasf(k, s, e, n).Num?
    ensures -(Abs(k) * b) <= AverageRasf(k, s, e, n).v * n as real <= Abs(k) * b
  {
    MeanAngleBounded(s, e, b);
    var mean := MeanAngle(s, e).v;
    assert AverageRasf(k, s, e, n).v * n as real == k * mean;
    ProductBounded(k, mean, b);
  }
}
