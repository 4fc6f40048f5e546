/** Planar vectors (b2Vec2), edges, and the floating-point library calls the
    spring network depends on. The library calls (atan2, sqrt, sin, cos) are
    not computed: they are carried as function values of a `Math` record, and
    `Sound` states the only facts about them that the proofs use. */
module Geometry {
  import opened Util

  datatype Vec2 = Vec2(x: real, y: real)

  const Zero: Vec2 := Vec2(0.0, 0.0)

  function Add(a: Vec2, b: Vec2): Vec2 { Vec2(a.x + b.x, a.y + b.y) }
  function Sub(a: Vec2, b: Vec2): Vec2 { Vec2(a.x - b.x, a.y - b.y) }
  function Neg(a: Vec2): Vec2 { Vec2(-a.x, -a.y) }
  function Scale(k: real, a: Vec2): Vec2 { Vec2(k * a.x, k * a.y) }
  function SqLength(a: Vec2): (r: real)
    ensures r >= 0.0
  {
    a.x * a.x + a.y * a.y
  }

  /** An edge of a planar decomposition: two end points. */
  datatype Edge = Edge(a: Vec2, b: Vec2)

  /** The math library: atan2(y, x), sqrt, sin, cos. */
  datatype Math = Math(atan2: (real, real) -> real, sqrt: real -> real,
                       sin: real -> real, cos: real -> real)

  /** What the model assumes of the library: atan2 lies in [-pi, pi], sqrt is
      the non-negative square root, sin and cos lie in [-1, 1]. */
  ghost predicate Sound(m: Math) {
    && (forall y, x :: -Pi <= m.atan2(y, x) <= Pi)
    && (forall x :: 0.0 <= x ==> 0.0 <= m.sqrt(x) && m.sqrt(x) * m.sqrt(x) == x)
    && (forall x :: -1.0 <= m.sin(x) <= 1.0)
    && (forall x :: -1.0 <= m.cos(x) <= 1.0)
  }

  /** b2Vec2::Length. */
  function Length(m: Math, a: Vec2): real {
    m.sqrt(SqLength(a))
  }

  /** b2Distance(a, b) = |a - b|. */
  function Distance(m: Math, a: Vec2, b: Vec2): (d: real)
    requires Sound(m)
    ensures d >= 0.0
    ensures d * d == SqLength(Sub(a, b))
  {
    Length(m, Sub(a, b))
  }

  /** FLT_EPSILON, Box2D's b2_epsilon. */
  const Epsilon: real := 0.0000001192092896

  /** The direction atan2 gives a vector. */
  function Direction(m: Math, a: Vec2): (r: real)
    requires Sound(m)
    ensures -Pi <= r <= Pi
  {
    m.atan2(a.y, a.x)
  }

  /** b2Vec2::Normalize: a vector shorter than b2_epsilon is left unchanged,
      any other is divided by its length. */
  function Normalize(m: Math, a: Vec2): (u: Vec2)
    requires Sound(m)
    ensures Length(m, a) < Epsilon ==> u == a
    ensures Length(m, a) >= Epsilon ==> Scale(Length(m, a), u) == a
  {
    var len := Length(m, a);
    if len < Epsilon then a
    else
      assert len * (1.0 / len) == 1.0;
      assert len * ((1.0 / len) * a.x) == a.x;
      assert len * ((1.0 / len) * a.y) == a.y;
      Scale(1.0 / len, a)
  }

  /** Squaring is strictly increasing on the non-negative reals. */
  lemma SquareMonotone(a: real, b: real)
    requires 0.0 <= a < b
    ensures a * a < b * b
  {
    MulPos(b - a, b + a);
    assert (b - a) * (b + a) == b * b - a * a;
  }

  /** The square root is unique among non-negative reals. */
  lemma SqrtUnique(m: Math, x: real, r: real)
    requires Sound(m)
    requires 0.0 <= r && r * r == x
    ensures m.sqrt(x) == r
  {
    var s := m.sqrt(x);
    assert 0.0 <= s && s * s == x;
    if s > r {
      SquareMonotone(r, s);
      assert false;
    } else if s < r {
      SquareMonotone(s, r);
      assert false;
    }
  }

  /** By monotonicity of the root, a distance is within eps exactly when the
      squared distance is within eps squared. */
  lemma DistanceWithin(m: Math, a: Vec2, b: Vec2, eps: real)
    requires Sound(m) && 0.0 <= eps
    ensures Distance(m, a, b) <= eps <==> SqLength(Sub(a, b)) <= eps * eps
  {
    var d := Distance(m, a, b);
    if d < eps {
      SquareMonotone(d, eps);
    } else if d > eps {
      SquareMonotone(eps, d);
    }
  }
}
