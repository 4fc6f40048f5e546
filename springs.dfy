/** The spring network: a Spring joins two consecutive bodies of a chain and
    pulls them towards their rest length and, when it has a previous body,
    turns the chain towards its rest angle; a SpringLine is one chain of
    springs between two points; the SpringWorld builds lines, joins their
    coincident ends and gives every spring its rest angle. */
module Springs {
  import opened Util
  import opened Geometry
  import opened Engine
  import opened Rasf
  import opened Forces
  import opened Topology
  import opened Tree

  /** Box2D units per pixel. */
  const InvScale: real := 1.0 / 30.0

  /** The rest angle every spring gets when its line is built, before the
      rest-angle function replaces it. */
  const InitialRestAngle: real := 10.0 * DegToRad

  /** An axis-aligned rectangle; its constructor takes the corners in the
      order minX, minY, maxX, maxY. */
  datatype Border = Border(minX: real, maxX: real, minY: real, maxY: real)

  function MakeBorder(minX: real, minY: real, maxX: real, maxY: real): (b: Border)
    ensures b.minX == minX && b.minY == minY && b.maxX == maxX && b.maxY == maxY
  {
    Border(minX, maxX, minY, maxY)
  }

  /** Strictly inside: a point on the border is outside. */
  predicate IsWithinBorder(b: Border, p: Vec2) {
    p.x > b.minX && p.x < b.maxX && p.y > b.minY && p.y < b.maxY
  }

  lemma BorderIsOutside(b: Border, p: Vec2)
    ensures IsWithinBorder(b, p) ==> b.minX < b.maxX && b.minY < b.maxY
    ensures (p.x == b.minX || p.x == b.maxX || p.y == b.minY || p.y == b.maxY) ==> !IsWithinBorder(b, p)
  {
  }

  /** The border of createSystem, given in pixels, in world units. */
  function ScaledBorder(b: Border): Border {
    Border(b.minX * InvScale, b.maxX * InvScale, b.minY * InvScale, b.maxY * InvScale)
  }

  /** A point is inside the scaled border exactly when the point scaled back
      to pixels is inside the original. */
  lemma ScaledBorderWithin(b: Border, p: Vec2)
    ensures IsWithinBorder(ScaledBorder(b), p) <==> IsWithinBorder(b, Scale(30.0, p))
  {
  }

  /** createSystem makes a line dynamic when either end is inside the border. */
  predicate IsDynamicEdge(b: Border, e: Edge) {
    IsWithinBorder(b, e.a) || IsWithinBorder(b, e.b)
  }

  /** Two segments per unit of length, truncated, and at least one. */
  function SegmentCount(length: real): (n: nat)
    requires length >= 0.0
    ensures n >= 1
    ensures 2.0 * length >= 1.0 ==> n as real <= 2.0 * length < n as real + 1.0
    ensures 2.0 * length < 1.0 ==> n == 1
  {
    var count := (2.0 * length).Floor;
    if count == 0 then 1 else count
  }

  /** Where body i of a line of n segments from `from` to `to` is placed. */
  function BodyPosition(from: Vec2, to: Vec2, n: nat, i: nat): Vec2
    requires n >= 1
  {
    Add(from, Scale(i as real / n as real, Sub(to, from)))
  }

  function BodyPositions(from: Vec2, to: Vec2, n: nat): (r: seq<Vec2>)
    requires n >= 1
    ensures |r| == n + 1
    ensures forall i | 0 <= i <= n :: r[i] == BodyPosition(from, to, n, i)
  {
    seq(n + 1, i requires 0 <= i <= n => BodyPosition(from, to, n, i))
  }

  /** The first body sits on the start point and the last on the end point. */
  lemma ChainEnds(from: Vec2, to: Vec2, n: nat)
    requires n >= 1
    ensures BodyPosition(from, to, n, 0) == from
    ensures BodyPosition(from, to, n, n) == to
  {
    assert n as real / n as real == 1.0;
  }

  /** Consecutive bodies are one n-th of the line apart, so every spring's
      rest length is the line's length divided by n. */
  lemma SegmentRestLength(m: Math, from: Vec2, to: Vec2, n: nat, i: nat)
    requires Sound(m) && n >= 1 && i < n
    ensures Distance(m, BodyPosition(from, to, n, i), BodyPosition(from, to, n, i + 1)) ==
            Length(m, Sub(to, from)) / n as real
  {
    var d := Sub(to, from);
    var k := 1.0 / n as real;
    var gap := Sub(BodyPosition(from, to, n, i), BodyPosition(from, to, n, i + 1));
    ConsecutiveGap(from, to, n, i);
    ScaledSqLength(-k, d);
    var len := Length(m, d);
    assert 0.0 <= len && len * len == SqLength(d);
    ScaledRoot(k, len, SqLength(d));
    assert len / n as real == k * len;
    SqrtUnique(m, SqLength(gap), k * len);
  }

  lemma ConsecutiveGap(from: Vec2, to: Vec2, n: nat, i: nat)
    requires n >= 1
    ensures Sub(BodyPosition(from, to, n, i), BodyPosition(from, to, n, i + 1)) ==
            Scale(-(1.0 / n as real), Sub(to, from))
  {
    var d := Sub(to, from);
    var t, k := i as real / n as real, 1.0 / n as real;
    assert (i + 1) as real / n as real == t + k;
    assert (t + k) * d.x == t * d.x + k * d.x;
    assert (t + k) * d.y == t * d.y + k * d.y;
  }

  lemma ScaledSqLength(c: real, d: Vec2)
    ensures SqLength(Scale(c, d)) == (c * c) * SqLength(d)
  {
    assert (c * d.x) * (c * d.x) == (c * c) * (d.x * d.x);
    assert (c * d.y) * (c * d.y) == (c * c) * (d.y * d.y);
  }

  lemma ScaledRoot(k: real, len: real, s: real)
    requires 0.0 <= k && 0.0 <= len && len * len == s
    ensures 0.0 <= k * len && (k * len) * (k * len) == ((-k) * (-k)) * s
  {
    MulNonNeg(k, len);
    assert (k * len) * (k * len) == (k * k) * (len * len);
  }

  /** One spring between two consecutive bodies of a line. */
  class Spring {
    var prevBody: Option<BodyId>
    const body: BodyId
    const nextBody: BodyId
    var restAngle: Scalar
    var baseLineAngle: real
    const restLength: real
    var linearK: real
    var rotK: real
    /** Which line the spring belongs to, and its place in that line. */
    ghost const line: nat
    ghost const index: nat

    /** Spring::Spring: the rest length is the distance between the two
        bodies when the spring is made; nothing else ever writes it. */
    constructor (world: BodyEngine, body: BodyId, nextBody: BodyId, ghost line: nat, ghost index: nat)
      requires world.Valid() && body < |world.positions| && nextBody < |world.positions|
      ensures this.body == body && this.nextBody == nextBody
      ensures this.line == line && this.index == index
      ensures restLength == Distance(world.math, world.positions[body], world.positions[nextBody])
      ensures prevBody == None && restAngle == Num(0.0) && baseLineAngle == 0.0
      ensures linearK == DefaultStiffness && rotK == DefaultStiffness
    {
      this.body := body;
      this.nextBody := nextBody;
      this.line := line;
      this.index := index;
      prevBody := None;
      restAngle := Num(0.0);
      baseLineAngle := 0.0;
      linearK := DefaultStiffness;
      rotK := DefaultStiffness;
      restLength := Distance(world.math, world.positions[body], world.positions[nextBody]);
    }

    /** Spring::setPrevBody: records the previous body and the base line
        angle of the three bodies as they stand. */
    method SetPrevBody(world: BodyEngine, prevBody: BodyId)
      requires world.Valid()
      requires prevBody < |world.positions| && body < |world.positions| && nextBody < |world.positions|
      modifies this`prevBody, this`baseLineAngle
      ensures this.prevBody == Some(prevBody)
      ensures baseLineAngle == BaseLineAngle(world.math, world.positions[prevBody],
                                             world.positions[body], world.positions[nextBody])
    {
      this.prevBody := Some(prevBody);
      var m := world.math;
      var diffVecPrev := Sub(world.positions[body], world.positions[prevBody]);
      var diffVecNext := Sub(world.positions[body], world.positions[nextBody]);
      var anglePrev := m.atan2(diffVecPrev.y, diffVecPrev.x);
      var angleNext := m.atan2(diffVecNext.y, diffVecNext.x);
      baseLineAngle := Pi - Abs(anglePrev - angleNext) - Pi;
    }

    method SetRestAngle(angle: real)
      modifies this`restAngle
      ensures restAngle == Num(angle)
    {
      restAngle := Num(angle);
    }

    /** Spring::updateForces: makes, in order, the ApplyForceToCenter calls
        that Applications lists, so it adds no net force to the world (see
        SpringConservesTotal). */
    method UpdateForces(world: BodyEngine)
      requires world.Valid()
      requires body < |world.positions| && nextBody < |world.positions|
      requires prevBody.Some? ==> prevBody.value < |world.positions|
      modifies world`forces
      ensures world.Valid()
      ensures world.forces ==
              Accumulate(old(world.forces), world.dynamic,
                         Applications(world.math, world.positions, linearK, rotK, restLength, restAngle,
                                      baseLineAngle, prevBody, body, nextBody))
    {
      ghost var f0 := world.forces;
      ghost var m := world.math;
      ghost var pb, pn := world.positions[body], world.positions[nextBody];
      ghost var linear := LinearApplications(m, linearK, restLength, body, nextBody, pb, pn);
      ApplyLinearForces(world);
      if prevBody.None? {
        return;
      }
      ghost var f1 := world.forces;
      ghost var pp := world.positions[prevBody.value];
      ghost var angular := AngularApplications(m, rotK, restAngle, baseLineAngle, prevBody.value, body, nextBody, pp, pb, pn);
      ApplyAngularForces(world);
      AccumulateAppend(f0, world.dynamic, linear, angular);
    }

    /** The distance spring: half the force on each body, along the line
        between them. */
    method ApplyLinearForces(world: BodyEngine)
      requires world.Valid()
      requires body < |world.positions| && nextBody < |world.positions|
      modifies world`forces
      ensures world.Valid()
      ensures world.forces ==
              Accumulate(old(world.forces), world.dynamic,
                         LinearApplications(world.math, linearK, restLength, body, nextBody,
                                            world.positions[body], world.positions[nextBody]))
    {
      var m := world.math;
      var pb, pn := world.positions[body], world.positions[nextBody];
      var distance := Distance(m, pb, pn);
      var force := linearK * (distance - restLength);
      var diffVec := Normalize(m, Sub(pn, pb));
      var f1, f2 := Finite(Scale(force / 2.0, diffVec)), Finite(Scale(force / 2.0, Neg(diffVec)));
      ghost var f0 := world.forces;
      assert force == LinearMagnitude(m, linearK, restLength, pb, pn);
      ghost var apps := [Application(body, f1), Application(nextBody, f2)];
      assert apps == LinearApplications(m, linearK, restLength, body, nextBody, pb, pn);
      AccumulateTwo(f0, world.dynamic, apps[0], apps[1]);
      world.ApplyForceToCenter(body, f1);
      world.ApplyForceToCenter(nextBody, f2);
    }

    /** The angular spring: a push on the previous and the next body
        perpendicular to their arms, and the opposite pushes on the body. */
    method ApplyAngularForces(world: BodyEngine)
      requires world.Valid() && prevBody.Some?
      requires prevBody.value < |world.positions| && body < |world.positions| && nextBody < |world.positions|
      modifies world`forces
      ensures world.Valid()
      ensures world.forces ==
              Accumulate(old(world.forces), world.dynamic,
                         AngularApplications(world.math, rotK, restAngle, baseLineAngle, prevBody.value, body, nextBody,
                                             world.positions[prevBody.value], world.positions[body],
                                             world.positions[nextBody]))
    {
      var m := world.math;
      var prev := prevBody.value;
      var pp, pb, pn := world.positions[prev], world.positions[body], world.positions[nextBody];
      var diffVecPrev := Sub(pb, pp);
      var diffVecNext := Sub(pb, pn);
      // The inner angle from dot and det, brought into [0, 2*pi).
      var angle := InnerAngle(m, diffVecPrev, diffVecNext);
      var half: Scalar := match restAngle
        case Num(rest) => Num((rotK * (angle - rest + baseLineAngle)) / 2.0)
        case NaN => NaN;
      var prevBodyForceVec := Normalize(m, Vec2(diffVecPrev.y, -diffVecPrev.x));
      var nextBodyForceVec := Normalize(m, Vec2(-diffVecNext.y, diffVecNext.x));
      var g1, g2 := Push(half, prevBodyForceVec), Push(half, nextBodyForceVec);
      var g3, g4 := Push(half, Neg(prevBodyForceVec)), Push(half, Neg(nextBodyForceVec));
      ghost var apps := [Application(prev, g1), Application(nextBody, g2), Application(body, g3), Application(body, g4)];
      assert half == HalfTorque(m, rotK, restAngle, baseLineAngle, diffVecPrev, diffVecNext);
      assert apps == AngularApplications(m, rotK, restAngle, baseLineAngle, prev, body, nextBody, pp, pb, pn);
      ghost var f0 := world.forces;
      world.ApplyForceToCenter(prev, g1);
      world.ApplyForceToCenter(nextBody, g2);
      world.ApplyForceToCenter(body, g3);
      world.ApplyForceToCenter(body, g4);
      AccumulateFour(f0, world.dynamic, apps[0], apps[1], apps[2], apps[3]);
    }
  }

  /** One chain of springs from startPoint to endPoint. */
  class SpringLine {
    const springs: seq<Spring>
    const startPoint: Vec2
    const endPoint: Vec2
    var startBody: Option<BodyId>
    var endBody: Option<BodyId>
    /** The relative angles of the lines joined at each end. */
    var startAngles: seq<real>
    var endAngles: seq<real>
    const restAngleFunc: Rasf
    const initialAngle: real
    /** The line's place in the world. */
    ghost const slot: nat

    /** SpringLine::SpringLine: no ends attached yet, no angles recorded, and
        the initial angle is the direction from the start to the end point. */
    constructor (m: Math, startPoint: Vec2, endPoint: Vec2, springs: seq<Spring>, restAngleFunc: Rasf,
                 ghost slot: nat)
      requires Sound(m)
      ensures this.startPoint == startPoint && this.endPoint == endPoint
      ensures this.springs == springs && this.restAngleFunc == restAngleFunc && this.slot == slot
      ensures startBody == None && endBody == None
      ensures startAngles == [] && endAngles == []
      ensures initialAngle == Direction(m, Sub(endPoint, startPoint))
    {
      this.startPoint := startPoint;
      this.endPoint := endPoint;
      this.springs := springs;
      this.restAngleFunc := restAngleFunc;
      this.slot := slot;
      startBody := None;
      endBody := None;
      startAngles := [];
      endAngles := [];
      var diffVector := Sub(endPoint, startPoint);
      initialAngle := m.atan2(diffVector.y, diffVector.x);
    }

    /** push_back on the list of the given end. */
    method PushAngle(side: Side, angle: real)
      modifies this`startAngles, this`endAngles
      ensures startAngles == old(startAngles) + (if side == Start then [angle] else [])
      ensures endAngles == old(endAngles) + (if side == End then [angle] else [])
    {
      if side == Start {
        startAngles := startAngles + [angle];
      } else {
        endAngles := endAngles + [angle];
      }
    }
  }

  /** Spring k of the i-th line, whose first body is `base`: it joins bodies
      base+k and base+k+1, has base+k-1 as its previous body from the second
      spring on, and its rest length is the distance between its two bodies. */
  ghost predicate SpringShape(s: Spring, i: nat, k: nat, base: nat, positions: seq<Vec2>, m: Math)
    reads s`prevBody
  {
    && s.line == i && s.index == k
    && s.body == base + k && s.nextBody == base + k + 1
    && s.prevBody == (if k == 0 then None else Some(base + k - 1))
    && s.nextBody < |positions|
    && Sound(m)
    && s.restLength == Distance(m, positions[s.body], positions[s.nextBody])
  }

  /** The i-th line of a world: n springs over the n+1 consecutive bodies
      startBody .. endBody, placed evenly from the start to the end point and
      all dynamic or all static. */
  ghost predicate LineShape(l: SpringLine, i: nat, positions: seq<Vec2>, dynamic: seq<bool>, m: Math)
    reads l`startBody, l`endBody, l.springs`prevBody
  {
    var n := |l.springs|;
    && Sound(m)
    && l.slot == i
    && n >= 1
    && l.startBody.Some? && l.endBody.Some?
    && l.endBody.value == l.startBody.value + n
    && l.endBody.value < |positions| && l.endBody.value < |dynamic|
    && positions[l.startBody.value .. l.endBody.value + 1] == BodyPositions(l.startPoint, l.endPoint, n)
    && (forall b | l.startBody.value <= b <= l.endBody.value :: dynamic[b] == dynamic[l.startBody.value])
    && (forall k | 0 <= k < n :: SpringShape(l.springs[k], i, k, l.startBody.value, positions, m))
  }

  /** Bodies created after a line keep its shape. */
  lemma LineShapeGrows(l: SpringLine, i: nat, p: seq<Vec2>, d: seq<bool>, p': seq<Vec2>, d': seq<bool>, m: Math)
    requires LineShape(l, i, p, d, m)
    requires |p| <= |p'| && p'[..|p|] == p && |d| <= |d'| && d'[..|d|] == d
    ensures LineShape(l, i, p', d', m)
  {
    var sb, eb := l.startBody.value, l.endBody.value;
    forall b | 0 <= b < |p| ensures p'[b] == p[b] {
      assert p'[..|p|][b] == p[b];
    }
    forall b | 0 <= b < |d| ensures d'[b] == d[b] {
      assert d'[..|d|][b] == d[b];
    }
    assert p'[sb .. eb + 1] == p[sb .. eb + 1];
  }

  /** A spring as createSpringLine leaves it: the rest angle of ten degrees,
      the default stiffnesses, and the base line angle of its three bodies
      when it has a previous body. */
  ghost predicate SpringBuilt(s: Spring, k: nat, base: nat, positions: seq<Vec2>, m: Math)
    reads s
  {
    && s.restAngle == Num(InitialRestAngle)
    && s.linearK == DefaultStiffness && s.rotK == DefaultStiffness
    && base + k + 1 < |positions| && Sound(m)
    && s.baseLineAngle ==
       (if k == 0 then 0.0
        else BaseLineAngle(m, positions[base + k - 1], positions[base + k], positions[base + k + 1]))
  }

  /** The springs of a chain whose first body is base, each one as
      createSpringLine leaves it. */
  ghost predicate ChainBuilt(springs: seq<Spring>, slot: nat, base: nat, positions: seq<Vec2>, m: Math)
    reads springs
  {
    forall k | 0 <= k < |springs| ::
      SpringShape(springs[k], slot, k, base, positions, m) && SpringBuilt(springs[k], k, base, positions, m)
  }

  lemma ChainBuiltSnoc(springs: seq<Spring>, s: Spring, slot: nat, base: nat, positions: seq<Vec2>, m: Math)
    requires ChainBuilt(springs, slot, base, positions, m)
    requires SpringShape(s, slot, |springs|, base, positions, m) && SpringBuilt(s, |springs|, base, positions, m)
    ensures ChainBuilt(springs + [s], slot, base, positions, m)
  {
    assert forall k | 0 <= k < |springs| :: (springs + [s])[k] == springs[k];
  }

  /** The chain's positions one body further on. */
  lemma PositionsSnoc(p0: seq<Vec2>, from: Vec2, to: Vec2, n: nat, i: nat)
    requires n >= 1 && i <= n
    ensures p0 + BodyPositions(from, to, n)[..i + 1] == p0 + BodyPositions(from, to, n)[..i] + [BodyPosition(from, to, n, i)]
  {
    assert BodyPositions(from, to, n)[..i + 1] == BodyPositions(from, to, n)[..i] + [BodyPosition(from, to, n, i)];
  }

  /** A line as createSpringLine leaves it, its first body being `base`. */
  ghost predicate LineBuilt(l: SpringLine, from: Vec2, to: Vec2, n: nat, f: Rasf, base: nat,
                            positions: seq<Vec2>, m: Math)
    reads l, l.springs
  {
    && l.startPoint == from && l.endPoint == to && l.restAngleFunc == f
    && |l.springs| == n
    && l.startBody == Some(base) && l.endBody == Some(base + n)
    && l.startAngles == [] && l.endAngles == []
    && Sound(m) && l.initialAngle == Direction(m, Sub(to, from))
    && (forall k | 0 <= k < n :: SpringBuilt(l.springs[k], k, base, positions, m))
  }

  /** What connectSpringLines reads of one line once its ends are attached. */
  ghost function EndsOf(l: SpringLine): LineEnds
    reads l`startBody, l`endBody
    requires l.startBody.Some? && l.endBody.Some?
  {
    LineEnds(l.startPoint, l.endPoint, l.startBody.value, l.endBody.value, l.initialAngle)
  }

  ghost predicate Attached(ls: seq<SpringLine>)
    reads ls`startBody, ls`endBody
  {
    forall k | 0 <= k < |ls| :: ls[k].startBody.Some? && ls[k].endBody.Some?
  }

  predicate BodiesWithin(e: seq<LineEnds>, n: nat) {
    forall k | 0 <= k < |e| :: e[k].startBody < n && e[k].endBody < n
  }

  /** What connectSpringLines reads of the first n lines of ls. */
  ghost function EndsUpTo(ls: seq<SpringLine>, n: nat): (r: seq<LineEnds>)
    reads ls`startBody, ls`endBody
    requires n <= |ls| && Attached(ls)
    ensures |r| == n
  {
    if n == 0 then [] else EndsUpTo(ls, n - 1) + [EndsOf(ls[n - 1])]
  }

  ghost function LinesEnds(ls: seq<SpringLine>): (r: seq<LineEnds>)
    reads ls`startBody, ls`endBody
    requires Attached(ls)
    ensures |r| == |ls|
  {
    EndsUpTo(ls, |ls|)
  }

  lemma {:induction false} EndsUpToAt(ls: seq<SpringLine>, n: nat, k: nat)
    requires Attached(ls) && k < n <= |ls|
    ensures EndsUpTo(ls, n)[k] == EndsOf(ls[k])
    decreases n
  {
    if k < n - 1 {
      EndsUpToAt(ls, n - 1, k);
    }
  }

  lemma LinesEndsAt(ls: seq<SpringLine>, k: nat)
    requires Attached(ls) && k < |ls|
    ensures ls[k].startBody.Some? && ls[k].endBody.Some?
    ensures LinesEnds(ls)[k] == EndsOf(ls[k])
  {
    EndsUpToAt(ls, |ls|, k);
  }

  /** The `side` angle lists of the first n lines of ls. */
  ghost function AnglesUpTo(ls: seq<SpringLine>, n: nat, side: Side): (r: seq<seq<real>>)
    reads ls`startAngles, ls`endAngles
    requires n <= |ls|
    ensures |r| == n
  {
    if n == 0 then []
    else AnglesUpTo(ls, n - 1, side) + [if side == Start then ls[n - 1].startAngles else ls[n - 1].endAngles]
  }

  /** The `side` angle lists of the lines ls. */
  ghost function AnglesOf(ls: seq<SpringLine>, side: Side): (r: seq<seq<real>>)
    reads ls`startAngles, ls`endAngles
    ensures |r| == |ls|
  {
    AnglesUpTo(ls, |ls|, side)
  }

  lemma {:induction false} AnglesUpToAt(ls: seq<SpringLine>, n: nat, k: nat, side: Side)
    requires k < n <= |ls|
    ensures AnglesUpTo(ls, n, side)[k] == if side == Start then ls[k].startAngles else ls[k].endAngles
    decreases n
  {
    if k < n - 1 {
      AnglesUpToAt(ls, n - 1, k, side);
    }
  }

  lemma AnglesOfAt(ls: seq<SpringLine>, k: nat, side: Side)
    requires k < |ls|
    ensures AnglesOf(ls, side)[k] == if side == Start then ls[k].startAngles else ls[k].endAngles
  {
    AnglesUpToAt(ls, |ls|, k, side);
  }

  /** The network of spring lines over one body engine. */
  class SpringWorld {
    const world: BodyEngine
    var springLines: seq<SpringLine>

    /** Every spring of every line. */
    ghost function AllSprings(): set<Spring>
      reads this
    {
      SpringsOf(springLines)
    }


    ghost predicate Shape()
      reads this, springLines`startBody, springLines`endBody, AllSprings()`prevBody, world`positions, world`dynamic
    {
      forall i {:trigger LineShape(springLines[i], i, world.positions, world.dynamic, world.math)} | 0 <= i < |springLines| ::
        LineShape(springLines[i], i, world.positions, world.dynamic, world.math)
    }

    ghost predicate Valid()
      reads this, world, springLines`startBody, springLines`endBody, AllSprings()`prevBody
    {
      world.Valid() && Attached(springLines) && Shape()
    }

    constructor (world: BodyEngine)
      requires world.Valid()
      ensures this.world == world && springLines == []
      ensures Valid()
    {
      this.world := world;
      springLines := [];
    }

    /** createSpringLine: numSegments + 1 new bodies evenly spaced from `from`
        to `to`, a spring between each two consecutive ones, and a new line
        over them appended to the world. */
    method CreateSpringLine(from: Vec2, to: Vec2, numSegments: nat, restAngleFunc: Rasf, dynamic: bool)
      requires Valid() && numSegments >= 1
      modifies this`springLines, world`positions, world`dynamic, world`forces
      ensures Valid()
      ensures |springLines| == |old(springLines)| + 1 && springLines[..|old(springLines)|] == old(springLines)
      ensures world.positions == old(world.positions) + BodyPositions(from, to, numSegments)
      ensures world.dynamic == old(world.dynamic) + Repeat(numSegments + 1, dynamic)
      ensures world.forces == old(world.forces) + Repeat(numSegments + 1, Finite(Zero))
      ensures fresh(springLines[|old(springLines)|])
      ensures forall k | 0 <= k < |springLines[|old(springLines)|].springs| ::
                fresh(springLines[|old(springLines)|].springs[k])
      ensures LineBuilt(springLines[|old(springLines)|], from, to, numSegments, restAngleFunc,
                        |old(world.positions)|, world.positions, world.math)
    {
      ghost var p0, d0 := world.positions, world.dynamic;
      ghost var base := |world.positions|;
      var springs, firstBody, lastBody := CreateChain(from, to, numSegments, dynamic, |springLines|);
      var line := MakeLine(from, to, numSegments, springs, restAngleFunc, firstBody, lastBody, |springLines|, base, dynamic);
      AddLine(line, p0, d0);
    }

    /** The new SpringLine over a finished chain, its end bodies set. */
    method MakeLine(from: Vec2, to: Vec2, numSegments: nat, springs: seq<Spring>, restAngleFunc: Rasf,
                    firstBody: Option<BodyId>, lastBody: Option<BodyId>, ghost slot: nat, ghost base: nat, ghost dynamic: bool)
      returns (line: SpringLine)
      requires world.Valid() && numSegments >= 1 && |springs| == numSegments
      requires firstBody == Some(base) && lastBody == Some(base + numSegments)
      requires base + numSegments + 1 <= |world.positions| && base + numSegments + 1 <= |world.dynamic|
      requires world.positions[base .. base + numSegments + 1] == BodyPositions(from, to, numSegments)
      requires forall b | base <= b <= base + numSegments :: world.dynamic[b] == dynamic
      requires ChainBuilt(springs, slot, base, world.positions, world.math)
      ensures fresh(line) && line.springs == springs
      ensures LineShape(line, slot, world.positions, world.dynamic, world.math)
      ensures LineBuilt(line, from, to, numSegments, restAngleFunc, base, world.positions, world.math)
    {
      line := new SpringLine(world.math, from, to, springs, restAngleFunc, slot);
      line.startBody := firstBody;
      line.endBody := lastBody;
    }

    /** The push_back of a new line whose bodies come after those of every
        line before it. */
    method AddLine(line: SpringLine, ghost p0: seq<Vec2>, ghost d0: seq<bool>)
      requires world.Valid()
      requires forall j | 0 <= j < |springLines| :: LineShape(springLines[j], j, p0, d0, world.math)
      requires |p0| <= |world.positions| && world.positions[..|p0|] == p0
      requires |d0| <= |world.dynamic| && world.dynamic[..|d0|] == d0
      requires LineShape(line, |springLines|, world.positions, world.dynamic, world.math)
      modifies this`springLines
      ensures Valid()
      ensures springLines == old(springLines) + [line]
    {
      ghost var p, d, m := world.positions, world.dynamic, world.math;
      springLines := springLines + [line];
      forall j | 0 <= j < |springLines| - 1 ensures LineShape(springLines[j], j, p, d, m) {
        LineShapeGrows(springLines[j], j, p0, d0, p, d, m);
      }
    }

    /** The loop of createSpringLine: the bodies and the springs between
        them, before any line owns them. */
    method CreateChain(from: Vec2, to: Vec2, numSegments: nat, dynamic: bool, ghost slot: nat)
      returns (springs: seq<Spring>, firstBody: Option<BodyId>, lastBody: Option<BodyId>)
      requires world.Valid() && numSegments >= 1
      modifies world`positions, world`dynamic, world`forces
      ensures world.Valid()
      ensures world.positions == old(world.positions) + BodyPositions(from, to, numSegments)
      ensures world.dynamic == old(world.dynamic) + Repeat(numSegments + 1, dynamic)
      ensures world.forces == old(world.forces) + Repeat(numSegments + 1, Finite(Zero))
      ensures firstBody == Some(|old(world.positions)|)
      ensures lastBody == Some(|old(world.positions)| + numSegments)
      ensures |springs| == numSegments
      ensures forall k | 0 <= k < numSegments :: fresh(springs[k])
      ensures ChainBuilt(springs, slot, |old(world.positions)|, world.positions, world.math)
    {
      var m := world.math;
      ghost var p0, d0 := world.positions, world.dynamic;
      ghost var base := |world.positions|;
      ghost var full := p0 + BodyPositions(from, to, numSegments);
      springs := [];
      var diffVector := Sub(to, from);
      firstBody := None;
      var prevPrevSpringBody: Option<BodyId> := None;
      var prevSpringBody: Option<BodyId> := None;
      var i := 0;
      while i < numSegments + 1
        invariant 0 <= i <= numSegments + 1
        invariant world.Valid()
        invariant world.positions == p0 + BodyPositions(from, to, numSegments)[..i]
        invariant world.dynamic == d0 + Repeat(i, dynamic)
        invariant world.forces == old(world.forces) + Repeat(i, Finite(Zero))
        invariant i == 0 ==> firstBody.None? && prevSpringBody.None? && springs == []
        invariant i > 0 ==> firstBody == Some(base) && prevSpringBody.Some? && prevSpringBody.value + 1 == base + i
        invariant i > 0 ==> |springs| + 1 == i
        invariant prevPrevSpringBody.None? <==> springs == []
        invariant prevPrevSpringBody.Some? ==> prevPrevSpringBody.value == base + |springs| - 1
        invariant forall k | 0 <= k < |springs| :: fresh(springs[k])
        invariant ChainBuilt(springs, slot, base, full, m)
      {
        var springBody := PlaceBody(from, to, numSegments, diffVector, dynamic, i, p0, d0, old(world.forces));
        if i == 0 {
          firstBody := Some(springBody);
        }
        if prevSpringBody.Some? {
          ChainPrefix(world.positions, full, p0, from, to, numSegments, i + 1);
          var s := ChainSpring(prevPrevSpringBody, prevSpringBody.value, springBody, slot, springs, base, full);
          springs := springs + [s];
          prevPrevSpringBody := prevSpringBody;
        }
        prevSpringBody := Some(springBody);
        i := i + 1;
      }
      lastBody := prevSpringBody;
      assert BodyPositions(from, to, numSegments)[..numSegments + 1] == BodyPositions(from, to, numSegments);
    }

    /** Body i of the chain: created at its place along the line. */
    method PlaceBody(from: Vec2, to: Vec2, numSegments: nat, diffVector: Vec2, dynamic: bool, i: nat,
                     ghost p0: seq<Vec2>, ghost d0: seq<bool>, ghost f0: seq<Force>)
      returns (id: BodyId)
      requires world.Valid() && numSegments >= 1 && i <= numSegments && diffVector == Sub(to, from)
      requires world.positions == p0 + BodyPositions(from, to, numSegments)[..i]
      requires world.dynamic == d0 + Repeat(i, dynamic)
      requires world.forces == f0 + Repeat(i, Finite(Zero))
      modifies world`positions, world`dynamic, world`forces
      ensures world.Valid() && id == |p0| + i
      ensures world.positions == p0 + BodyPositions(from, to, numSegments)[..i + 1]
      ensures world.dynamic == d0 + Repeat(i + 1, dynamic)
      ensures world.forces == f0 + Repeat(i + 1, Finite(Zero))
    {
      var bodyPos := Add(from, Scale(i as real / numSegments as real, diffVector));
      PositionsSnoc(p0, from, to, numSegments, i);
      RepeatSnoc(dynamic, i);
      RepeatSnoc(Finite(Zero), i);
      id := world.CreateBody(bodyPos, dynamic);
    }

    /** The spring after `springs` in a chain whose first body is base, as it
        reads in the positions full of the finished chain. */
    method ChainSpring(prevPrev: Option<BodyId>, prev: BodyId, body: BodyId, ghost slot: nat,
                       ghost springs: seq<Spring>, ghost base: nat, ghost full: seq<Vec2>)
      returns (s: Spring)
      requires world.Valid() && prev == base + |springs| && body == base + |springs| + 1 && body < |world.positions|
      requires prevPrev == (if |springs| == 0 then None else Some(base + |springs| - 1))
      requires |world.positions| <= |full| && forall b | 0 <= b < |world.positions| :: world.positions[b] == full[b]
      requires ChainBuilt(springs, slot, base, full, world.math)
      ensures fresh(s)
      ensures ChainBuilt(springs + [s], slot, base, full, world.math)
    {
      s := NewSpring(prevPrev, prev, body, slot, |springs|);
      ChainBuiltSnoc(springs, s, slot, base, full, world.math);
    }

    /** The body of the loop's `if (prevSpringBody)`: a spring from the previous
        body to the new one, told about the body before that if there is one,
        with the initial rest angle. */
    method NewSpring(prevPrev: Option<BodyId>, prev: BodyId, body: BodyId, ghost slot: nat, ghost index: nat)
      returns (s: Spring)
      requires world.Valid() && prev < |world.positions| && body < |world.positions|
      requires prevPrev.Some? ==> prevPrev.value < |world.positions|
      ensures fresh(s)
      ensures s.line == slot && s.index == index && s.body == prev && s.nextBody == body && s.prevBody == prevPrev
      ensures s.restLength == Distance(world.math, world.positions[prev], world.positions[body])
      ensures s.restAngle == Num(InitialRestAngle)
      ensures s.linearK == DefaultStiffness && s.rotK == DefaultStiffness
      ensures s.baseLineAngle ==
              (if prevPrev.None? then 0.0
               else BaseLineAngle(world.math, world.positions[prevPrev.value], world.positions[prev], world.positions[body]))
    {
      s := new Spring(world, prev, body, slot, index);
      if prevPrev.Some? {
        s.SetPrevBody(world, prevPrev.value);
      }
      s.SetRestAngle(InitialRestAngle);
    }

    /** What connectSpringLines reads of the lines. */
    ghost function Ends(): (r: seq<LineEnds>)
      reads this, springLines`startBody, springLines`endBody
      requires Attached(springLines)
      ensures |r| == |springLines|
    {
      LinesEnds(springLines)
    }

    /** Each line knows its place. */
    ghost predicate Slotted()
      reads this
    {
      forall k | 0 <= k < |springLines| :: springLines[k].slot == k
    }

    lemma ValidFacts()
      requires Valid()
      ensures Slotted() && Attached(springLines) && BodiesWithin(Ends(), |world.positions|)
    {
      forall k | 0 <= k < |springLines|
        ensures springLines[k].slot == k && springLines[k].startBody.Some? && springLines[k].endBody.Some?
      {
        assert LineShape(springLines[k], k, world.positions, world.dynamic, world.math);
      }
      forall k | 0 <= k < |springLines|
        ensures Ends()[k].startBody < |world.positions| && Ends()[k].endBody < |world.positions|
      {
        assert LineShape(springLines[k], k, world.positions, world.dynamic, world.math);
        LinesEndsAt(springLines, k);
      }
    }

    /** e is what connectSpringLines reads of the lines, each line knowing its slot. */
    ghost predicate EndsFixed(e: seq<LineEnds>)
      reads this, springLines`startBody, springLines`endBody, world`positions
    {
      Slotted() && Attached(springLines) && e == Ends() && BodiesWithin(e, |world.positions|)
    }

    /** What the loops of connectSpringLines rely on while they run. */
    ghost predicate Connecting(e: seq<LineEnds>, near: Coincidence -> bool)
      reads this, world, springLines`startBody, springLines`endBody
    {
      world.Valid() && NearIs(near, world.math, e) && EndsFixed(e)
    }

    /** The joints and the angle lists, as connectSpringLines builds them. */
    ghost function Model(): Connections
      reads this, world`joints, springLines`startAngles, springLines`endAngles
    {
      Connections(world.joints, AnglesOf(springLines, Start), AnglesOf(springLines, End))
    }

    /** One of the four tests of connectSpringLines: end si of line i and
        end sj of line j are joined when they lie within MinDistance. */
    method TestAndJoin(i: nat, si: Side, j: nat, sj: Side, ghost e: seq<LineEnds>, ghost near: Coincidence -> bool, ghost step: Step)
      requires i < j < |springLines| && Connecting(e, near) && IsJoiner(step, e)
      modifies world`joints, springLines`startAngles, springLines`endAngles
      ensures Connecting(e, near)
      ensures Model() == Tested(step, old(Model()), near, Coincidence(i, si, j, sj))
    {
      var s1, s2 := springLines[i], springLines[j];
      var p1 := if si == Start then s1.startPoint else s1.endPoint;
      var p2 := if sj == Start then s2.startPoint else s2.endPoint;
      LinesEndsAt(springLines, i);
      LinesEndsAt(springLines, j);
      assert NearAt(near, world.math, e, Coincidence(i, si, j, sj));
      if Distance(world.math, p1, p2) <= MinDistance {
        Join(i, si, j, sj, e);
      }
    }

    /** A joint between end si of line i and end sj of line j, and on each
        line's list at that end the other's initial angle relative to its
        own. */
    method Join(i: nat, si: Side, j: nat, sj: Side, ghost e: seq<LineEnds>)
      requires world.Valid() && i < j < |springLines| && EndsFixed(e)
      modifies world`joints, springLines`startAngles, springLines`endAngles
      ensures world.Valid() && EndsFixed(e)
      ensures Model() == JoinStep(e, old(Model()), Coincidence(i, si, j, sj))
    {
      var s1, s2 := springLines[i], springLines[j];
      ghost var c := Coincidence(i, si, j, sj);
      LinesEndsAt(springLines, i);
      LinesEndsAt(springLines, j);
      var bodyA := if si == Start then s1.startBody.value else s1.endBody.value;
      var bodyB := if sj == Start then s2.startBody.value else s2.endBody.value;
      assert Joint(bodyA, bodyB, false) == JointOf(e, c);
      Link(bodyA, bodyB, e);
      RecordAngles(i, si, j, sj, e);
    }

    /** The two angles of a joint: on line i's list at end si the initial
        angle of line j relative to its own, and the other way round. */
    method RecordAngles(i: nat, si: Side, j: nat, sj: Side, ghost e: seq<LineEnds>)
      requires i < j < |springLines| && EndsFixed(e)
      modifies springLines`startAngles, springLines`endAngles
      ensures EndsFixed(e)
      ensures AnglesOf(springLines, Start) == Contributed(e, Coincidence(i, si, j, sj), old(AnglesOf(springLines, Start)), Start)
      ensures AnglesOf(springLines, End) == Contributed(e, Coincidence(i, si, j, sj), old(AnglesOf(springLines, End)), End)
    {
      var s1, s2 := springLines[i], springLines[j];
      ghost var c := Coincidence(i, si, j, sj);
      ExtendTwice(e, c, AnglesOf(springLines, Start), Start);
      ExtendTwice(e, c, AnglesOf(springLines, End), End);
      LinesEndsAt(springLines, i);
      LinesEndsAt(springLines, j);
      var s1Angle := ClampAngle(s2.initialAngle - s1.initialAngle);
      var s2Angle := ClampAngle(s1.initialAngle - s2.initialAngle);
      assert s1Angle == FirstAngle(e, c) && s2Angle == SecondAngle(e, c);
      AppendAngle(s1, i, si, s1Angle, e);
      AppendAngle(s2, j, sj, s2Angle, e);
    }

    /** The joint of a coincidence; the angle lists stay as they are. */
    method Link(a: BodyId, b: BodyId, ghost e: seq<LineEnds>)
      requires world.Valid() && a < |world.positions| && b < |world.positions| && EndsFixed(e)
      modifies world`joints
      ensures world.Valid() && world.joints == old(world.joints) + [Joint(a, b, false)] && EndsFixed(e)
      ensures AnglesOf(springLines, Start) == old(AnglesOf(springLines, Start))
      ensures AnglesOf(springLines, End) == old(AnglesOf(springLines, End))
    {
      world.CreateJoint(a, b);
    }

    /** The push_back of an angle onto the `side` list of line k; the other
        lists stay as they are. */
    method AppendAngle(l: SpringLine, ghost k: nat, side: Side, a: real, ghost e: seq<LineEnds>)
      requires k < |springLines| && l == springLines[k] && EndsFixed(e)
      modifies l`startAngles, l`endAngles
      ensures EndsFixed(e)
      ensures AnglesOf(springLines, Start) == Extend(old(AnglesOf(springLines, Start)), k, if side == Start then [a] else [])
      ensures AnglesOf(springLines, End) == Extend(old(AnglesOf(springLines, End)), k, if side == End then [a] else [])
    {
      ghost var s0, e0 := AnglesOf(springLines, Start), AnglesOf(springLines, End);
      forall q | 0 <= q < |springLines|
        ensures s0[q] == springLines[q].startAngles && e0[q] == springLines[q].endAngles
      {
        AnglesOfAt(springLines, q, Start);
        AnglesOfAt(springLines, q, End);
      }
      l.PushAngle(side, a);
      forall q | 0 <= q < |springLines|
        ensures AnglesOf(springLines, Start)[q] == Extend(s0, k, if side == Start then [a] else [])[q]
        ensures AnglesOf(springLines, End)[q] == Extend(e0, k, if side == End then [a] else [])[q]
      {
        AnglesOfAt(springLines, q, Start);
        AnglesOfAt(springLines, q, End);
        assert springLines[q].slot == q;
      }
    }

    /** connectSpringLines: every coincidence found, in order, becomes a joint
        and two entries in the angle lists; the lines and their bodies stay. */
    method ConnectSpringLines()
      requires Valid()
      modifies world`joints, springLines`startAngles, springLines`endAngles
      ensures Valid() && Ends() == old(Ends())
      ensures AllInRange(Ends(), Coincidences(world.math, Ends()))
      ensures world.joints == old(world.joints) + JointsOf(Ends(), Coincidences(world.math, Ends()))
      ensures forall k | 0 <= k < |springLines| ::
                springLines[k].startAngles ==
                old(springLines[k].startAngles) + Appended(Ends(), Coincidences(world.math, Ends()), k, Start)
      ensures forall k | 0 <= k < |springLines| ::
                springLines[k].endAngles ==
                old(springLines[k].endAngles) + Appended(Ends(), Coincidences(world.math, Ends()), k, End)
    {
      ValidFacts();
      ghost var e := Ends();
      ghost var m0 := Model();
      forall k | 0 <= k < |springLines|
        ensures m0.starts[k] == springLines[k].startAngles && m0.ends[k] == springLines[k].endAngles
      {
        AnglesOfAt(springLines, k, Start);
        AnglesOfAt(springLines, k, End);
      }
      ConnectModel(e);
      ghost var cs := Coincidences(world.math, e);
      forall k | 0 <= k < |springLines|
        ensures springLines[k].startAngles == m0.starts[k] + Appended(e, cs, k, Start)
        ensures springLines[k].endAngles == m0.ends[k] + Appended(e, cs, k, End)
      {
        AnglesOfAt(springLines, k, Start);
        AnglesOfAt(springLines, k, End);
      }
    }

    /** connectSpringLines on the model: the coincidences found are handled
        one after another. */
    method ConnectModel(ghost e: seq<LineEnds>)
      requires Valid() && EndsFixed(e)
      modifies world`joints, springLines`startAngles, springLines`endAngles
      ensures Valid() && EndsFixed(e)
      ensures AllInRange(e, Coincidences(world.math, e))
      ensures Model() == Connections(old(Model()).joints + JointsOf(e, Coincidences(world.math, e)),
                                     AngleLists(e, Coincidences(world.math, e), old(Model()).starts, Start),
                                     AngleLists(e, Coincidences(world.math, e), old(Model()).ends, End))
    {
      ghost var near := Nearness(world.math, e);
      NearnessIs(world.math, e);
      ghost var step: Step := (b, c) => JoinStep(e, b, c);
      ghost var m0 := Model();
      ConnectFrame(e, near, step);
      PrefixResultIsApply(step, m0, near, |e|, |e|);
      CoincidencesExact(world.math, e);
      ApplyIs(e, step, m0, Coincidences(world.math, e));
    }

    /** The frame of the outer loop of connectSpringLines: the world stays
        valid and the lines, their ends and their springs stay as they are. */
    method ConnectFrame(ghost e: seq<LineEnds>, ghost near: Coincidence -> bool, ghost step: Step)
      requires Valid() && NearIs(near, world.math, e) && EndsFixed(e) && IsJoiner(step, e)
      modifies world`joints, springLines`startAngles, springLines`endAngles
      ensures Valid() && EndsFixed(e)
      ensures Model() == PrefixResult(step, old(Model()), near, |springLines|, |springLines|)
    {
      ConnectRows(e, near, step);
    }

    /** The outer loop of connectSpringLines: each line against every later one. */
    method ConnectRows(ghost e: seq<LineEnds>, ghost near: Coincidence -> bool, ghost step: Step)
      requires Connecting(e, near) && IsJoiner(step, e)
      modifies world`joints, springLines`startAngles, springLines`endAngles
      ensures Connecting(e, near)
      ensures Model() == PrefixResult(step, old(Model()), near, |springLines|, |springLines|)
    {
      ghost var m0 := Model();
      for i := 0 to |springLines|
        invariant Connecting(e, near)
        invariant Model() == PrefixResult(step, m0, near, i, |springLines|)
      {
        ConnectRow(i, e, near, step);
        PrefixStep(step, m0, near, i, |springLines|);
      }
    }

    /** The inner loop of connectSpringLines: line i against every later line. */
    method ConnectRow(i: nat, ghost e: seq<LineEnds>, ghost near: Coincidence -> bool, ghost step: Step)
      requires i < |springLines| && Connecting(e, near) && IsJoiner(step, e)
      modifies world`joints, springLines`startAngles, springLines`endAngles
      ensures Connecting(e, near)
      ensures Model() == RowResult(step, old(Model()), near, i, |springLines|)
    {
      ghost var m0 := Model();
      for j := i + 1 to |springLines|
        invariant Connecting(e, near)
        invariant Model() == RowResult(step, m0, near, i, j)
      {
        ConnectPair(i, j, e, near, step);
        RowStep(step, m0, near, i, j);
      }
    }

    /** The four tests of connectSpringLines for the lines i and j. */
    method ConnectPair(i: nat, j: nat, ghost e: seq<LineEnds>, ghost near: Coincidence -> bool, ghost step: Step)
      requires i < j < |springLines| && Connecting(e, near) && IsJoiner(step, e)
      modifies world`joints, springLines`startAngles, springLines`endAngles
      ensures Connecting(e, near)
      ensures Model() == PairResult(step, old(Model()), near, i, j)
    {
      TestAndJoin(i, Start, j, Start, e, near, step);
      TestAndJoin(i, Start, j, End, e, near, step);
      TestAndJoin(i, End, j, Start, e, near, step);
      TestAndJoin(i, End, j, End, e, near, step);
    }

    /** Every spring knows its line and its place in it. */
    ghost predicate Placed()
      reads this
    {
      forall q, j | 0 <= q < |springLines| && 0 <= j < |springLines[q].springs| ::
        springLines[q].springs[j].line == q && springLines[q].springs[j].index == j
    }

    lemma SpringPlaces()
      requires Valid()
      ensures Placed()
    {
      forall q, j | 0 <= q < |springLines| && 0 <= j < |springLines[q].springs|
        ensures springLines[q].springs[j].line == q && springLines[q].springs[j].index == j
      {
        assert LineShape(springLines[q], q, world.positions, world.dynamic, world.math);
      }
    }

    /** initRestAngles: spring i of line k gets the value of its line's
        rest-angle function at i/N, N being the line's spring count. */
    method InitRestAngles(draws: (nat, nat) -> Draw)
      requires Valid()
      modifies AllSprings()`restAngle
      ensures Valid()
      ensures forall k, i | 0 <= k < |springLines| && 0 <= i < |springLines[k].springs| ::
                springLines[k].springs[i].restAngle == RestAngleFor(springLines[k], k, i, draws, world.math)
    {
      SpringPlaces();
      for k := 0 to |springLines|
        invariant Valid() && Placed()
        invariant forall q, i | 0 <= q < k && 0 <= i < |springLines[q].springs| ::
                    springLines[q].springs[i].restAngle == RestAngleFor(springLines[q], q, i, draws, world.math)
      {
        InitLine(k, draws);
      }
    }

    /** initSpringWorld: the lines are joined where their ends meet, and then
        every spring gets its rest angle from the angle lists just built. */
    method InitSpringWorld(draws: (nat, nat) -> Draw)
      requires Valid()
      modifies world`joints, LineSet(springLines)`startAngles, LineSet(springLines)`endAngles, AllSprings()`restAngle
      ensures Valid() && Ends() == old(Ends())
      ensures AllInRange(Ends(), Coincidences(world.math, Ends()))
      ensures world.joints == old(world.joints) + JointsOf(Ends(), Coincidences(world.math, Ends()))
      ensures forall k | 0 <= k < |springLines| ::
                springLines[k].startAngles ==
                old(springLines[k].startAngles) + Appended(Ends(), Coincidences(world.math, Ends()), k, Start)
      ensures forall k | 0 <= k < |springLines| ::
                springLines[k].endAngles ==
                old(springLines[k].endAngles) + Appended(Ends(), Coincidences(world.math, Ends()), k, End)
      ensures forall k, i | 0 <= k < |springLines| && 0 <= i < |springLines[k].springs| ::
                springLines[k].springs[i].restAngle == RestAngleFor(springLines[k], k, i, draws, world.math)
    {
      ConnectSpringLines();
      InitRestAngles(draws);
    }

    /** The shared shape of the pattern builders: one createSpringLine call
        per edge, in order, each line sized and made dynamic or static as the
        layout r says, then initSpringWorld. */
    method Build(edges: seq<Edge>, func: Rasf, r: Layout, draws: (nat, nat) -> Draw)
      requires Valid() && LayoutOk(r)
      modifies this`springLines, world`positions, world`dynamic, world`forces, world`joints,
               springLines`startAngles, springLines`endAngles, AllSprings()`restAngle
      ensures Valid() && |springLines| == |old(springLines)| + |edges|
      ensures springLines[..|old(springLines)|] == old(springLines)
      ensures Built(springLines[|old(springLines)|..], edges, func, r)
      ensures world.positions == old(world.positions) + EdgePositions(edges, r)
      ensures world.dynamic == old(world.dynamic) + EdgeFlags(edges, r)
      ensures AllInRange(Ends(), Coincidences(world.math, Ends()))
      ensures world.joints == old(world.joints) + JointsOf(Ends(), Coincidences(world.math, Ends()))
      ensures forall k | 0 <= k < |old(springLines)| ::
                && springLines[k].startAngles ==
                   old(springLines[k].startAngles) + Appended(Ends(), Coincidences(world.math, Ends()), k, Start)
                && springLines[k].endAngles ==
                   old(springLines[k].endAngles) + Appended(Ends(), Coincidences(world.math, Ends()), k, End)
      ensures forall k | |old(springLines)| <= k < |springLines| ::
                && springLines[k].startAngles == Appended(Ends(), Coincidences(world.math, Ends()), k, Start)
                && springLines[k].endAngles == Appended(Ends(), Coincidences(world.math, Ends()), k, End)
      ensures forall k, i | 0 <= k < |springLines| && 0 <= i < |springLines[k].springs| ::
                springLines[k].springs[i].restAngle == RestAngleFor(springLines[k], k, i, draws, world.math)
    {
      ghost var n0, lines0 := |springLines|, springLines;
      LayLines(edges, func, r);
      SplitAt(springLines, n0);
      FrameSplit(lines0, springLines[n0..]);
      FinishPattern(lines0, edges, func, r, draws);
    }

    /** initSpringWorld once a pattern builder has laid its lines along the
        edges after the lines lines0. */
    method FinishPattern(ghost lines0: seq<SpringLine>, ghost edges: seq<Edge>, func: Rasf, r: Layout,
                         draws: (nat, nat) -> Draw)
      requires Valid() && Laid(springLines, lines0, edges, func, r)
      modifies world`joints, LineSet(springLines)`startAngles, LineSet(springLines)`endAngles, AllSprings()`restAngle
      ensures Valid() && |springLines| == |lines0| + |edges| && springLines[..|lines0|] == lines0
      ensures Built(springLines[|lines0|..], edges, func, r)
      ensures AllInRange(Ends(), Coincidences(world.math, Ends()))
      ensures world.joints == old(world.joints) + JointsOf(Ends(), Coincidences(world.math, Ends()))
      ensures forall k | 0 <= k < |lines0| ::
                && springLines[k].startAngles ==
                   old(springLines[k].startAngles) + Appended(Ends(), Coincidences(world.math, Ends()), k, Start)
                && springLines[k].endAngles ==
                   old(springLines[k].endAngles) + Appended(Ends(), Coincidences(world.math, Ends()), k, End)
      ensures forall k | |lines0| <= k < |springLines| ::
                && springLines[k].startAngles == Appended(Ends(), Coincidences(world.math, Ends()), k, Start)
                && springLines[k].endAngles == Appended(Ends(), Coincidences(world.math, Ends()), k, End)
      ensures forall k, i | 0 <= k < |springLines| && 0 <= i < |springLines[k].springs| ::
                springLines[k].springs[i].restAngle == RestAngleFor(springLines[k], k, i, draws, world.math)
    {
      LaidLines(lines0, edges, func, r);
      InitSpringWorld(draws);
    }

    /** createSpringBox: four dynamic lines of numSegments springs around the
        square from (-5, -5) to (5, 5), with one rest-angle function, then
        initSpringWorld. In an empty world the box has one joint at each
        corner and one recorded angle at each end of each line. */
    method CreateSpringBox(numSegments: nat, kind: int, sideAngle: real, draws: (nat, nat) -> Draw)
      requires Valid() && numSegments >= 1
      modifies this`springLines, world`positions, world`dynamic, world`forces, world`joints,
               springLines`startAngles, springLines`endAngles, AllSprings()`restAngle
      ensures Valid() && |springLines| == |old(springLines)| + 4
      ensures springLines[..|old(springLines)|] == old(springLines)
      ensures Built(springLines[|old(springLines)|..], BoxEdges, GetRasf(kind, sideAngle), Fixed(numSegments))
      ensures world.positions == old(world.positions) + EdgePositions(BoxEdges, Fixed(numSegments))
      ensures world.dynamic == old(world.dynamic) + Repeat(4 * (numSegments + 1), true)
      ensures AllInRange(Ends(), Coincidences(world.math, Ends()))
      ensures world.joints == old(world.joints) + JointsOf(Ends(), Coincidences(world.math, Ends()))
      ensures forall k, i | 0 <= k < |springLines| && 0 <= i < |springLines[k].springs| ::
                springLines[k].springs[i].restAngle == RestAngleFor(springLines[k], k, i, draws, world.math)
      ensures old(springLines) == [] ==>
                && IsBox(Ends()) && Coincidences(world.math, Ends()) == BoxCornerList
                && forall k | 0 <= k < 4 :: |springLines[k].startAngles| == 1 && |springLines[k].endAngles| == 1
    {
      var func := GetRasf(kind, sideAngle);
      ghost var n0 := |springLines|;
      Build(BoxEdges, func, Fixed(numSegments), draws);
      FixedFlags(BoxEdges, numSegments);
      if n0 == 0 {
        ValidFacts();
        ghost var e := Ends();
        AlongBox(springLines, func);
        BoxCorners(world.math, e);
        BoxAngleLists(world.math, e);
        ghost var cs := Coincidences(world.math, e);
        forall k | 0 <= k < 4
          ensures |springLines[k].startAngles| == 1 && |springLines[k].endAngles| == 1
        {
          assert springLines[k].startAngles == Appended(e, cs, k, Start);
          assert springLines[k].endAngles == Appended(e, cs, k, End);
        }
      }
    }

    /** createSquiggle: three dynamic lines of numSegments springs, from
        (-10, -5) to (0, -5), up to (0, 5) and on to (10, 5), with one
        rest-angle function, then initSpringWorld. In an empty world the
        lines are joined at the two bends and nowhere else. */
    method CreateSquiggle(numSegments: nat, kind: int, angleSeverity: real, draws: (nat, nat) -> Draw)
      requires Valid() && numSegments >= 1
      modifies this`springLines, world`positions, world`dynamic, world`forces, world`joints,
               springLines`startAngles, springLines`endAngles, AllSprings()`restAngle
      ensures Valid() && |springLines| == |old(springLines)| + 3
      ensures springLines[..|old(springLines)|] == old(springLines)
      ensures Built(springLines[|old(springLines)|..], SquiggleEdges, GetRasf(kind, angleSeverity), Fixed(numSegments))
      ensures world.positions == old(world.positions) + EdgePositions(SquiggleEdges, Fixed(numSegments))
      ensures world.dynamic == old(world.dynamic) + Repeat(3 * (numSegments + 1), true)
      ensures AllInRange(Ends(), Coincidences(world.math, Ends()))
      ensures world.joints == old(world.joints) + JointsOf(Ends(), Coincidences(world.math, Ends()))
      ensures forall k, i | 0 <= k < |springLines| && 0 <= i < |springLines[k].springs| ::
                springLines[k].springs[i].restAngle == RestAngleFor(springLines[k], k, i, draws, world.math)
      ensures old(springLines) == [] ==>
                IsSquiggle(Ends()) && Coincidences(world.math, Ends()) == SquiggleJointList
    {
      var func := GetRasf(kind, angleSeverity);
      ghost var n0 := |springLines|;
      Build(SquiggleEdges, func, Fixed(numSegments), draws);
      FixedFlags(SquiggleEdges, numSegments);
      if n0 == 0 {
        ValidFacts();
        AlongSquiggle(springLines, func);
        SquiggleJoints(world.math, Ends());
      }
    }

    /** createSystem: a line along each edge, in order, of two segments per
        unit of the edge's length (at least one), dynamic exactly when an end
        of the edge lies inside the border scaled from pixels to world
        units, then initSpringWorld. */
    method CreateSystem(border: Border, edges: seq<Edge>, kind: int, angleSeverity: real, draws: (nat, nat) -> Draw)
      requires Valid()
      modifies this`springLines, world`positions, world`dynamic, world`forces, world`joints,
               springLines`startAngles, springLines`endAngles, AllSprings()`restAngle
      ensures Valid() && |springLines| == |old(springLines)| + |edges|
      ensures springLines[..|old(springLines)|] == old(springLines)
      ensures Built(springLines[|old(springLines)|..], edges, GetRasf(kind, angleSeverity),
                    Measured(world.math, Some(ScaledBorder(border))))
      ensures world.positions ==
              old(world.positions) + EdgePositions(edges, Measured(world.math, Some(ScaledBorder(border))))
      ensures world.dynamic ==
              old(world.dynamic) + EdgeFlags(edges, Measured(world.math, Some(ScaledBorder(border))))
      ensures AllInRange(Ends(), Coincidences(world.math, Ends()))
      ensures world.joints == old(world.joints) + JointsOf(Ends(), Coincidences(world.math, Ends()))
      ensures forall k, i | 0 <= k < |springLines| && 0 <= i < |springLines[k].springs| ::
                springLines[k].springs[i].restAngle == RestAngleFor(springLines[k], k, i, draws, world.math)
    {
      var func := GetRasf(kind, angleSeverity);
      var scaled := ScaledBorder(border);
      Build(edges, func, Measured(world.math, Some(scaled)), draws);
    }

    /** createFractalTree: the tree of the given depth from (0, 10) pointing
        straight down, each branch a dynamic line of two segments per unit
        of its length, then initSpringWorld. A tree of depth d has 2^d - 1
        branches, drawn from the root outwards. */
    method CreateFractalTree(fractalDepth: nat, kind: int, angleSeverity: real, draws: (nat, nat) -> Draw)
      requires Valid()
      modifies this`springLines, world`positions, world`dynamic, world`forces, world`joints,
               springLines`startAngles, springLines`endAngles, AllSprings()`restAngle
      ensures Valid() && |springLines| == |old(springLines)| + Pow2(fractalDepth) - 1
      ensures springLines[..|old(springLines)|] == old(springLines)
      ensures Built(springLines[|old(springLines)|..], TreeEdges(world.math, TreeRoot, TreeAngle, fractalDepth),
                    GetRasf(kind, angleSeverity), Measured(world.math, None))
      ensures Grown(TreeEdges(world.math, TreeRoot, TreeAngle, fractalDepth), TreeRoot)
      ensures world.positions ==
              old(world.positions) + EdgePositions(TreeEdges(world.math, TreeRoot, TreeAngle, fractalDepth),
                                                   Measured(world.math, None))
      ensures world.dynamic == old(world.dynamic) + Repeat(|world.positions| - |old(world.positions)|, true)
      ensures AllInRange(Ends(), Coincidences(world.math, Ends()))
      ensures world.joints == old(world.joints) + JointsOf(Ends(), Coincidences(world.math, Ends()))
      ensures forall k, i | 0 <= k < |springLines| && 0 <= i < |springLines[k].springs| ::
                springLines[k].springs[i].restAngle == RestAngleFor(springLines[k], k, i, draws, world.math)
    {
      var func := GetRasf(kind, angleSeverity);
      BuildTree(TreeRoot, TreeAngle, fractalDepth, func, draws);
      TreeSize(world.math, TreeRoot, TreeAngle, fractalDepth);
      TreeGrown(world.math, TreeRoot, TreeAngle, fractalDepth);
      DynamicFlags(TreeEdges(world.math, TreeRoot, TreeAngle, fractalDepth), Measured(world.math, None));
    }

    /** drawTree and then initSpringWorld: Build, for the branches of the tree. */
    method BuildTree(p: Vec2, angle: real, depth: nat, func: Rasf, draws: (nat, nat) -> Draw)
      requires Valid()
      modifies this`springLines, world`positions, world`dynamic, world`forces, world`joints,
               springLines`startAngles, springLines`endAngles, AllSprings()`restAngle
      ensures Valid() && |springLines| == |old(springLines)| + |TreeEdges(world.math, p, angle, depth)|
      ensures springLines[..|old(springLines)|] == old(springLines)
      ensures Built(springLines[|old(springLines)|..], TreeEdges(world.math, p, angle, depth), func, Measured(world.math, None))
      ensures world.positions ==
              old(world.positions) + EdgePositions(TreeEdges(world.math, p, angle, depth), Measured(world.math, None))
      ensures world.dynamic ==
              old(world.dynamic) + EdgeFlags(TreeEdges(world.math, p, angle, depth), Measured(world.math, None))
      ensures AllInRange(Ends(), Coincidences(world.math, Ends()))
      ensures world.joints == old(world.joints) + JointsOf(Ends(), Coincidences(world.math, Ends()))
      ensures forall k, i | 0 <= k < |springLines| && 0 <= i < |springLines[k].springs| ::
                springLines[k].springs[i].restAngle == RestAngleFor(springLines[k], k, i, draws, world.math)
    {
      ghost var n0, lines0 := |springLines|, springLines;
      DrawTree(p, angle, depth, func);
      SplitAt(springLines, n0);
      FrameSplit(lines0, springLines[n0..]);
      FinishPattern(lines0, TreeEdges(world.math, p, angle, depth), func, Measured(world.math, None), draws);
    }

    /** drawTree: nothing at depth 0; otherwise the branch of that depth from
        p at the given angle, a dynamic line of two segments per unit of its
        length, and then the two subtrees of one less depth from its end,
        turned 20 degrees one way and then the other. */
    method DrawTree(p: Vec2, angle: real, depth: nat, func: Rasf)
      requires Valid()
      modifies this`springLines, world`positions, world`dynamic, world`forces
      ensures Valid() && Laid(springLines, old(springLines), TreeEdges(world.math, p, angle, depth), func,
                              Measured(world.math, None))
      ensures world.positions ==
              old(world.positions) + EdgePositions(TreeEdges(world.math, p, angle, depth), Measured(world.math, None))
      ensures world.dynamic ==
              old(world.dynamic) + EdgeFlags(TreeEdges(world.math, p, angle, depth), Measured(world.math, None))
      ensures fresh(LineSet(springLines[|old(springLines)|..])) && fresh(SpringsOf(springLines[|old(springLines)|..]))
      decreases depth, 1
    {
      if depth > 0 {
        var m := world.math;
        var q := BranchEnd(m, p, angle, depth);
        ghost var lines0, p0, d0 := springLines, world.positions, world.dynamic;
        NoneLaid(springLines, func, Measured(m, None));
        AddSide(Edge(p, q), func, Measured(m, None), lines0, p0, d0, []);
        ghost var ls := springLines;
        Subtrees(p, angle, depth, func, lines0, p0, d0);
        SuffixSets(ls, springLines, |lines0|);
      } else {
        NoneLaid(springLines, func, Measured(world.math, None));
        EmptySuffix(springLines);
      }
    }

    /** The two subtrees drawTree draws from the end of its branch of the
        given depth from p: with that branch, the whole tree. */
    method Subtrees(p: Vec2, angle: real, depth: nat, func: Rasf, ghost lines0: seq<SpringLine>,
                    ghost p0: seq<Vec2>, ghost d0: seq<bool>)
      requires depth > 0 && Valid()
      requires Laid(springLines, lines0, [] + [Edge(p, BranchEnd(world.math, p, angle, depth))], func, Measured(world.math, None))
      requires world.positions == p0 + EdgePositions([] + [Edge(p, BranchEnd(world.math, p, angle, depth))], Measured(world.math, None))
      requires world.dynamic == d0 + EdgeFlags([] + [Edge(p, BranchEnd(world.math, p, angle, depth))], Measured(world.math, None))
      modifies this`springLines, world`positions, world`dynamic, world`forces
      ensures Valid() && Laid(springLines, lines0, TreeEdges(world.math, p, angle, depth), func, Measured(world.math, None))
      ensures world.positions == p0 + EdgePositions(TreeEdges(world.math, p, angle, depth), Measured(world.math, None))
      ensures world.dynamic == d0 + EdgeFlags(TreeEdges(world.math, p, angle, depth), Measured(world.math, None))
      ensures |old(springLines)| <= |springLines| && springLines[..|old(springLines)|] == old(springLines)
      ensures fresh(LineSet(springLines[|old(springLines)|..])) && fresh(SpringsOf(springLines[|old(springLines)|..]))
      decreases depth, 0
    {
      var m := world.math;
      var q := BranchEnd(m, p, angle, depth);
      SubtreePair(q, angle, depth - 1, func, lines0, p0, d0, Edge(p, q));
      TreeSplit(m, p, angle, depth);
      LaidAs(springLines, lines0, [Edge(p, q)] + TreeEdges(m, q, angle - Turn, depth - 1) +
             TreeEdges(m, q, angle + Turn, depth - 1), TreeEdges(m, p, angle, depth), func,
             Measured(m, None), p0, d0, world.positions, world.dynamic);
    }

    /** The subtrees of the given depth from q, turned one way and then the
        other, after the branch e that ends at q. */
    method SubtreePair(q: Vec2, angle: real, depth: nat, func: Rasf, ghost lines0: seq<SpringLine>,
                       ghost p0: seq<Vec2>, ghost d0: seq<bool>, ghost e: Edge)
      requires Valid() && Laid(springLines, lines0, [] + [e], func, Measured(world.math, None))
      requires world.positions == p0 + EdgePositions([] + [e], Measured(world.math, None))
      requires world.dynamic == d0 + EdgeFlags([] + [e], Measured(world.math, None))
      modifies this`springLines, world`positions, world`dynamic, world`forces
      ensures Valid()
      ensures Laid(springLines, lines0, [e] + TreeEdges(world.math, q, angle - Turn, depth) +
                   TreeEdges(world.math, q, angle + Turn, depth), func, Measured(world.math, None))
      ensures world.positions == p0 + EdgePositions([e] + TreeEdges(world.math, q, angle - Turn, depth) +
                                                    TreeEdges(world.math, q, angle + Turn, depth), Measured(world.math, None))
      ensures world.dynamic == d0 + EdgeFlags([e] + TreeEdges(world.math, q, angle - Turn, depth) +
                                              TreeEdges(world.math, q, angle + Turn, depth), Measured(world.math, None))
      ensures |old(springLines)| <= |springLines| && springLines[..|old(springLines)|] == old(springLines)
      ensures fresh(LineSet(springLines[|old(springLines)|..])) && fresh(SpringsOf(springLines[|old(springLines)|..]))
      decreases depth, 3
    {
      assert [] + [e] == [e];
      ghost var ls := springLines;
      Subtree(q, angle - Turn, depth, func, lines0, p0, d0, [e]);
      ghost var ls' := springLines;
      Subtree(q, angle + Turn, depth, func, lines0, p0, d0, [e] + TreeEdges(world.math, q, angle - Turn, depth));
      SuffixSets(ls', springLines, |ls|);
    }

    /** drawTree for one subtree, after the lines laid along the edges: its
        branches come after them, and its lines and springs are new. */
    method Subtree(p: Vec2, angle: real, depth: nat, func: Rasf, ghost lines0: seq<SpringLine>,
                   ghost p0: seq<Vec2>, ghost d0: seq<bool>, ghost edges: seq<Edge>)
      requires Valid() && Laid(springLines, lines0, edges, func, Measured(world.math, None))
      requires world.positions == p0 + EdgePositions(edges, Measured(world.math, None))
      requires world.dynamic == d0 + EdgeFlags(edges, Measured(world.math, None))
      modifies this`springLines, world`positions, world`dynamic, world`forces
      ensures Valid()
      ensures Laid(springLines, lines0, edges + TreeEdges(world.math, p, angle, depth), func, Measured(world.math, None))
      ensures world.positions == p0 + EdgePositions(edges + TreeEdges(world.math, p, angle, depth), Measured(world.math, None))
      ensures world.dynamic == d0 + EdgeFlags(edges + TreeEdges(world.math, p, angle, depth), Measured(world.math, None))
      ensures |old(springLines)| <= |springLines| && springLines[..|old(springLines)|] == old(springLines)
      ensures fresh(LineSet(springLines[|old(springLines)|..])) && fresh(SpringsOf(springLines[|old(springLines)|..]))
      decreases depth, 2
    {
      ghost var ls := springLines;
      DrawTree(p, angle, depth, func);
      ghost var r, tree := Measured(world.math, None), TreeEdges(world.math, p, angle, depth);
      LaidConcat(ls, springLines, lines0, edges, tree, func, r);
      BodiesConcat(edges, tree, r);
      ConcatAssoc(p0, EdgePositions(edges, r), EdgePositions(tree, r));
      ConcatAssoc(d0, EdgeFlags(edges, r), EdgeFlags(tree, r));
    }

    /** One createSpringLine call per edge, in order, each line sized and
        made dynamic or static as the layout r says. */
    method LayLines(edges: seq<Edge>, func: Rasf, r: Layout)
      requires Valid() && LayoutOk(r)
      modifies this`springLines, world`positions, world`dynamic, world`forces
      ensures Valid() && Laid(springLines, old(springLines), edges, func, r)
      ensures world.positions == old(world.positions) + EdgePositions(edges, r)
      ensures world.dynamic == old(world.dynamic) + EdgeFlags(edges, r)
      ensures fresh(LineSet(springLines[|old(springLines)|..])) && fresh(SpringsOf(springLines[|old(springLines)|..]))
      decreases |edges|
    {
      if edges != [] {
        var init, e := edges[..|edges| - 1], edges[|edges| - 1];
        LayLines(init, func, r);
        ghost var ls := springLines;
        AddSide(e, func, r, old(springLines), old(world.positions), old(world.dynamic), init);
        SplitLast(edges);
        SuffixSets(ls, springLines, |old(springLines)|);
      } else {
        EmptySuffix(springLines);
      }
    }

    /** createSpringLine along e, after the lines laid along the edges: the
        new line comes last, with its bodies after all the others, and it
        and its springs are new. */
    method AddSide(e: Edge, func: Rasf, r: Layout, ghost lines0: seq<SpringLine>, ghost p0: seq<Vec2>,
                   ghost d0: seq<bool>, ghost edges: seq<Edge>)
      requires Valid() && Laid(springLines, lines0, edges, func, r)
      requires world.positions == p0 + EdgePositions(edges, r) && world.dynamic == d0 + EdgeFlags(edges, r)
      modifies this`springLines, world`positions, world`dynamic, world`forces
      ensures Valid() && Laid(springLines, lines0, edges + [e], func, r)
      ensures world.positions == p0 + EdgePositions(edges + [e], r) && world.dynamic == d0 + EdgeFlags(edges + [e], r)
      ensures |springLines| == |old(springLines)| + 1 && springLines[..|old(springLines)|] == old(springLines)
      ensures fresh(LineSet(springLines[|old(springLines)|..])) && fresh(SpringsOf(springLines[|old(springLines)|..]))
    {
      ghost var ls := springLines;
      CreateEdgeLine(e, Segments(r, e), func, Dynamic(r, e));
      LaidSnoc(ls, lines0, edges, func, r, springLines[|ls|], e);
      BodiesSnoc(p0, d0, edges, e, r);
    }

    /** The Edge overload of createSpringLine, stated by what the pattern
        builders need of it: one new line along the edge, with no angles yet. */
    method CreateEdgeLine(e: Edge, numSegments: nat, func: Rasf, dynamic: bool)
      requires Valid() && numSegments >= 1
      modifies this`springLines, world`positions, world`dynamic, world`forces
      ensures Valid()
      ensures |springLines| == |old(springLines)| + 1 && springLines[..|old(springLines)|] == old(springLines)
      ensures springLines == old(springLines) + [springLines[|old(springLines)|]]
      ensures world.positions == old(world.positions) + BodyPositions(e.a, e.b, numSegments)
      ensures world.dynamic == old(world.dynamic) + Repeat(numSegments + 1, dynamic)
      ensures NewLine(springLines[|old(springLines)|], e, func, numSegments)
      ensures fresh(LineSet(springLines[|old(springLines)|..])) && fresh(SpringsOf(springLines[|old(springLines)|..]))
    {
      ghost var ls := springLines;
      CreateSpringLine(e.a, e.b, numSegments, func, dynamic);
      SnocLast(ls, springLines);
    }

    /** What the laid lines look like once the builder is done with them. */
    lemma LaidLines(lines0: seq<SpringLine>, edges: seq<Edge>, f: Rasf, r: Layout)
      requires Laid(springLines, lines0, edges, f, r)
      ensures |springLines| == |lines0| + |edges| && springLines[..|lines0|] == lines0
      ensures Built(springLines[|lines0|..], edges, f, r)
      ensures forall k | |lines0| <= k < |springLines| :: springLines[k].startAngles == [] && springLines[k].endAngles == []
    {
      var n0 := |lines0|;
      var ls := springLines[n0..];
      forall k | 0 <= k < |edges|
        ensures LineEdge(ls[k]) == edges[k] && ls[k].restAngleFunc == f && |ls[k].springs| == Segments(r, edges[k])
      {
        assert ls[k] == springLines[n0 + k];
        assert NewLine(springLines[n0 + k], edges[k], f, Segments(r, edges[k]));
      }
      forall k | n0 <= k < |springLines|
        ensures springLines[k].startAngles == [] && springLines[k].endAngles == []
      {
        assert NewLine(springLines[n0 + (k - n0)], edges[k - n0], f, Segments(r, edges[k - n0]));
      }
    }

    /** getSpringEdges: the segment each spring spans between the current
        positions of its two bodies, line by line and spring by spring. */
    method GetSpringEdges() returns (edges: seq<Edge>)
      requires Valid()
      ensures LinesWithin(springLines, |world.positions|) && edges == SpringEdges(springLines, world.positions)
      ensures |edges| == SpringCount(springLines)
    {
      ValidWithin();
      edges := [];
      for k := 0 to |springLines|
        invariant LinesWithin(springLines[..k], |world.positions|)
        invariant edges == SpringEdges(springLines[..k], world.positions)
      {
        var sl := springLines[k];
        for i := 0 to |sl.springs|
          invariant edges == SpringEdges(springLines[..k], world.positions) + LineSpringEdges(sl, world.positions)[..i]
        {
          var s := sl.springs[i];
          edges := edges + [Edge(world.positions[s.body], world.positions[s.nextBody])];
        }
        assert springLines[..k + 1][..k] == springLines[..k];
      }
      assert springLines[..|springLines|] == springLines;
      EdgeCount(springLines, world.positions);
    }

    /** Every spring's bodies exist. */
    lemma ValidWithin()
      requires Valid()
      ensures LinesWithin(springLines, |world.positions|)
      ensures forall k | 0 <= k < |springLines| :: LinesWithin(springLines[..k], |world.positions|)
    {
      forall k | 0 <= k < |springLines| ensures LineWithin(springLines[k], |world.positions|) {
        assert LineShape(springLines[k], k, world.positions, world.dynamic, world.math);
      }
    }

    /** In a world as the builders leave it, the edges of line k are its n
        consecutive pieces, from its start point to its end point. */
    lemma SpringEdgesAlong(k: nat)
      requires Valid() && k < |springLines|
      ensures LineWithin(springLines[k], |world.positions|)
      ensures var l, n := springLines[k], |springLines[k].springs|;
              && n >= 1 && |LineSpringEdges(l, world.positions)| == n
              && LineSpringEdges(l, world.positions)[0].a == l.startPoint
              && LineSpringEdges(l, world.positions)[n - 1].b == l.endPoint
              && forall i | 0 <= i < n ::
                   LineSpringEdges(l, world.positions)[i] ==
                   Edge(BodyPosition(l.startPoint, l.endPoint, n, i), BodyPosition(l.startPoint, l.endPoint, n, i + 1))
    {
      assert LineShape(springLines[k], k, world.positions, world.dynamic, world.math);
      LineEdgesAlong(springLines[k], k, world.positions, world.dynamic, world.math);
    }

    /** The inner loop of initRestAngles, over the springs of line k. */
    method InitLine(k: nat, draws: (nat, nat) -> Draw)
      requires Valid() && k < |springLines| && Placed()
      modifies springLines[k].springs`restAngle
      ensures Valid() && Placed()
      ensures forall i | 0 <= i < |springLines[k].springs| ::
                springLines[k].springs[i].restAngle == RestAngleFor(springLines[k], k, i, draws, world.math)
      ensures forall q, i | 0 <= q < |springLines| && q != k && 0 <= i < |springLines[q].springs| ::
                springLines[q].springs[i].restAngle == old(springLines[q].springs[i].restAngle)
    {
      var l := springLines[k];
      var n := |l.springs|;
      for i := 0 to n
        invariant forall j | 0 <= j < i :: l.springs[j].restAngle == RestAngleFor(l, k, j, draws, world.math)
      {
        var t := i as real / n as real;
        l.springs[i].restAngle := Evaluate(l.restAngleFunc, l.startAngles, l.endAngles, t, n, draws(k, i), world.math);
      }
    }
  }

  /** The lines of ls, as a set. */
  ghost function LineSet(ls: seq<SpringLine>): set<SpringLine> {
    set l | l in ls
  }

  /** The springs of the lines ls. */
  ghost function SpringsOf(ls: seq<SpringLine>): set<Spring> {
    set i, k | 0 <= i < |ls| && 0 <= k < |ls[i].springs| :: ls[i].springs[k]
  }

  lemma LinesAppend(a: seq<SpringLine>, b: seq<SpringLine>)
    ensures LineSet(a + b) == LineSet(a) + LineSet(b)
  {
  }

  /** Every line and spring of a + b is one of a's or one of b's. */
  lemma FrameSplit(a: seq<SpringLine>, b: seq<SpringLine>)
    ensures forall l | l in a + b :: l in a || l in LineSet(b)
    ensures forall s | s in SpringsOf(a + b) :: s in SpringsOf(a) || s in SpringsOf(b)
  {
    SpringsAppend(a, b);
  }

  /** The springs of two runs of lines together. */
  lemma SpringsAppend(a: seq<SpringLine>, b: seq<SpringLine>)
    ensures SpringsOf(a + b) == SpringsOf(a) + SpringsOf(b)
  {
    var all := a + b;
    forall s | s in SpringsOf(all) ensures s in SpringsOf(a) || s in SpringsOf(b) {
      var i, k :| 0 <= i < |all| && 0 <= k < |all[i].springs| && s == all[i].springs[k];
      if i < |a| {
        assert a[i] == all[i];
      } else {
        assert b[i - |a|] == all[i];
      }
    }
    forall s | s in SpringsOf(a) ensures s in SpringsOf(all) {
      var i, k :| 0 <= i < |a| && 0 <= k < |a[i].springs| && s == a[i].springs[k];
      assert all[i] == a[i];
    }
    forall s | s in SpringsOf(b) ensures s in SpringsOf(all) {
      var i, k :| 0 <= i < |b| && 0 <= k < |b[i].springs| && s == b[i].springs[k];
      assert all[|a| + i] == b[i];
    }
  }

  /** The bodies of every spring of line l are among the first n bodies. */
  predicate LineWithin(l: SpringLine, n: nat) {
    forall i | 0 <= i < |l.springs| :: l.springs[i].body < n && l.springs[i].nextBody < n
  }

  predicate LinesWithin(ls: seq<SpringLine>, n: nat) {
    forall k | 0 <= k < |ls| :: LineWithin(ls[k], n)
  }

  /** The segments the springs of line l span, with the bodies at p. */
  function LineSpringEdges(l: SpringLine, p: seq<Vec2>): seq<Edge>
    requires LineWithin(l, |p|)
  {
    seq(|l.springs|, i requires 0 <= i < |l.springs| => Edge(p[l.springs[i].body], p[l.springs[i].nextBody]))
  }

  /** The segments the springs of the lines ls span, line by line. */
  function SpringEdges(ls: seq<SpringLine>, p: seq<Vec2>): seq<Edge>
    requires LinesWithin(ls, |p|)
  {
    if ls == [] then []
    else
      assert forall k | 0 <= k < |ls| - 1 :: ls[..|ls| - 1][k] == ls[k];
      SpringEdges(ls[..|ls| - 1], p) + LineSpringEdges(ls[|ls| - 1], p)
  }

  /** How many springs the lines ls have. */
  function SpringCount(ls: seq<SpringLine>): nat {
    if ls == [] then 0 else SpringCount(ls[..|ls| - 1]) + |ls[|ls| - 1].springs|
  }

  /** One edge per spring. */
  lemma {:induction false} EdgeCount(ls: seq<SpringLine>, p: seq<Vec2>)
    requires LinesWithin(ls, |p|)
    ensures |SpringEdges(ls, p)| == SpringCount(ls)
    decreases |ls|
  {
    if ls != [] {
      var init := ls[..|ls| - 1];
      assert forall k | 0 <= k < |init| :: init[k] == ls[k];
      EdgeCount(init, p);
    }
  }

  /** A line in the shape createSpringLine gives it spans n consecutive
      pieces of its segment, the first starting at its start point and the
      last ending at its end point. */
  lemma LineEdgesAlong(l: SpringLine, k: nat, p: seq<Vec2>, d: seq<bool>, m: Math)
    requires LineShape(l, k, p, d, m)
    ensures LineWithin(l, |p|)
    ensures var n := |l.springs|;
            && |LineSpringEdges(l, p)| == n
            && LineSpringEdges(l, p)[0].a == l.startPoint
            && LineSpringEdges(l, p)[n - 1].b == l.endPoint
            && forall i | 0 <= i < n ::
                 LineSpringEdges(l, p)[i] ==
                 Edge(BodyPosition(l.startPoint, l.endPoint, n, i), BodyPosition(l.startPoint, l.endPoint, n, i + 1))
  {
    var n, base := |l.springs|, l.startBody.value;
    forall i | 0 <= i <= n ensures p[base + i] == BodyPosition(l.startPoint, l.endPoint, n, i) {
      assert p[base .. base + n + 1][i] == p[base + i];
    }
    forall i | 0 <= i < n
      ensures LineSpringEdges(l, p)[i] ==
              Edge(BodyPosition(l.startPoint, l.endPoint, n, i), BodyPosition(l.startPoint, l.endPoint, n, i + 1))
    {
      assert SpringShape(l.springs[i], k, i, base, p, m);
    }
    ChainEnds(l.startPoint, l.endPoint, n);
  }

  /** The segment from a line's start point to its end point. */
  function LineEdge(l: SpringLine): Edge {
    Edge(l.startPoint, l.endPoint)
  }

  /** The lines ls run along the edges, in order, all with the rest-angle function f. */
  predicate LinesAlong(ls: seq<SpringLine>, edges: seq<Edge>, f: Rasf) {
    && |ls| == |edges|
    && forall k | 0 <= k < |ls| :: LineEdge(ls[k]) == edges[k] && ls[k].restAngleFunc == f
  }

  /** How a pattern builder sizes the line it lays along an edge and whether
      the line is dynamic: createSpringBox and createSquiggle give every line
      the same segment count and make it dynamic; createSystem and drawTree
      measure the edge, and createSystem makes a line dynamic when an end of
      it lies inside its (scaled) border. */
  datatype Layout = Fixed(segments: nat) | Measured(m: Math, border: Option<Border>)

  ghost predicate LayoutOk(r: Layout) {
    match r
    case Fixed(n) => n >= 1
    case Measured(m, _) => Sound(m)
  }

  function Segments(r: Layout, e: Edge): (n: nat)
    requires LayoutOk(r)
    ensures n >= 1
  {
    match r
    case Fixed(n) => n
    case Measured(m, _) => SegmentCount(Distance(m, e.a, e.b))
  }

  predicate Dynamic(r: Layout, e: Edge) {
    match r
    case Fixed(_) => true
    case Measured(_, b) => b.None? || IsDynamicEdge(b.value, e)
  }

  /** The positions of the bodies laid along the edges, edge by edge. */
  function EdgePositions(edges: seq<Edge>, r: Layout): seq<Vec2>
    requires LayoutOk(r)
  {
    if edges == [] then []
    else
      var e := edges[|edges| - 1];
      EdgePositions(edges[..|edges| - 1], r) + BodyPositions(e.a, e.b, Segments(r, e))
  }

  /** Whether each of those bodies is dynamic. */
  function EdgeFlags(edges: seq<Edge>, r: Layout): seq<bool>
    requires LayoutOk(r)
  {
    if edges == [] then []
    else
      var e := edges[|edges| - 1];
      EdgeFlags(edges[..|edges| - 1], r) + Repeat(Segments(r, e) + 1, Dynamic(r, e))
  }

  /** With a fixed segment count every body laid is dynamic, n + 1 of them per edge. */
  lemma {:induction false} FixedFlags(edges: seq<Edge>, n: nat)
    requires n >= 1
    ensures EdgeFlags(edges, Fixed(n)) == Repeat(|edges| * (n + 1), true)
    decreases |edges|
  {
    if edges != [] {
      var init := edges[..|edges| - 1];
      FixedFlags(init, n);
      assert |edges| * (n + 1) == |init| * (n + 1) + (n + 1);
    }
  }

  /** A line as a pattern builder leaves it before initSpringWorld: along
      the edge e with n springs and the rest-angle function f, and no angles
      recorded. */
  ghost predicate NewLine(l: SpringLine, e: Edge, f: Rasf, n: nat)
    reads l`startAngles, l`endAngles
  {
    LineEdge(l) == e && l.restAngleFunc == f && |l.springs| == n && l.startAngles == [] && l.endAngles == []
  }

  lemma SnocLast<T>(a: seq<T>, b: seq<T>)
    requires |b| == |a| + 1 && b[..|a|] == a
    ensures b == a + [b[|a|]] && b[|a|..] == [b[|a|]]
  {
  }

  lemma SplitLast<T>(s: seq<T>)
    requires s != []
    ensures s[..|s| - 1] + [s[|s| - 1]] == s
  {
  }

  lemma SplitAt<T>(s: seq<T>, n: nat)
    requires n <= |s|
    ensures s == s[..n] + s[n..]
  {
  }

  lemma EmptySuffix<T>(s: seq<T>)
    ensures s[|s|..] == []
  {
  }

  /** Once a longer run of lines extends a shorter one, the part after n
      grows by the same tail, and so do its lines and springs. */
  lemma SuffixSets(a: seq<SpringLine>, b: seq<SpringLine>, n: nat)
    requires n <= |a| <= |b| && b[..|a|] == a
    ensures b[..n] == a[..n]
    ensures LineSet(b[n..]) == LineSet(a[n..]) + LineSet(b[|a|..])
    ensures SpringsOf(b[n..]) == SpringsOf(a[n..]) + SpringsOf(b[|a|..])
  {
    assert b == b[..|a|] + b[|a|..];
    assert b[n..] == a[n..] + b[|a|..];
    LinesAppend(a[n..], b[|a|..]);
    SpringsAppend(a[n..], b[|a|..]);
  }

  /** The lines ls as a pattern builder has laid them so far: after the
      lines lines0, one new line along each of the edges, sized as the
      layout r says. */
  ghost predicate Laid(ls: seq<SpringLine>, lines0: seq<SpringLine>, edges: seq<Edge>, f: Rasf, r: Layout)
    reads ls`startAngles, ls`endAngles
  {
    && LayoutOk(r)
    && |ls| == |lines0| + |edges| && ls[..|lines0|] == lines0
    && forall k | 0 <= k < |edges| :: NewLine(ls[|lines0| + k], edges[k], f, Segments(r, edges[k]))
  }

  /** One more line laid. */
  lemma LaidSnoc(ls: seq<SpringLine>, lines0: seq<SpringLine>, edges: seq<Edge>, f: Rasf, r: Layout,
                 l: SpringLine, e: Edge)
    requires Laid(ls, lines0, edges, f, r)
    requires NewLine(l, e, f, Segments(r, e))
    ensures Laid(ls + [l], lines0, edges + [e], f, r)
  {
    var ls', edges' := ls + [l], edges + [e];
    assert ls'[..|lines0|] == ls[..|lines0|];
    assert edges'[..|edges|] == edges;
    forall k | 0 <= k < |edges'|
      ensures NewLine(ls'[|lines0| + k], edges'[k], f, Segments(r, edges'[k]))
    {
      if k < |edges| {
        assert ls'[|lines0| + k] == ls[|lines0| + k];
      }
    }
  }

  /** The same lines laid along the same edges, written another way. */
  lemma LaidAs(ls: seq<SpringLine>, lines0: seq<SpringLine>, edges: seq<Edge>, edges': seq<Edge>, f: Rasf,
               r: Layout, p0: seq<Vec2>, d0: seq<bool>, positions: seq<Vec2>, dynamic: seq<bool>)
    requires edges == edges' && Laid(ls, lines0, edges, f, r)
    requires positions == p0 + EdgePositions(edges, r) && dynamic == d0 + EdgeFlags(edges, r)
    ensures Laid(ls, lines0, edges', f, r)
    ensures positions == p0 + EdgePositions(edges', r) && dynamic == d0 + EdgeFlags(edges', r)
  {
  }

  /** No edges laid yet. */
  lemma NoneLaid(ls: seq<SpringLine>, f: Rasf, r: Layout)
    requires LayoutOk(r)
    ensures Laid(ls, ls, [], f, r)
  {
  }

  /** Lines laid along a, then along b, are laid along a + b. */
  lemma LaidConcat(ls: seq<SpringLine>, ls': seq<SpringLine>, lines0: seq<SpringLine>, a: seq<Edge>, b: seq<Edge>,
                   f: Rasf, r: Layout)
    requires Laid(ls, lines0, a, f, r) && Laid(ls', ls, b, f, r)
    ensures Laid(ls', lines0, a + b, f, r)
  {
    assert ls'[..|lines0|] == ls[..|lines0|];
    forall k | 0 <= k < |a + b|
      ensures NewLine(ls'[|lines0| + k], (a + b)[k], f, Segments(r, (a + b)[k]))
    {
      if k < |a| {
        assert ls'[|lines0| + k] == ls[|lines0| + k];
      } else {
        assert NewLine(ls'[|ls| + (k - |a|)], b[k - |a|], f, Segments(r, b[k - |a|]));
      }
    }
  }

  /** The bodies laid along a + b are those laid along a, then those along b. */
  lemma BodiesConcat(a: seq<Edge>, b: seq<Edge>, r: Layout)
    requires LayoutOk(r)
    ensures EdgePositions(a + b, r) == EdgePositions(a, r) + EdgePositions(b, r)
    ensures EdgeFlags(a + b, r) == EdgeFlags(a, r) + EdgeFlags(b, r)
  {
    PositionsConcat(a, b, r);
    FlagsConcat(a, b, r);
  }

  lemma {:induction false} PositionsConcat(a: seq<Edge>, b: seq<Edge>, r: Layout)
    requires LayoutOk(r)
    ensures EdgePositions(a + b, r) == EdgePositions(a, r) + EdgePositions(b, r)
    decreases |b|
  {
    if b == [] {
      assert a + b == a;
    } else {
      var init, e := b[..|b| - 1], b[|b| - 1];
      var all := a + b;
      assert all[..|all| - 1] == a + init && all[|all| - 1] == e;
      PositionsConcat(a, init, r);
      var body := BodyPositions(e.a, e.b, Segments(r, e));
      assert EdgePositions(all, r) == EdgePositions(a + init, r) + body;
      assert EdgePositions(b, r) == EdgePositions(init, r) + body;
      ConcatAssoc(EdgePositions(a, r), EdgePositions(init, r), body);
    }
  }

  lemma {:induction false} FlagsConcat(a: seq<Edge>, b: seq<Edge>, r: Layout)
    requires LayoutOk(r)
    ensures EdgeFlags(a + b, r) == EdgeFlags(a, r) + EdgeFlags(b, r)
    decreases |b|
  {
    if b == [] {
      assert a + b == a;
    } else {
      var init, e := b[..|b| - 1], b[|b| - 1];
      var all := a + b;
      assert all[..|all| - 1] == a + init && all[|all| - 1] == e;
      FlagsConcat(a, init, r);
      var body := Repeat(Segments(r, e) + 1, Dynamic(r, e));
      assert EdgeFlags(all, r) == EdgeFlags(a + init, r) + body;
      assert EdgeFlags(b, r) == EdgeFlags(init, r) + body;
      ConcatAssoc(EdgeFlags(a, r), EdgeFlags(init, r), body);
    }
  }

  /** When every edge gets a dynamic line, every body laid is dynamic. */
  lemma {:induction false} DynamicFlags(edges: seq<Edge>, r: Layout)
    requires LayoutOk(r) && forall k | 0 <= k < |edges| :: Dynamic(r, edges[k])
    ensures EdgeFlags(edges, r) == Repeat(|EdgePositions(edges, r)|, true)
    decreases |edges|
  {
    if edges != [] {
      var init := edges[..|edges| - 1];
      assert forall k | 0 <= k < |init| :: init[k] == edges[k];
      DynamicFlags(init, r);
    }
  }

  /** The bodies of the line along edges[k] start here. */
  function Offset(edges: seq<Edge>, r: Layout, k: nat): nat
    requires LayoutOk(r) && k <= |edges|
  {
    |EdgePositions(edges[..k], r)|
  }

  /** The line along edges[k] has its bodies, one more than its segments,
      placed evenly along that edge right after those of the lines before
      it, and they are dynamic exactly when the layout makes that edge's
      line dynamic. */
  lemma EdgeBodies(edges: seq<Edge>, r: Layout, k: nat)
    requires LayoutOk(r) && k < |edges|
    ensures |EdgeFlags(edges, r)| == |EdgePositions(edges, r)|
    ensures Offset(edges, r, k + 1) == Offset(edges, r, k) + Segments(r, edges[k]) + 1 <= |EdgePositions(edges, r)|
    ensures EdgePositions(edges, r)[Offset(edges, r, k) .. Offset(edges, r, k + 1)] ==
            BodyPositions(edges[k].a, edges[k].b, Segments(r, edges[k]))
    ensures forall b | Offset(edges, r, k) <= b < Offset(edges, r, k + 1) ::
              EdgeFlags(edges, r)[b] == Dynamic(r, edges[k])
  {
    SameCount(edges, r);
    OffsetStep(edges, r, k);
    EdgeBodyPositions(edges, r, k);
    EdgeBodyFlags(edges, r, k);
  }

  /** The bodies of the edges up to and including edges[k] are those up to
      it and then those of edges[k]. */
  lemma OffsetStep(edges: seq<Edge>, r: Layout, k: nat)
    requires LayoutOk(r) && k < |edges|
    ensures EdgePositions(edges[..k + 1], r) ==
            EdgePositions(edges[..k], r) + BodyPositions(edges[k].a, edges[k].b, Segments(r, edges[k]))
    ensures EdgeFlags(edges[..k + 1], r) ==
            EdgeFlags(edges[..k], r) + Repeat(Segments(r, edges[k]) + 1, Dynamic(r, edges[k]))
    ensures Offset(edges, r, k + 1) == Offset(edges, r, k) + Segments(r, edges[k]) + 1
  {
    var pre := edges[..k + 1];
    assert pre[..|pre| - 1] == edges[..k] && pre[|pre| - 1] == edges[k];
  }

  lemma EdgeBodyPositions(edges: seq<Edge>, r: Layout, k: nat)
    requires LayoutOk(r) && k < |edges|
    ensures Offset(edges, r, k) <= Offset(edges, r, k + 1) <= |EdgePositions(edges, r)|
    ensures EdgePositions(edges, r)[Offset(edges, r, k) .. Offset(edges, r, k + 1)] ==
            BodyPositions(edges[k].a, edges[k].b, Segments(r, edges[k]))
  {
    var pre, rest := edges[..k + 1], edges[k + 1..];
    assert edges == pre + rest;
    PositionsConcat(pre, rest, r);
    OffsetStep(edges, r, k);
    Middle(EdgePositions(edges[..k], r), BodyPositions(edges[k].a, edges[k].b, Segments(r, edges[k])),
           EdgePositions(rest, r));
  }

  lemma EdgeBodyFlags(edges: seq<Edge>, r: Layout, k: nat)
    requires LayoutOk(r) && k < |edges|
    ensures forall b | Offset(edges, r, k) <= b < Offset(edges, r, k + 1) ::
              b < |EdgeFlags(edges, r)| && EdgeFlags(edges, r)[b] == Dynamic(r, edges[k])
  {
    var pre, rest := edges[..k + 1], edges[k + 1..];
    assert edges == pre + rest;
    FlagsConcat(pre, rest, r);
    OffsetStep(edges, r, k);
    SameCount(edges[..k], r);
    Middle(EdgeFlags(edges[..k], r), Repeat(Segments(r, edges[k]) + 1, Dynamic(r, edges[k])), EdgeFlags(rest, r));
  }

  /** The middle part of a + b + c. */
  lemma Middle<T>(a: seq<T>, b: seq<T>, c: seq<T>)
    ensures (a + b + c)[|a| .. |a| + |b|] == b
    ensures forall i | |a| <= i < |a| + |b| :: (a + b + c)[i] == b[i - |a|]
  {
    assert (a + b + c)[|a| .. |a| + |b|] == b;
  }

  lemma {:induction false} SameCount(edges: seq<Edge>, r: Layout)
    requires LayoutOk(r)
    ensures |EdgeFlags(edges, r)| == |EdgePositions(edges, r)|
    decreases |edges|
  {
    if edges != [] {
      SameCount(edges[..|edges| - 1], r);
    }
  }

  /** The bodies of one more edge come after those of the edges before it. */
  lemma BodiesSnoc(p0: seq<Vec2>, d0: seq<bool>, edges: seq<Edge>, e: Edge, r: Layout)
    requires LayoutOk(r)
    ensures p0 + EdgePositions(edges, r) + BodyPositions(e.a, e.b, Segments(r, e)) == p0 + EdgePositions(edges + [e], r)
    ensures d0 + EdgeFlags(edges, r) + Repeat(Segments(r, e) + 1, Dynamic(r, e)) == d0 + EdgeFlags(edges + [e], r)
  {
    assert (edges + [e])[..|edges|] == edges;
  }

  /** The lines ls run along the edges with f, sized as the layout r says. */
  predicate Built(ls: seq<SpringLine>, edges: seq<Edge>, f: Rasf, r: Layout)
    requires LayoutOk(r)
  {
    && LinesAlong(ls, edges, f)
    && forall k | 0 <= k < |ls| :: |ls[k].springs| == Segments(r, edges[k])
  }

  /** The sides of createSpringBox. */
  const BoxEdges: seq<Edge> := [Edge(Vec2(-5.0, -5.0), Vec2(5.0, -5.0)), Edge(Vec2(5.0, -5.0), Vec2(5.0, 5.0)),
                                Edge(Vec2(5.0, 5.0), Vec2(-5.0, 5.0)), Edge(Vec2(-5.0, 5.0), Vec2(-5.0, -5.0))]

  /** The corners of the box, in the order connectSpringLines meets them. */
  const BoxCornerList: seq<Coincidence> :=
    [Coincidence(0, End, 1, Start), Coincidence(0, Start, 3, End),
     Coincidence(1, End, 2, Start), Coincidence(2, End, 3, Start)]

  /** The lines of createSquiggle. */
  const SquiggleEdges: seq<Edge> := [Edge(Vec2(-10.0, -5.0), Vec2(0.0, -5.0)), Edge(Vec2(0.0, -5.0), Vec2(0.0, 5.0)),
                                     Edge(Vec2(0.0, 5.0), Vec2(10.0, 5.0))]

  const SquiggleJointList: seq<Coincidence> := [Coincidence(0, End, 1, Start), Coincidence(1, End, 2, Start)]

  /** What connectSpringLines reads of lines along the box sides is a box. */
  lemma AlongBox(ls: seq<SpringLine>, f: Rasf)
    requires Attached(ls) && LinesAlong(ls, BoxEdges, f)
    ensures IsBox(LinesEnds(ls))
  {
    forall k | 0 <= k < 4 ensures LinesEnds(ls)[k].startPoint == BoxEdges[k].a && LinesEnds(ls)[k].endPoint == BoxEdges[k].b {
      LinesEndsAt(ls, k);
      assert LineEdge(ls[k]) == BoxEdges[k];
    }
  }

  lemma AlongSquiggle(ls: seq<SpringLine>, f: Rasf)
    requires Attached(ls) && LinesAlong(ls, SquiggleEdges, f)
    ensures IsSquiggle(LinesEnds(ls))
  {
    forall k | 0 <= k < 3 ensures LinesEnds(ls)[k].startPoint == SquiggleEdges[k].a && LinesEnds(ls)[k].endPoint == SquiggleEdges[k].b {
      LinesEndsAt(ls, k);
      assert LineEdge(ls[k]) == SquiggleEdges[k];
    }
  }

  /** Where spring i of a line of n springs sits along it, from 0 up to but
      not including 1. */
  function Position(i: nat, n: nat): (t: real)
    requires i < n
    ensures 0.0 <= t < 1.0
    ensures t * n as real == i as real
  {
    i as real / n as real
  }

  /** The rest angle initRestAngles gives spring i of line k: the line's
      rest-angle function at the spring's position, over the line's angle
      lists, with the random draw for that spring. */
  ghost function RestAngleFor(l: SpringLine, k: nat, i: nat, draws: (nat, nat) -> Draw, m: Math): Scalar
    reads l`startAngles, l`endAngles
    requires Sound(m) && i < |l.springs|
  {
    Evaluate(l.restAngleFunc, l.startAngles, l.endAngles, Position(i, |l.springs|), |l.springs|, draws(k, i), m)
  }

  /** The bodies created so far are the first ones of the whole chain. */
  lemma ChainPrefix(p: seq<Vec2>, full: seq<Vec2>, p0: seq<Vec2>, from: Vec2, to: Vec2, n: nat, i: nat)
    requires n >= 1 && i <= n + 1
    requires p == p0 + BodyPositions(from, to, n)[..i] && full == p0 + BodyPositions(from, to, n)
    ensures |p| <= |full| && forall b | 0 <= b < |p| :: p[b] == full[b]
  {
  }
}
