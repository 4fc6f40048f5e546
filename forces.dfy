/** The forces one spring applies in a step (Spring::updateForces), as the
    list of ApplyForceToCenter calls it makes, in order, and what that list
    does to the world's force accumulators. */
module Forces {
  import opened Util
  import opened Geometry
  import opened Engine
  import opened Rasf

  /** One call of ApplyForceToCenter. */
  datatype Application = Application(body: BodyId, force: Force)

  predicate Targets(apps: seq<Application>, bodies: nat)
  {
    forall i | 0 <= i < |apps| :: apps[i].body < bodies
  }

  /** The accumulators after the calls, in order. */
  function Accumulate(forces: seq<Force>, dynamic: seq<bool>, apps: seq<Application>): (r: seq<Force>)
    requires |dynamic| == |forces| && Targets(apps, |forces|)
    ensures |r| == |forces|
    decreases |apps|
  {
    if apps == [] then forces
    else Accumulate(ApplyForce(forces, dynamic, apps[0].body, apps[0].force), dynamic, apps[1..])
  }

  /** The sum of the forces of the calls. */
  function Net(apps: seq<Application>): Force
    decreases |apps|
  {
    if apps == [] then Finite(Zero) else AddForce(apps[0].force, Net(apps[1..]))
  }

  /** When every target is dynamic, the total accumulated force grows by the
      net force of the calls. */
  lemma {:induction false} AccumulateTotal(forces: seq<Force>, dynamic: seq<bool>, apps: seq<Application>)
    requires |dynamic| == |forces| && Targets(apps, |forces|)
    requires forall i | 0 <= i < |apps| :: dynamic[apps[i].body]
    ensures Total(Accumulate(forces, dynamic, apps)) == AddForce(Total(forces), Net(apps))
    decreases |apps|
  {
    if apps == [] {
      assert AddForce(Total(forces), Finite(Zero)) == Total(forces);
    } else {
      var a := apps[0];
      var next := ApplyForce(forces, dynamic, a.body, a.force);
      assert Targets(apps[1..], |forces|) by {
        forall i | 0 <= i < |apps[1..]| ensures apps[1..][i].body < |forces| {
          assert apps[1..][i] == apps[i + 1];
        }
      }
      assert forall i | 0 <= i < |apps[1..]| :: dynamic[apps[1..][i].body] by {
        forall i | 0 <= i < |apps[1..]| ensures dynamic[apps[1..][i].body] {
          assert apps[1..][i] == apps[i + 1];
        }
      }
      AccumulateTotal(next, dynamic, apps[1..]);
      TotalAfterAdd(forces, a.body, a.force);
      AddForceAssociative(Total(forces), a.force, Net(apps[1..]));
    }
  }

  /** Calls that all target static bodies change nothing. */
  lemma {:induction false} AccumulateStatic(forces: seq<Force>, dynamic: seq<bool>, apps: seq<Application>)
    requires |dynamic| == |forces| && Targets(apps, |forces|)
    requires forall i | 0 <= i < |apps| :: !dynamic[apps[i].body]
    ensures Accumulate(forces, dynamic, apps) == forces
    decreases |apps|
  {
    if apps != [] {
      assert forall i | 0 <= i < |apps[1..]| :: apps[1..][i] == apps[i + 1];
      AccumulateStatic(forces, dynamic, apps[1..]);
    }
  }

  /** Accumulating two call lists one after the other. */
  lemma {:induction false} AccumulateAppend(forces: seq<Force>, dynamic: seq<bool>, a: seq<Application>, b: seq<Application>)
    requires |dynamic| == |forces| && Targets(a, |forces|) && Targets(b, |forces|)
    ensures Targets(a + b, |forces|)
    ensures Accumulate(forces, dynamic, a + b) ==
            Accumulate(Accumulate(forces, dynamic, a), dynamic, b)
    decreases |a|
  {
    assert Targets(a + b, |forces|) by {
      forall i | 0 <= i < |a + b| ensures (a + b)[i].body < |forces| {
        if i < |a| { assert (a + b)[i] == a[i]; } else { assert (a + b)[i] == b[i - |a|]; }
      }
    }
    if a == [] {
      assert a + b == b;
    } else {
      assert (a + b)[0] == a[0];
      assert (a + b)[1..] == a[1..] + b;
      assert forall i | 0 <= i < |a[1..]| :: a[1..][i] == a[i + 1];
      AccumulateAppend(ApplyForce(forces, dynamic, a[0].body, a[0].force), dynamic, a[1..], b);
    }
  }

  /** One more call after a list of calls. */
  lemma AccumulateSnoc(forces: seq<Force>, dynamic: seq<bool>, apps: seq<Application>, a: Application)
    requires |dynamic| == |forces| && Targets(apps, |forces|) && a.body < |forces|
    ensures Targets(apps + [a], |forces|)
    ensures Accumulate(forces, dynamic, apps + [a]) ==
            ApplyForce(Accumulate(forces, dynamic, apps), dynamic, a.body, a.force)
  {
    var mid := Accumulate(forces, dynamic, apps);
    AccumulateAppend(forces, dynamic, apps, [a]);
    assert Accumulate(mid, dynamic, [a]) == Accumulate(ApplyForce(mid, dynamic, a.body, a.force), dynamic, []);
  }

  /** Two calls, one after the other. */
  lemma AccumulateTwo(forces: seq<Force>, dynamic: seq<bool>, a0: Application, a1: Application)
    requires |dynamic| == |forces| && a0.body < |forces| && a1.body < |forces|
    ensures Targets([a0, a1], |forces|)
    ensures Accumulate(forces, dynamic, [a0, a1]) ==
            ApplyForce(ApplyForce(forces, dynamic, a0.body, a0.force), dynamic, a1.body, a1.force)
  {
    AccumulateSnoc(forces, dynamic, [], a0);
    AccumulateSnoc(forces, dynamic, [a0], a1);
    assert [] + [a0] == [a0] && [a0] + [a1] == [a0, a1];
  }

  /** Four calls, one after the other. */
  lemma AccumulateFour(forces: seq<Force>, dynamic: seq<bool>,
                       a0: Application, a1: Application, a2: Application, a3: Application)
    requires |dynamic| == |forces|
    requires a0.body < |forces| && a1.body < |forces| && a2.body < |forces| && a3.body < |forces|
    ensures Targets([a0, a1, a2, a3], |forces|)
    ensures Accumulate(forces, dynamic, [a0, a1, a2, a3]) ==
            var f1 := ApplyForce(forces, dynamic, a0.body, a0.force);
            var f2 := ApplyForce(f1, dynamic, a1.body, a1.force);
            var f3 := ApplyForce(f2, dynamic, a2.body, a2.force);
            ApplyForce(f3, dynamic, a3.body, a3.force)
  {
    AccumulateTwo(forces, dynamic, a0, a1);
    var f2 := Accumulate(forces, dynamic, [a0, a1]);
    AccumulateTwo(f2, dynamic, a2, a3);
    AccumulateAppend(forces, dynamic, [a0, a1], [a2, a3]);
    assert [a0, a1] + [a2, a3] == [a0, a1, a2, a3];
  }

  /** Default spring constants (Spring::linearK and Spring::rotK). */
  const DefaultStiffness: real := 20.0

  /** The magnitude of the distance spring: linearK * (distance - restLength). */
  function LinearMagnitude(m: Math, linearK: real, restLength: real, pb: Vec2, pn: Vec2): (f: real)
    requires Sound(m)
    ensures Distance(m, pb, pn) == restLength ==> f == 0.0
    ensures linearK > 0.0 ==> (f > 0.0 <==> Distance(m, pb, pn) > restLength)
  {
    var d := Distance(m, pb, pn) - restLength;
    PositiveFactorKeepsSign(linearK, d);
    linearK * d
  }

  lemma PositiveFactorKeepsSign(k: real, d: real)
    ensures k > 0.0 ==> (k * d > 0.0 <==> d > 0.0)
  {
    if k > 0.0 && d > 0.0 { MulPos(k, d); }
    if k > 0.0 && d <= 0.0 { MulNonNeg(k, -d); assert k * -d == -(k * d); }
  }

  /** The two calls of the distance spring: half the force along the unit
      vector from the body towards the next body, and half against it. */
  function LinearApplications(m: Math, linearK: real, restLength: real,
                              body: BodyId, next: BodyId, pb: Vec2, pn: Vec2): seq<Application>
    requires Sound(m)
  {
    var half := LinearMagnitude(m, linearK, restLength, pb, pn) / 2.0;
    var dir := Normalize(m, Sub(pn, pb));
    [Application(body, Finite(Scale(half, dir))), Application(next, Finite(Scale(half, Neg(dir))))]
  }

  /** The inner angle at the body between the arm from the previous body and
      the arm from the next body, brought into [0, 2*pi). */
  function InnerAngle(m: Math, dp: Vec2, dn: Vec2): (a: real)
    requires Sound(m)
    ensures 0.0 <= a < TwoPi
    ensures m.atan2(dp.x * dn.y - dp.y * dn.x, dp.x * dn.x + dp.y * dn.y) >= 0.0 ==>
              a == m.atan2(dp.x * dn.y - dp.y * dn.x, dp.x * dn.x + dp.y * dn.y)
  {
    var det := dp.x * dn.y - dp.y * dn.x;
    var dot := dp.x * dn.x + dp.y * dn.y;
    var angle := m.atan2(det, dot);
    if angle < 0.0 then angle + TwoPi else angle
  }

  /** The base line angle of Spring::setPrevBody: pi - |anglePrev - angleNext| - pi,
      where the two angles are the directions from the previous and from the
      next body to this body. */
  function BaseLineAngle(m: Math, pp: Vec2, pb: Vec2, pn: Vec2): (r: real)
    requires Sound(m)
    ensures -TwoPi <= r <= 0.0
    ensures r == 0.0 <==> Direction(m, Sub(pb, pp)) == Direction(m, Sub(pb, pn))
  {
    Pi - Abs(Direction(m, Sub(pb, pp)) - Direction(m, Sub(pb, pn))) - Pi
  }

  /** Half the rotational force, rotK * (inner - restAngle + baseLineAngle) / 2;
      NaN when the rest angle is. */
  function HalfTorque(m: Math, rotK: real, restAngle: Scalar, baseLineAngle: real,
                      dp: Vec2, dn: Vec2): Scalar
    requires Sound(m)
  {
    match restAngle
    case Num(rest) => Num((rotK * (InnerAngle(m, dp, dn) - rest + baseLineAngle)) / 2.0)
    case NaN => NaN
  }

  /** A scalar times a vector, as a force. */
  function Push(k: Scalar, v: Vec2): (f: Force)
    ensures f.Finite? <==> k.Num?
  {
    match k
    case Num(x) => Finite(Scale(x, v))
    case NaN => NaNVector
  }

  /** The perpendicular to the arm from the previous body, (dp.y, -dp.x), scaled
      to unit length. */
  function PrevLever(m: Math, dp: Vec2): Vec2
    requires Sound(m)
  {
    Normalize(m, Vec2(dp.y, -dp.x))
  }

  /** The perpendicular to the arm from the next body, (-dn.y, dn.x), scaled to
      unit length. */
  function NextLever(m: Math, dn: Vec2): Vec2
    requires Sound(m)
  {
    Normalize(m, Vec2(-dn.y, dn.x))
  }

  /** The four calls of the angular spring, in the order the source makes them:
      previous body, next body, then the body twice (against each lever). */
  function AngularApplications(m: Math, rotK: real, restAngle: Scalar, baseLineAngle: real,
                               prev: BodyId, body: BodyId, next: BodyId,
                               pp: Vec2, pb: Vec2, pn: Vec2): seq<Application>
    requires Sound(m)
  {
    var dp := Sub(pb, pp);
    var dn := Sub(pb, pn);
    var half := HalfTorque(m, rotK, restAngle, baseLineAngle, dp, dn);
    var pv := PrevLever(m, dp);
    var nv := NextLever(m, dn);
    [Application(prev, Push(half, pv)), Application(next, Push(half, nv)),
     Application(body, Push(half, Neg(pv))), Application(body, Push(half, Neg(nv)))]
  }

  /** Every call one spring makes in a step: the distance pair, then, only
      when the spring has a previous body, the four angular calls. */
  function Applications(m: Math, positions: seq<Vec2>, linearK: real, rotK: real,
                        restLength: real, restAngle: Scalar, baseLineAngle: real,
                        prev: Option<BodyId>, body: BodyId, next: BodyId): (r: seq<Application>)
    requires Sound(m)
    requires body < |positions| && next < |positions|
    requires prev.Some? ==> prev.value < |positions|
    ensures Targets(r, |positions|)
    ensures |r| == if prev.Some? then 6 else 2
  {
    var linear := LinearApplications(m, linearK, restLength, body, next, positions[body], positions[next]);
    if prev.None? then linear
    else linear + AngularApplications(m, rotK, restAngle, baseLineAngle, prev.value, body, next,
                                      positions[prev.value], positions[body], positions[next])
  }

  lemma CancelScale(k: real, v: Vec2)
    ensures Add(Scale(k, v), Scale(k, Neg(v))) == Zero
  {
    assert k * -v.x == -(k * v.x);
    assert k * -v.y == -(k * v.y);
  }

  /** The two linear calls cancel: the distance spring adds no net force. */
  lemma LinearBalanced(m: Math, linearK: real, restLength: real,
                       body: BodyId, next: BodyId, pb: Vec2, pn: Vec2)
    requires Sound(m)
    ensures Net(LinearApplications(m, linearK, restLength, body, next, pb, pn)) == Finite(Zero)
  {
    var apps := LinearApplications(m, linearK, restLength, body, next, pb, pn);
    var half := LinearMagnitude(m, linearK, restLength, pb, pn) / 2.0;
    var dir := Normalize(m, Sub(pn, pb));
    CancelScale(half, dir);
    assert Net(apps[2..]) == Finite(Zero);
    assert Net(apps[1..]) == AddForce(apps[1].force, Finite(Zero));
  }

  /** At rest length the distance spring pushes on neither body. */
  lemma LinearAtRest(m: Math, linearK: real, restLength: real,
                     body: BodyId, next: BodyId, pb: Vec2, pn: Vec2)
    requires Sound(m) && Distance(m, pb, pn) == restLength
    ensures forall a | a in LinearApplications(m, linearK, restLength, body, next, pb, pn) ::
              a.force == Finite(Zero)
  {
  }

  /** The four angular calls cancel when the rest angle is a number. */
  lemma AngularBalanced(m: Math, rotK: real, restAngle: Scalar, baseLineAngle: real,
                        prev: BodyId, body: BodyId, next: BodyId, pp: Vec2, pb: Vec2, pn: Vec2)
    requires Sound(m) && restAngle.Num?
    ensures Net(AngularApplications(m, rotK, restAngle, baseLineAngle, prev, body, next, pp, pb, pn)) == Finite(Zero)
  {
    var apps := AngularApplications(m, rotK, restAngle, baseLineAngle, prev, body, next, pp, pb, pn);
    var dp := Sub(pb, pp);
    var dn := Sub(pb, pn);
    var k := HalfTorque(m, rotK, restAngle, baseLineAngle, dp, dn).v;
    var pv := PrevLever(m, dp);
    var nv := NextLever(m, dn);
    CancelScale(k, pv);
    CancelScale(k, nv);
    assert Net(apps[4..]) == Finite(Zero);
    assert Net(apps[3..]) == Finite(Scale(k, Neg(nv)));
    assert Net(apps[2..]) == Finite(Add(Scale(k, Neg(pv)), Scale(k, Neg(nv))));
  }

  /** A NaN rest angle makes all four angular calls NaN. */
  lemma AngularUndefined(m: Math, rotK: real, restAngle: Scalar, baseLineAngle: real,
                         prev: BodyId, body: BodyId, next: BodyId, pp: Vec2, pb: Vec2, pn: Vec2)
    requires Sound(m) && restAngle.NaN?
    ensures forall a | a in AngularApplications(m, rotK, restAngle, baseLineAngle, prev, body, next, pp, pb, pn) ::
              a.force == NaNVector
  {
  }

  lemma NetAppend(a: seq<Application>, b: seq<Application>)
    ensures Net(a + b) == AddForce(Net(a), Net(b))
    decreases |a|
  {
    if a == [] {
      assert a + b == b;
    } else {
      assert (a + b)[1..] == a[1..] + b;
      NetAppend(a[1..], b);
      AddForceAssociative(a[0].force, Net(a[1..]), Net(b));
    }
  }

  lemma NetZeroAppend(a: seq<Application>, b: seq<Application>)
    requires Net(a) == Finite(Zero) && Net(b) == Finite(Zero)
    ensures Net(a + b) == Finite(Zero)
  {
    NetAppend(a, b);
  }

  /** The forces one spring applies add up to zero unless its rest angle is
      NaN and it has a previous body. */
  lemma {:induction false} SpringBalanced(m: Math, positions: seq<Vec2>, linearK: real, rotK: real,
                                          restLength: real, restAngle: Scalar, baseLineAngle: real,
                                          prev: Option<BodyId>, body: BodyId, next: BodyId)
    requires Sound(m)
    requires body < |positions| && next < |positions|
    requires prev.Some? ==> prev.value < |positions|
    ensures (prev.None? || restAngle.Num?) ==>
              Net(Applications(m, positions, linearK, rotK, restLength, restAngle, baseLineAngle,
                               prev, body, next)) == Finite(Zero)
  {
    var pb, pn := positions[body], positions[next];
    var linear := LinearApplications(m, linearK, restLength, body, next, pb, pn);
    LinearBalanced(m, linearK, restLength, body, next, pb, pn);
    if prev.Some? && restAngle.Num? {
      var pp := positions[prev.value];
      var angular := AngularApplications(m, rotK, restAngle, baseLineAngle, prev.value, body, next, pp, pb, pn);
      AngularBalanced(m, rotK, restAngle, baseLineAngle, prev.value, body, next, pp, pb, pn);
      NetZeroAppend(linear, angular);
    }
  }

  /** The spring conserves the world's total force when the bodies it touches
      are all dynamic, and leaves every accumulator alone when they are all
      static. */
  lemma SpringConservesTotal(m: Math, positions: seq<Vec2>, forces: seq<Force>, dynamic: seq<bool>,
                             linearK: real, rotK: real, restLength: real, restAngle: Scalar,
                             baseLineAngle: real, prev: Option<BodyId>, body: BodyId, next: BodyId)
    requires Sound(m)
    requires |forces| == |positions| && |dynamic| == |positions|
    requires body < |positions| && next < |positions|
    requires prev.Some? ==> prev.value < |positions|
    requires prev.None? || restAngle.Num?
    requires dynamic[next] == dynamic[body] && (prev.Some? ==> dynamic[prev.value] == dynamic[body])
    ensures var after := Accumulate(forces, dynamic, Applications(m, positions, linearK, rotK, restLength,
                                                                 restAngle, baseLineAngle, prev, body, next));
            && Total(after) == Total(forces)
            && (!dynamic[body] ==> after == forces)
  {
    var apps := Applications(m, positions, linearK, rotK, restLength, restAngle, baseLineAngle, prev, body, next);
    assert forall i | 0 <= i < |apps| :: apps[i].body == body || apps[i].body == next ||
                                         (prev.Some? && apps[i].body == prev.value);
    if dynamic[body] {
      AccumulateTotal(forces, dynamic, apps);
      SpringBalanced(m, positions, linearK, rotK, restLength, restAngle, baseLineAngle, prev, body, next);
      assert AddForce(Total(forces), Finite(Zero)) == Total(forces);
    } else {
      AccumulateStatic(forces, dynamic, apps);
    }
  }

  /** The angular force on the previous body is perpendicular to its arm, and
      likewise for the next body: the levers turn the arms, they do not
      stretch them. */
  lemma LeversPerpendicular(m: Math, dp: Vec2, dn: Vec2)
    requires Sound(m)
    ensures PrevLever(m, dp).x * dp.x + PrevLever(m, dp).y * dp.y == 0.0
    ensures NextLever(m, dn).x * dn.x + NextLever(m, dn).y * dn.y == 0.0
  {
    NormalizedPerpendicular(m, Vec2(dp.y, -dp.x), dp);
    NormalizedPerpendicular(m, Vec2(-dn.y, dn.x), dn);
  }

  lemma NormalizedPerpendicular(m: Math, a: Vec2, d: Vec2)
    requires Sound(m)
    requires a.x * d.x + a.y * d.y == 0.0
    ensures Normalize(m, a).x * d.x + Normalize(m, a).y * d.y == 0.0
  {
    var u := Normalize(m, a);
    var len := Length(m, a);
    if len >= Epsilon {
      assert len * u.x == a.x && len * u.y == a.y;
      var dot := u.x * d.x + u.y * d.y;
      assert len * dot == (len * u.x) * d.x + (len * u.y) * d.y;
      assert len * dot == 0.0;
      if dot != 0.0 {
        MulNonZero(len, dot);
        assert false;
      }
    }
  }

  lemma MulNonZero(a: real, b: real)
    requires a != 0.0 && b != 0.0
    ensures a * b != 0.0
  {
  }
}
