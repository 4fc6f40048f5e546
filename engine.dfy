/** The part of the Box2D world the spring network uses: bodies with a position,
    a dynamic flag and a force accumulator, and a log of the revolute joints
    created between bodies. A body is named by its index. Integration
    (b2World::Step) is not part of this model, so positions never change after
    a body is created. */
module Engine {
  import opened Geometry

  type BodyId = nat

  /** A force as Box2D accumulates it. A NaN component (such as a rest angle of
      0/0 produces) spreads to every sum it takes part in. */
  datatype Force = Finite(v: Vec2) | NaNVector

  /** Vector addition, with NaN absorbing. */
  function AddForce(a: Force, b: Force): (r: Force)
    ensures r.Finite? <==> a.Finite? && b.Finite?
    ensures r.Finite? ==> r.v.x == a.v.x + b.v.x && r.v.y == a.v.y + b.v.y
  {
    if a.Finite? && b.Finite? then Finite(Add(a.v, b.v)) else NaNVector
  }

  /** A revolute joint between two bodies. */
  datatype Joint = Joint(bodyA: BodyId, bodyB: BodyId, collideConnected: bool)

  /** The effect of b2Body::ApplyForceToCenter: a dynamic body adds the force
      to its accumulator, a static body ignores it. */
  function ApplyForce(forces: seq<Force>, dynamic: seq<bool>, b: BodyId, f: Force): (r: seq<Force>)
    requires b < |forces| && |dynamic| == |forces|
    ensures |r| == |forces|
    ensures forall c | 0 <= c < |forces| && c != b :: r[c] == forces[c]
    ensures dynamic[b] ==> r[b] == AddForce(forces[b], f)
    ensures !dynamic[b] ==> r == forces
  {
    if dynamic[b] then forces[b := AddForce(forces[b], f)] else forces
  }

  /** The sum of all accumulated forces. */
  function Total(forces: seq<Force>): Force
  {
    if forces == [] then Finite(Zero)
    else AddForce(Total(forces[..|forces| - 1]), forces[|forces| - 1])
  }

  lemma AddForceAssociative(a: Force, b: Force, c: Force)
    ensures AddForce(AddForce(a, b), c) == AddForce(a, AddForce(b, c))
  {
  }

  lemma AddForceCommutative(a: Force, b: Force)
    ensures AddForce(a, b) == AddForce(b, a)
  {
  }

  /** Adding f to one accumulator adds f to the total. */
  lemma {:induction false} TotalAfterAdd(forces: seq<Force>, b: nat, f: Force)
    requires b < |forces|
    ensures Total(forces[b := AddForce(forces[b], f)]) == AddForce(Total(forces), f)
    decreases |forces|
  {
    var n := |forces| - 1;
    var updated := forces[b := AddForce(forces[b], f)];
    assert updated[..n] == if b < n then forces[..n][b := AddForce(forces[b], f)] else forces[..n];
    if b < n {
      TotalAfterAdd(forces[..n], b, f);
      AddForceAssociative(Total(forces[..n]), f, forces[n]);
      AddForceCommutative(f, forces[n]);
      AddForceAssociative(Total(forces[..n]), forces[n], f);
    } else {
      AddForceAssociative(Total(forces[..n]), forces[n], f);
    }
  }

  /** A world of bodies (b2World restricted to what the spring network uses). */
  class BodyEngine {
    const math: Math
    var positions: seq<Vec2>
    var dynamic: seq<bool>
    var forces: seq<Force>
    var joints: seq<Joint>

    ghost predicate Valid()
      reads this
    {
      && Sound(math)
      && |dynamic| == |positions|
      && |forces| == |positions|
      && (forall j | j in joints :: j.bodyA < |positions| && j.bodyB < |positions|)
    }

    constructor (math: Math)
      requires Sound(math)
      ensures Valid()
      ensures this.math == math
      ensures positions == [] && dynamic == [] && forces == [] && joints == []
    {
      this.math := math;
      positions := [];
      dynamic := [];
      forces := [];
      joints := [];
    }

    /** b2World::CreateBody: a new body at the given position, with no force
        accumulated; its id is the number of bodies created before it. */
    method CreateBody(position: Vec2, isDynamic: bool) returns (id: BodyId)
      requires Valid()
      modifies this`positions, this`dynamic, this`forces
      ensures Valid()
      ensures id == |old(positions)|
      ensures positions == old(positions) + [position]
      ensures dynamic == old(dynamic) + [isDynamic]
      ensures forces == old(forces) + [Finite(Zero)]
    {
      id := |positions|;
      positions := positions + [position];
      dynamic := dynamic + [isDynamic];
      forces := forces + [Finite(Zero)];
    }

    /** b2World::CreateJoint for a revolute joint whose bodies do not collide. */
    method CreateJoint(a: BodyId, b: BodyId)
      requires Valid() && a < |positions| && b < |positions|
      modifies this`joints
      ensures Valid()
      ensures joints == old(joints) + [Joint(a, b, false)]
    {
      joints := joints + [Joint(a, b, false)];
    }

    /** b2Body::ApplyForceToCenter on body b. */
    method ApplyForceToCenter(b: BodyId, f: Force)
      requires Valid() && b < |positions|
      modifies this`forces
      ensures Valid()
      ensures forces == ApplyForce(old(forces), dynamic, b, f)
    {
      if dynamic[b] {
        forces := forces[b := AddForce(forces[b], f)];
      }
    }
  }
}
