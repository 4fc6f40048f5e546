/** The fractal tree of SpringWorld::drawTree, as the list of branches the
    recursion draws, in the order it draws them: the branch itself, then the
    whole subtree turned 20 degrees one way, then the subtree turned 20
    degrees the other way. */
module Tree {
  import opened Util
  import opened Geometry

  /** How much longer a branch is than its depth. */
  const Stretch: real := 1.15

  /** The turn between a branch and each of its two children. */
  const Turn: real := 20.0 * DegToRad

  /** createFractalTree draws its tree from (0, 10), pointing straight down. */
  const TreeRoot: Vec2 := Vec2(0.0, 10.0)
  const TreeAngle: real := -90.0 * DegToRad

  /** Where the branch of the given depth drawn from p at the given angle ends. */
  function BranchEnd(m: Math, p: Vec2, angle: real, depth: nat): Vec2 {
    Vec2(p.x + m.cos(angle) * depth as real * Stretch, p.y + m.sin(angle) * depth as real * Stretch)
  }

  /** The branches drawTree(p, angle, depth) draws. */
  function TreeEdges(m: Math, p: Vec2, angle: real, depth: nat): seq<Edge>
    decreases depth
  {
    if depth == 0 then []
    else
      var q := BranchEnd(m, p, angle, depth);
      [Edge(p, q)] + TreeEdges(m, q, angle - Turn, depth - 1) + TreeEdges(m, q, angle + Turn, depth - 1)
  }

  /** A tree is its first branch and then its two subtrees. */
  lemma TreeSplit(m: Math, p: Vec2, angle: real, depth: nat)
    requires depth > 0
    ensures TreeEdges(m, p, angle, depth) ==
            [Edge(p, BranchEnd(m, p, angle, depth))] +
            TreeEdges(m, BranchEnd(m, p, angle, depth), angle - Turn, depth - 1) +
            TreeEdges(m, BranchEnd(m, p, angle, depth), angle + Turn, depth - 1)
  {
  }

  function Pow2(d: nat): (r: nat)
    ensures r >= 1
    ensures d > 0 ==> r >= 2
  {
    if d == 0 then 1 else 2 * Pow2(d - 1)
  }

  /** A tree of depth d has 2^d - 1 branches. */
  lemma {:induction false} TreeSize(m: Math, p: Vec2, angle: real, depth: nat)
    ensures |TreeEdges(m, p, angle, depth)| == Pow2(depth) - 1
    decreases depth
  {
    if depth > 0 {
      var q := BranchEnd(m, p, angle, depth);
      TreeSize(m, q, angle - Turn, depth - 1);
      TreeSize(m, q, angle + Turn, depth - 1);
    }
  }

  /** The first branch starts at the root; the first branch of each subtree
      starts where the first branch ends. */
  lemma TreeShape(m: Math, p: Vec2, angle: real, depth: nat)
    requires depth > 1
    ensures |TreeEdges(m, p, angle, depth)| == Pow2(depth) - 1 > Pow2(depth - 1)
    ensures TreeEdges(m, p, angle, depth)[0] == Edge(p, BranchEnd(m, p, angle, depth))
    ensures TreeEdges(m, p, angle, depth)[1].a == BranchEnd(m, p, angle, depth)
    ensures TreeEdges(m, p, angle, depth)[Pow2(depth - 1)].a == BranchEnd(m, p, angle, depth)
  {
    var q := BranchEnd(m, p, angle, depth);
    var left := TreeEdges(m, q, angle - Turn, depth - 1);
    var right := TreeEdges(m, q, angle + Turn, depth - 1);
    TreeSize(m, q, angle - Turn, depth - 1);
    TreeSize(m, q, angle + Turn, depth - 1);
    assert TreeEdges(m, p, angle, depth) == [Edge(p, q)] + left + right;
    assert left[0] == Edge(q, BranchEnd(m, q, angle - Turn, depth - 1));
    assert right[0] == Edge(q, BranchEnd(m, q, angle + Turn, depth - 1));
  }

  /** The tree is connected and drawn from its root outwards: the first branch
      starts at the root and every other branch starts where an earlier one
      ends. */
  predicate Grown(es: seq<Edge>, root: Vec2) {
    (|es| > 0 ==> es[0].a == root) && Linked(es)
  }

  function EndPoints(es: seq<Edge>): set<Vec2> {
    set j | 0 <= j < |es| :: es[j].b
  }

  predicate Linked(es: seq<Edge>) {
    forall k | 0 < k < |es| :: es[k].a in EndPoints(es[..k])
  }

  lemma {:induction false} TreeGrown(m: Math, p: Vec2, angle: real, depth: nat)
    ensures Grown(TreeEdges(m, p, angle, depth), p)
    decreases depth
  {
    if depth > 0 {
      var q := BranchEnd(m, p, angle, depth);
      var left := TreeEdges(m, q, angle - Turn, depth - 1);
      var right := TreeEdges(m, q, angle + Turn, depth - 1);
      TreeGrown(m, q, angle - Turn, depth - 1);
      TreeGrown(m, q, angle + Turn, depth - 1);
      ChildGrown([Edge(p, q)], left, q);
      ChildGrown([Edge(p, q)] + left, right, q);
    }
  }

  /** Appending a subtree rooted at the end of the first branch keeps the
      branches linked. */
  lemma ChildGrown(es: seq<Edge>, child: seq<Edge>, q: Vec2)
    requires |es| > 0 && es[0].b == q
    requires Linked(es) && Grown(child, q)
    ensures Linked(es + child)
    ensures (es + child)[0] == es[0]
  {
    var all := es + child;
    forall k | 0 < k < |all| ensures all[k].a in EndPoints(all[..k]) {
      if k < |es| {
        assert all[..k] == es[..k];
      } else if k == |es| {
        assert all[..k][0] == es[0] && all[k] == child[0];
      } else {
        var i := k - |es|;
        assert child[i].a in EndPoints(child[..i]);
        var j :| 0 <= j < i && child[..i][j].b == child[i].a;
        assert all[..k][|es| + j] == child[..i][j] && all[k] == child[i];
      }
    }
  }
}
