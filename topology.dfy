/** What SpringWorld::connectSpringLines computes, as values: the end points
    of distinct lines that coincide, in the order the nested loops find them,
    the joints created for them, and the relative angles appended to each
    line's startAngles and endAngles. */
module Topology {
  import opened Util
  import opened Geometry
  import opened Engine

  /** What connectSpringLines reads of one spring line. */
  datatype LineEnds = LineEnds(startPoint: Vec2, endPoint: Vec2,
                               startBody: BodyId, endBody: BodyId, initialAngle: real)

  datatype Side = Start | End

  /** The distance at or below which two end points are joined. */
  const MinDistance: real := 0.00001

  function Point(l: LineEnds, side: Side): Vec2 {
    if side == Start then l.startPoint else l.endPoint
  }

  function BodyAt(l: LineEnds, side: Side): BodyId {
    if side == Start then l.startBody else l.endBody
  }

  /** End `firstSide` of line `first` lies on end `secondSide` of line `second`. */
  datatype Coincidence = Coincidence(first: nat, firstSide: Side, second: nat, secondSide: Side)

  predicate InRange(ls: seq<LineEnds>, c: Coincidence) {
    c.first < |ls| && c.second < |ls|
  }

  predicate Coincide(m: Math, ls: seq<LineEnds>, c: Coincidence)
    requires Sound(m) && InRange(ls, c)
  {
    Distance(m, Point(ls[c.first], c.firstSide), Point(ls[c.second], c.secondSide)) <= MinDistance
  }

  /** Which end pairs lie within MinDistance, as a function value, so that the
      loop structure below can be reasoned about apart from the geometry. */
  function Nearness(m: Math, ls: seq<LineEnds>): Coincidence -> bool
    requires Sound(m)
  {
    c => InRange(ls, c) && Coincide(m, ls, c)
  }

  /** `near` tells rightly whether the end pair c lies within MinDistance. */
  ghost predicate NearAt(near: Coincidence -> bool, m: Math, ls: seq<LineEnds>, c: Coincidence)
    requires Sound(m)
  {
    near(c) == (InRange(ls, c) && Coincide(m, ls, c))
  }

  /** `near` tells which end pairs lie within MinDistance. */
  ghost predicate NearIs(near: Coincidence -> bool, m: Math, ls: seq<LineEnds>)
    requires Sound(m)
  {
    forall c :: NearAt(near, m, ls, c)
  }

  lemma NearnessIs(m: Math, ls: seq<LineEnds>)
    requires Sound(m)
    ensures NearIs(Nearness(m, ls), m, ls)
  {
  }

  /** One of the four tests for the pair (i, j). */
  function Test(near: Coincidence -> bool, i: nat, si: Side, j: nat, sj: Side): seq<Coincidence>
  {
    var c := Coincidence(i, si, j, sj);
    if near(c) then [c] else []
  }

  /** The four tests of the pair (i, j), in the order start-start, start-end,
      end-start, end-end. */
  function PairCoincidences(near: Coincidence -> bool, i: nat, j: nat): seq<Coincidence>
  {
    Test(near, i, Start, j, Start) + Test(near, i, Start, j, End) +
    Test(near, i, End, j, Start) + Test(near, i, End, j, End)
  }

  /** The end pairs the nested loops test, near or not, in the order they
      test them: for the pair (i, j), start-start, start-end, end-start,
      end-end. */
  function PairCandidates(i: nat, j: nat): seq<Coincidence> {
    [Coincidence(i, Start, j, Start), Coincidence(i, Start, j, End),
     Coincidence(i, End, j, Start), Coincidence(i, End, j, End)]
  }

  function RowCandidates(i: nat, j: nat): seq<Coincidence>
    requires i < j
    decreases j
  {
    if j == i + 1 then [] else RowCandidates(i, j - 1) + PairCandidates(i, j - 1)
  }

  function PrefixCandidates(i: nat, n: nat): seq<Coincidence>
    requires i <= n
  {
    if i == 0 then [] else PrefixCandidates(i - 1, n) + RowCandidates(i - 1, n)
  }

  /** The candidates that are near, in their order. */
  function Filter(near: Coincidence -> bool, cs: seq<Coincidence>): seq<Coincidence>
    decreases |cs|
  {
    if cs == [] then [] else (if near(cs[0]) then [cs[0]] else []) + Filter(near, cs[1..])
  }

  /** What the inner loop for line i finds among the lines i+1 .. j-1. */
  function Row(near: Coincidence -> bool, i: nat, j: nat): seq<Coincidence>
    requires i < j
  {
    Filter(near, RowCandidates(i, j))
  }

  /** What the outer loop finds over the lines 0 .. i-1 of n lines. */
  function Prefix(near: Coincidence -> bool, i: nat, n: nat): seq<Coincidence>
    requires i <= n
  {
    Filter(near, PrefixCandidates(i, n))
  }

  /** Every coincidence connectSpringLines finds, in the order it finds them. */
  function Coincidences(m: Math, ls: seq<LineEnds>): seq<Coincidence>
    requires Sound(m)
  {
    Prefix(Nearness(m, ls), |ls|, |ls|)
  }

  predicate AllInRange(ls: seq<LineEnds>, cs: seq<Coincidence>) {
    forall p | 0 <= p < |cs| :: InRange(ls, cs[p])
  }

  /** The joint created for a coincidence: between the two end bodies, with
      collideConnected false. */
  function JointOf(ls: seq<LineEnds>, c: Coincidence): Joint
    requires InRange(ls, c)
  {
    Joint(BodyAt(ls[c.first], c.firstSide), BodyAt(ls[c.second], c.secondSide), false)
  }

  function JointsOf(ls: seq<LineEnds>, cs: seq<Coincidence>): (r: seq<Joint>)
    requires AllInRange(ls, cs)
    ensures |r| == |cs|
    ensures forall p | 0 <= p < |cs| :: r[p] == JointOf(ls, cs[p])
  {
    seq(|cs|, p requires 0 <= p < |cs| => JointOf(ls, cs[p]))
  }

  /** The joints after j0 and cs, then the joint of c, are the joints after j0 and cs + [c]. */
  lemma JointsOfSnoc(ls: seq<LineEnds>, cs: seq<Coincidence>, c: Coincidence, j0: seq<Joint>)
    requires AllInRange(ls, cs) && InRange(ls, c)
    ensures AllInRange(ls, cs + [c])
    ensures j0 + JointsOf(ls, cs) + [JointOf(ls, c)] == j0 + JointsOf(ls, cs + [c])
  {
    AllInRangeAppend(ls, cs, [c]);
    assert JointsOf(ls, cs + [c]) == JointsOf(ls, cs) + [JointOf(ls, c)];
  }

  /** The angle appended to the first line's list: the second line's initial
      angle relative to the first's, wrapped by clampAngle. */
  function FirstAngle(ls: seq<LineEnds>, c: Coincidence): real
    requires InRange(ls, c)
  {
    ClampAngle(ls[c.second].initialAngle - ls[c.first].initialAngle)
  }

  /** The angle appended to the second line's list. */
  function SecondAngle(ls: seq<LineEnds>, c: Coincidence): real
    requires InRange(ls, c)
  {
    ClampAngle(ls[c.first].initialAngle - ls[c.second].initialAngle)
  }

  /** What one coincidence appends to the `side` list of line k. */
  function Contribution(ls: seq<LineEnds>, c: Coincidence, k: nat, side: Side): seq<real>
    requires InRange(ls, c)
  {
    (if c.first == k && c.firstSide == side then [FirstAngle(ls, c)] else []) +
    (if c.second == k && c.secondSide == side then [SecondAngle(ls, c)] else [])
  }

  /** What a sequence of coincidences appends to the `side` list of line k. */
  function Appended(ls: seq<LineEnds>, cs: seq<Coincidence>, k: nat, side: Side): seq<real>
    requires AllInRange(ls, cs)
    decreases |cs|
  {
    if cs == [] then []
    else Appended(ls, cs[..|cs| - 1], k, side) + Contribution(ls, cs[|cs| - 1], k, side)
  }

  lemma AllInRangeAppend(ls: seq<LineEnds>, a: seq<Coincidence>, b: seq<Coincidence>)
    requires AllInRange(ls, a) && AllInRange(ls, b)
    ensures AllInRange(ls, a + b)
  {
    forall p | 0 <= p < |a + b| ensures InRange(ls, (a + b)[p]) {
      if p < |a| { assert (a + b)[p] == a[p]; } else { assert (a + b)[p] == b[p - |a|]; }
    }
  }

  /** Appending one coincidence appends its contribution. */
  lemma AppendedSnoc(ls: seq<LineEnds>, cs: seq<Coincidence>, c: Coincidence, k: nat, side: Side)
    requires AllInRange(ls, cs) && InRange(ls, c)
    ensures AllInRange(ls, cs + [c])
    ensures Appended(ls, cs + [c], k, side) == Appended(ls, cs, k, side) + Contribution(ls, c, k, side)
  {
    AllInRangeAppend(ls, cs, [c]);
    assert (cs + [c])[..|cs|] == cs;
  }

  /** A list that holds base followed by what cs appended holds, after the
      contribution of c, base followed by what cs + [c] appended. */
  lemma ListAfter(ls: seq<LineEnds>, cs: seq<Coincidence>, c: Coincidence, k: nat, side: Side,
                  base: seq<real>, before: seq<real>)
    requires AllInRange(ls, cs) && InRange(ls, c)
    requires before == base + Appended(ls, cs, k, side)
    ensures AllInRange(ls, cs + [c])
    ensures before + Contribution(ls, c, k, side) == base + Appended(ls, cs + [c], k, side)
  {
    AppendedSnoc(ls, cs, c, k, side);
    ConcatAssoc(base, Appended(ls, cs, k, side), Contribution(ls, c, k, side));
  }

  lemma ConcatAssoc<T>(a: seq<T>, b: seq<T>, c: seq<T>)
    ensures (a + b) + c == a + (b + c)
  {
  }

  /** The `side` lists of all lines after cs, each starting from its entry in base. */
  function AngleLists(ls: seq<LineEnds>, cs: seq<Coincidence>, base: seq<seq<real>>, side: Side): (r: seq<seq<real>>)
    requires AllInRange(ls, cs)
    ensures |r| == |base|
    ensures forall k | 0 <= k < |base| :: r[k] == base[k] + Appended(ls, cs, k, side)
  {
    seq(|base|, k requires 0 <= k < |base| => base[k] + Appended(ls, cs, k, side))
  }

  /** The `side` lists after the coincidence c has been handled. */
  function Contributed(ls: seq<LineEnds>, c: Coincidence, lists: seq<seq<real>>, side: Side): (r: seq<seq<real>>)
    requires InRange(ls, c)
    ensures |r| == |lists|
    ensures forall k | 0 <= k < |lists| :: r[k] == lists[k] + Contribution(ls, c, k, side)
  {
    seq(|lists|, k requires 0 <= k < |lists| => lists[k] + Contribution(ls, c, k, side))
  }

  /** What connectSpringLines has built so far: the joints, and the start and
      end angle lists of every line. */
  datatype Connections = Connections(joints: seq<Joint>, starts: seq<seq<real>>, ends: seq<seq<real>>)

  /** Handling one coincidence: its joint, and its two angles. A coincidence
      naming a line that does not exist changes nothing (connectSpringLines
      never produces one). */
  function JoinStep(ls: seq<LineEnds>, b: Connections, c: Coincidence): Connections {
    if InRange(ls, c) then
      Connections(b.joints + [JointOf(ls, c)], Contributed(ls, c, b.starts, Start), Contributed(ls, c, b.ends, End))
    else b
  }

  /** How one coincidence is handled, as a value: the loops below are stated
      over any such step, and JoinStep is the one connectSpringLines takes. */
  type Step = (Connections, Coincidence) -> Connections

  /** step handles every coincidence as JoinStep over the lines ls does. */
  ghost predicate IsJoiner(step: Step, ls: seq<LineEnds>) {
    forall b, c {:trigger JoinStep(ls, b, c)} :: step(b, c) == JoinStep(ls, b, c)
  }

  /** Handling the coincidences cs one after another. */
  function Apply(step: Step, b: Connections, cs: seq<Coincidence>): Connections
    decreases |cs|
  {
    if cs == [] then b else step(Apply(step, b, cs[..|cs| - 1]), cs[|cs| - 1])
  }

  lemma ApplyOne(step: Step, b: Connections, c: Coincidence)
    ensures Apply(step, b, []) == b
    ensures Apply(step, b, [c]) == step(b, c)
  {
    assert [c][..0] == [];
  }

  /** Handling a + b is handling a, then b. */
  lemma {:induction false} ApplyConcat(step: Step, s: Connections, a: seq<Coincidence>, b: seq<Coincidence>)
    ensures Apply(step, s, a + b) == Apply(step, Apply(step, s, a), b)
    decreases |b|
  {
    if b == [] {
      assert a + b == a;
    } else {
      var n := |b| - 1;
      assert (a + b)[..|a + b| - 1] == a + b[..n];
      assert (a + b)[|a + b| - 1] == b[n];
      ApplyConcat(step, s, a, b[..n]);
    }
  }

  /** Handling a, then b, is handling a + b. */
  lemma ApplyThen(step: Step, s: Connections, a: seq<Coincidence>, b: seq<Coincidence>, mid: Connections, last: Connections)
    requires mid == Apply(step, s, a) && last == Apply(step, mid, b)
    ensures last == Apply(step, s, a + b)
  {
    ApplyConcat(step, s, a, b);
  }

  /** The four tests of the pair one after another. */
  lemma PairApply(step: Step, s: Connections, near: Coincidence -> bool, i: nat, j: nat)
    ensures Apply(step, Apply(step, Apply(step, Apply(step, s, Test(near, i, Start, j, Start)),
                                          Test(near, i, Start, j, End)),
                              Test(near, i, End, j, Start)),
                  Test(near, i, End, j, End)) ==
            Apply(step, s, PairCoincidences(near, i, j))
  {
    var t1, t2 := Test(near, i, Start, j, Start), Test(near, i, Start, j, End);
    var t3, t4 := Test(near, i, End, j, Start), Test(near, i, End, j, End);
    ApplyConcat(step, s, t1, t2);
    ApplyConcat(step, s, t1 + t2, t3);
    ApplyConcat(step, s, t1 + t2 + t3, t4);
  }

  /** One test: a coincidence that is near is handled. */
  function Tested(step: Step, s: Connections, near: Coincidence -> bool, c: Coincidence): Connections {
    if near(c) then step(s, c) else s
  }

  /** The four tests of the pair (i, j). */
  function PairResult(step: Step, s: Connections, near: Coincidence -> bool, i: nat, j: nat): Connections {
    var s1 := Tested(step, s, near, Coincidence(i, Start, j, Start));
    var s2 := Tested(step, s1, near, Coincidence(i, Start, j, End));
    var s3 := Tested(step, s2, near, Coincidence(i, End, j, Start));
    Tested(step, s3, near, Coincidence(i, End, j, End))
  }

  /** The inner loop for line i, over the lines i+1 .. j-1. */
  function RowResult(step: Step, s: Connections, near: Coincidence -> bool, i: nat, j: nat): Connections
    requires i < j
    decreases j
  {
    if j == i + 1 then s else PairResult(step, RowResult(step, s, near, i, j - 1), near, i, j - 1)
  }

  /** The outer loop over the lines 0 .. i-1 of n lines. */
  function PrefixResult(step: Step, s: Connections, near: Coincidence -> bool, i: nat, n: nat): Connections
    requires i <= n
  {
    if i == 0 then s else RowResult(step, PrefixResult(step, s, near, i - 1, n), near, i - 1, n)
  }

  /** One more pass of the inner loop. */
  lemma RowStep(step: Step, s: Connections, near: Coincidence -> bool, i: nat, j: nat)
    requires i < j
    ensures RowResult(step, s, near, i, j + 1) == PairResult(step, RowResult(step, s, near, i, j), near, i, j)
  {
  }

  /** One more pass of the outer loop. */
  lemma PrefixStep(step: Step, s: Connections, near: Coincidence -> bool, i: nat, n: nat)
    requires i < n
    ensures PrefixResult(step, s, near, i + 1, n) == RowResult(step, PrefixResult(step, s, near, i, n), near, i, n)
  {
  }

  lemma TestedIsApply(step: Step, s: Connections, near: Coincidence -> bool, c: Coincidence)
    ensures Tested(step, s, near, c) == Apply(step, s, if near(c) then [c] else [])
  {
    ApplyOne(step, s, c);
  }

  lemma PairResultIsApply(step: Step, s: Connections, near: Coincidence -> bool, i: nat, j: nat)
    ensures PairResult(step, s, near, i, j) == Apply(step, s, PairCoincidences(near, i, j))
  {
    var s1 := Apply(step, s, Test(near, i, Start, j, Start));
    var s2 := Apply(step, s1, Test(near, i, Start, j, End));
    var s3 := Apply(step, s2, Test(near, i, End, j, Start));
    TestedIsApply(step, s, near, Coincidence(i, Start, j, Start));
    TestedIsApply(step, s1, near, Coincidence(i, Start, j, End));
    TestedIsApply(step, s2, near, Coincidence(i, End, j, Start));
    TestedIsApply(step, s3, near, Coincidence(i, End, j, End));
    PairApply(step, s, near, i, j);
  }

  lemma {:induction false} RowResultIsApply(step: Step, s: Connections, near: Coincidence -> bool, i: nat, j: nat)
    requires i < j
    ensures RowResult(step, s, near, i, j) == Apply(step, s, Row(near, i, j))
    decreases j
  {
    if j > i + 1 {
      var before, row, pair := RowResult(step, s, near, i, j - 1), Row(near, i, j - 1), PairCoincidences(near, i, j - 1);
      RowResultIsApply(step, s, near, i, j - 1);
      PairResultIsApply(step, before, near, i, j - 1);
      ApplyThen(step, s, row, pair, before, PairResult(step, before, near, i, j - 1));
      RowSplit(near, i, j);
    } else {
      RowFirst(near, i);
    }
  }

  /** The two nested loops handle the coincidences they find, in order. */
  lemma {:induction false} PrefixResultIsApply(step: Step, s: Connections, near: Coincidence -> bool, i: nat, n: nat)
    requires i <= n
    ensures PrefixResult(step, s, near, i, n) == Apply(step, s, Prefix(near, i, n))
    decreases i
  {
    if i > 0 {
      var before, done, row := PrefixResult(step, s, near, i - 1, n), Prefix(near, i - 1, n), Row(near, i - 1, n);
      PrefixResultIsApply(step, s, near, i - 1, n);
      RowResultIsApply(step, before, near, i - 1, n);
      ApplyThen(step, s, done, row, before, RowResult(step, before, near, i - 1, n));
      PrefixSplit(near, i, n);
    } else {
      PrefixFirst(near, n);
    }
  }

  /** Handling cs with JoinStep appends the joints of cs, in order, and to each
      list what cs appends to it. */
  lemma {:induction false} ApplyIs(ls: seq<LineEnds>, step: Step, s: Connections, cs: seq<Coincidence>)
    requires IsJoiner(step, ls) && AllInRange(ls, cs)
    ensures Apply(step, s, cs) ==
            Connections(s.joints + JointsOf(ls, cs), AngleLists(ls, cs, s.starts, Start), AngleLists(ls, cs, s.ends, End))
    decreases |cs|
  {
    if cs == [] {
      assert s.joints + JointsOf(ls, cs) == s.joints;
      AngleListsEmpty(ls, s.starts, Start);
      AngleListsEmpty(ls, s.ends, End);
    } else {
      var n := |cs| - 1;
      var front, c := cs[..n], cs[n];
      assert AllInRange(ls, front) && InRange(ls, c);
      assert front + [c] == cs;
      var before := Apply(step, s, front);
      assert Apply(step, s, cs) == step(before, c) == JoinStep(ls, before, c);
      ApplyIs(ls, step, s, front);
      JointsOfSnoc(ls, front, c, s.joints);
      ListsAfter(ls, front, c, Start, s.starts, AngleLists(ls, front, s.starts, Start),
                 Contributed(ls, c, AngleLists(ls, front, s.starts, Start), Start));
      ListsAfter(ls, front, c, End, s.ends, AngleLists(ls, front, s.ends, End),
                 Contributed(ls, c, AngleLists(ls, front, s.ends, End), End));
    }
  }

  /** Before any coincidence, the lists are the starting ones. */
  lemma AngleListsEmpty(ls: seq<LineEnds>, base: seq<seq<real>>, side: Side)
    ensures AllInRange(ls, []) && AngleLists(ls, [], base, side) == base
  {
    forall k | 0 <= k < |base| ensures AngleLists(ls, [], base, side)[k] == base[k] {
      assert base[k] + [] == base[k];
    }
  }

  /** Each list taking the contribution of c takes all lists on from cs to cs + [c]. */
  lemma ListsAfter(ls: seq<LineEnds>, cs: seq<Coincidence>, c: Coincidence, side: Side,
                   base: seq<seq<real>>, before: seq<seq<real>>, after: seq<seq<real>>)
    requires AllInRange(ls, cs) && InRange(ls, c)
    requires before == AngleLists(ls, cs, base, side)
    requires |after| == |before|
    requires forall k | 0 <= k < |before| :: after[k] == before[k] + Contribution(ls, c, k, side)
    ensures AllInRange(ls, cs + [c])
    ensures after == AngleLists(ls, cs + [c], base, side)
  {
    AllInRangeAppend(ls, cs, [c]);
    forall k | 0 <= k < |after| ensures after[k] == AngleLists(ls, cs + [c], base, side)[k] {
      ListAfter(ls, cs, c, k, side, base[k], before[k]);
    }
  }

  /** The lists with a appended to the list of line k. */
  function Extend(lists: seq<seq<real>>, k: nat, a: seq<real>): (r: seq<seq<real>>)
    requires k < |lists|
    ensures |r| == |lists| && r[k] == lists[k] + a
    ensures forall q | 0 <= q < |lists| && q != k :: r[q] == lists[q]
  {
    lists[k := lists[k] + a]
  }

  /** Appending the two angles of c, one to the list of each of its two
      distinct lines, is its contribution to every list. */
  lemma ExtendTwice(ls: seq<LineEnds>, c: Coincidence, lists: seq<seq<real>>, side: Side)
    requires InRange(ls, c) && c.first != c.second && c.first < |lists| && c.second < |lists|
    ensures Extend(Extend(lists, c.first, if c.firstSide == side then [FirstAngle(ls, c)] else []),
                   c.second, if c.secondSide == side then [SecondAngle(ls, c)] else []) ==
            Contributed(ls, c, lists, side)
  {
    var x := if c.firstSide == side then [FirstAngle(ls, c)] else [];
    var y := if c.secondSide == side then [SecondAngle(ls, c)] else [];
    var after := Extend(Extend(lists, c.first, x), c.second, y);
    forall k | 0 <= k < |lists| ensures after[k] == lists[k] + Contribution(ls, c, k, side) {
      if k == c.first {
        assert Contribution(ls, c, k, side) == x + [];
      } else if k == c.second {
        assert Contribution(ls, c, k, side) == [] + y;
      } else {
        assert Contribution(ls, c, k, side) == [] + [];
      }
    }
  }

  /** Appended distributes over concatenation. */
  lemma {:induction false} AppendedConcat(ls: seq<LineEnds>, a: seq<Coincidence>, b: seq<Coincidence>, k: nat, side: Side)
    requires AllInRange(ls, a) && AllInRange(ls, b)
    ensures AllInRange(ls, a + b)
    ensures Appended(ls, a + b, k, side) == Appended(ls, a, k, side) + Appended(ls, b, k, side)
    decreases |b|
  {
    AllInRangeAppend(ls, a, b);
    if b == [] {
      assert a + b == a;
    } else {
      var n := |b| - 1;
      assert AllInRange(ls, b[..n]);
      assert (a + b)[..|a + b| - 1] == a + b[..n];
      AppendedConcat(ls, a, b[..n], k, side);
    }
  }

  lemma {:induction false} FilterConcat(near: Coincidence -> bool, a: seq<Coincidence>, b: seq<Coincidence>)
    ensures Filter(near, a + b) == Filter(near, a) + Filter(near, b)
    decreases |a|
  {
    if a == [] {
      assert a + b == b;
    } else {
      assert (a + b)[0] == a[0] && (a + b)[1..] == a[1..] + b;
      FilterConcat(near, a[1..], b);
    }
  }

  lemma {:induction false} FilterMember(near: Coincidence -> bool, cs: seq<Coincidence>, c: Coincidence)
    ensures c in Filter(near, cs) <==> c in cs && near(c)
    decreases |cs|
  {
    if cs != [] {
      FilterMember(near, cs[1..], c);
      assert cs == [cs[0]] + cs[1..];
    }
  }

  /** Filtering keeps the order. */
  lemma {:induction false} FilterOrdered(near: Coincidence -> bool, cs: seq<Coincidence>)
    requires Ordered(cs)
    ensures Ordered(Filter(near, cs))
    decreases |cs|
  {
    if cs != [] {
      var rest := cs[1..];
      assert forall p, q | 0 <= p < q < |rest| :: rest[p] == cs[p + 1] && rest[q] == cs[q + 1];
      FilterOrdered(near, rest);
      var head := if near(cs[0]) then [cs[0]] else [];
      forall p, q | 0 <= p < |head| && 0 <= q < |Filter(near, rest)|
        ensures Before(head[p], Filter(near, rest)[q])
      {
        FilterMember(near, rest, Filter(near, rest)[q]);
        var r :| 0 <= r < |rest| && rest[r] == Filter(near, rest)[q];
        assert rest[r] == cs[r + 1];
      }
      OrderedAppend(head, Filter(near, rest));
    }
  }

  lemma PairIsFilter(near: Coincidence -> bool, i: nat, j: nat)
    ensures PairCoincidences(near, i, j) == Filter(near, PairCandidates(i, j))
  {
    var c1, c2 := Coincidence(i, Start, j, Start), Coincidence(i, Start, j, End);
    var c3, c4 := Coincidence(i, End, j, Start), Coincidence(i, End, j, End);
    FilterOne(near, c1);
    FilterOne(near, c2);
    FilterOne(near, c3);
    FilterOne(near, c4);
    FilterConcat(near, [c1], [c2]);
    FilterConcat(near, [c1] + [c2], [c3]);
    FilterConcat(near, [c1] + [c2] + [c3], [c4]);
    assert PairCandidates(i, j) == [c1] + [c2] + [c3] + [c4];
  }

  lemma FilterOne(near: Coincidence -> bool, c: Coincidence)
    ensures Filter(near, [c]) == if near(c) then [c] else []
  {
    assert [c][1..] == [];
  }

  /** The pair (i, j) is tested at every combination of ends. */
  lemma PairCandidate(i: nat, j: nat, c: Coincidence)
    ensures c in PairCandidates(i, j) <==> c.first == i && c.second == j
  {
    var cs := PairCandidates(i, j);
    if c.first == i && c.second == j {
      match (c.firstSide, c.secondSide)
      case (Start, Start) => assert c == cs[0];
      case (Start, End) => assert c == cs[1];
      case (End, Start) => assert c == cs[2];
      case (End, End) => assert c == cs[3];
    }
  }

  /** One more pass of the inner loop finds what the tests of one more pair find. */
  lemma RowSplit(near: Coincidence -> bool, i: nat, j: nat)
    requires i + 1 < j
    ensures Row(near, i, j) == Row(near, i, j - 1) + PairCoincidences(near, i, j - 1)
  {
    var a, b := RowCandidates(i, j - 1), PairCandidates(i, j - 1);
    FilterConcat(near, a, b);
    PairIsFilter(near, i, j - 1);
  }

  /** The inner loop for line i finds nothing before it starts. */
  lemma RowFirst(near: Coincidence -> bool, i: nat)
    ensures Row(near, i, i + 1) == []
  {
  }

  lemma PrefixFirst(near: Coincidence -> bool, n: nat)
    ensures Prefix(near, 0, n) == []
  {
  }

  /** One more pass of the outer loop finds what one more inner loop finds. */
  lemma PrefixSplit(near: Coincidence -> bool, i: nat, n: nat)
    requires 0 < i <= n
    ensures Prefix(near, i, n) == Prefix(near, i - 1, n) + Row(near, i - 1, n)
  {
    var a, b := PrefixCandidates(i - 1, n), RowCandidates(i - 1, n);
    FilterConcat(near, a, b);
  }

  /** The inner loop for line i up to line j tests the pairs of line i with
      each line between them. */
  lemma {:induction false} RowCandidate(i: nat, j: nat, c: Coincidence)
    requires i < j
    ensures c in RowCandidates(i, j) <==> c.first == i && i < c.second < j
    decreases j
  {
    if j > i + 1 {
      var a, b := RowCandidates(i, j - 1), PairCandidates(i, j - 1);
      RowCandidate(i, j - 1, c);
      PairCandidate(i, j - 1, c);
      assert RowCandidates(i, j) == a + b;
      assert c in a + b <==> c in a || c in b;
    }
  }

  /** The first i passes of the outer loop test every pair of one of them with
      a later line. */
  lemma PrefixCandidate(i: nat, n: nat, c: Coincidence)
    requires i <= n
    ensures c in PrefixCandidates(i, n) <==> c.first < i && c.first < c.second < n
  {
    if c in PrefixCandidates(i, n) {
      PrefixCandidateOnly(i, n, c);
    } else if c.first < i && c.first < c.second < n {
      PrefixCandidateAll(i, n, c);
    }
  }

  lemma {:induction false} PrefixCandidateOnly(i: nat, n: nat, c: Coincidence)
    requires i <= n && c in PrefixCandidates(i, n)
    ensures c.first < i && c.first < c.second < n
  {
    var a, b := PrefixCandidates(i - 1, n), RowCandidates(i - 1, n);
    assert c in a + b;
    if c in a {
      PrefixCandidateOnly(i - 1, n, c);
    } else {
      RowCandidate(i - 1, n, c);
    }
  }

  lemma {:induction false} PrefixCandidateAll(i: nat, n: nat, c: Coincidence)
    requires i <= n && c.first < i && c.first < c.second < n
    ensures c in PrefixCandidates(i, n)
  {
    var a, b := PrefixCandidates(i - 1, n), RowCandidates(i - 1, n);
    if c.first < i - 1 {
      PrefixCandidateAll(i - 1, n, c);
      assert c in a + b;
    } else {
      RowCandidate(i - 1, n, c);
      assert c in a + b;
    }
  }

  lemma {:induction false} RowCandidatesOrdered(i: nat, j: nat)
    requires i < j
    ensures Ordered(RowCandidates(i, j))
    decreases j
  {
    if j > i + 1 {
      var a, b := RowCandidates(i, j - 1), PairCandidates(i, j - 1);
      RowCandidatesOrdered(i, j - 1);
      forall p | 0 <= p < |a| ensures a[p].first == i && a[p].second < j - 1 {
        RowCandidate(i, j - 1, a[p]);
      }
      OrderedAppend(a, b);
    }
  }

  lemma {:induction false} PrefixCandidatesOrdered(i: nat, n: nat)
    requires i <= n
    ensures Ordered(PrefixCandidates(i, n))
  {
    if i > 0 {
      var a, b := PrefixCandidates(i - 1, n), RowCandidates(i - 1, n);
      PrefixCandidatesOrdered(i - 1, n);
      RowCandidatesOrdered(i - 1, n);
      forall p | 0 <= p < |a| ensures a[p].first < i - 1 {
        PrefixCandidate(i - 1, n, a[p]);
      }
      forall q | 0 <= q < |b| ensures b[q].first == i - 1 {
        RowCandidate(i - 1, n, b[q]);
      }
      OrderedAppend(a, b);
    }
  }

  /** connectSpringLines considers each unordered pair of distinct lines once,
      in one orientation: a coincidence is found exactly when the first line
      comes before the second and the two end points lie within MinDistance.
      The coincidences come in test order, so none is found twice. */
  lemma CoincidencesExact(m: Math, ls: seq<LineEnds>)
    requires Sound(m)
    ensures AllInRange(ls, Coincidences(m, ls))
    ensures forall p | 0 <= p < |Coincidences(m, ls)| ::
              Coincidences(m, ls)[p].first < Coincidences(m, ls)[p].second
    ensures forall c :: c in Coincidences(m, ls) <==>
              c.first < c.second < |ls| && Coincide(m, ls, c)
    ensures Ordered(Coincidences(m, ls))
    ensures forall p, q | 0 <= p < q < |Coincidences(m, ls)| ::
              Coincidences(m, ls)[p] != Coincidences(m, ls)[q]
  {
    var near, n := Nearness(m, ls), |ls|;
    PrefixCandidatesOrdered(n, n);
    FilterOrdered(near, PrefixCandidates(n, n));
    forall c ensures c in Coincidences(m, ls) <==> c.first < c.second < n && Coincide(m, ls, c) {
      FilterMember(near, PrefixCandidates(n, n), c);
      PrefixCandidate(n, n, c);
    }
  }

  /** The order connectSpringLines tests in: by first line, then second line,
      then start-start, start-end, end-start, end-end. */
  function SideCode(c: Coincidence): nat {
    (if c.firstSide == End then 2 else 0) + (if c.secondSide == End then 1 else 0)
  }

  predicate Before(c: Coincidence, d: Coincidence) {
    || c.first < d.first
    || (c.first == d.first && c.second < d.second)
    || (c.first == d.first && c.second == d.second && SideCode(c) < SideCode(d))
  }

  predicate Ordered(cs: seq<Coincidence>) {
    forall p, q | 0 <= p < q < |cs| :: Before(cs[p], cs[q])
  }

  lemma OrderedAppend(a: seq<Coincidence>, b: seq<Coincidence>)
    requires Ordered(a) && Ordered(b)
    requires forall p, q | 0 <= p < |a| && 0 <= q < |b| :: Before(a[p], b[q])
    ensures Ordered(a + b)
  {
    forall p, q | 0 <= p < q < |a + b| ensures Before((a + b)[p], (a + b)[q]) {
      if q < |a| {
        assert (a + b)[p] == a[p] && (a + b)[q] == a[q];
      } else if p < |a| {
        assert (a + b)[p] == a[p] && (a + b)[q] == b[q - |a|];
      } else {
        assert (a + b)[p] == b[p - |a|] && (a + b)[q] == b[q - |a|];
      }
    }
  }

  /** The two angles appended for a coincidence are negatives of each other. */
  lemma AnglesOpposite(ls: seq<LineEnds>, c: Coincidence)
    requires InRange(ls, c)
    ensures SecondAngle(ls, c) == -FirstAngle(ls, c)
  {
    ClampAngleOdd(ls[c.second].initialAngle - ls[c.first].initialAngle);
    assert ls[c.first].initialAngle - ls[c.second].initialAngle ==
           -(ls[c.second].initialAngle - ls[c.first].initialAngle);
  }

  predicate AnglesInRange(ls: seq<LineEnds>) {
    forall k | 0 <= k < |ls| :: -Pi <= ls[k].initialAngle <= Pi
  }

  /** When every initial angle lies in [-pi, pi] (as atan2 guarantees), every
      appended angle does too. */
  lemma {:induction false} AppendedInRange(ls: seq<LineEnds>, cs: seq<Coincidence>, k: nat, side: Side)
    requires AllInRange(ls, cs) && AnglesInRange(ls)
    ensures forall p | 0 <= p < |Appended(ls, cs, k, side)| :: -Pi <= Appended(ls, cs, k, side)[p] <= Pi
    decreases |cs|
  {
    if cs != [] {
      var n := |cs| - 1;
      var c := cs[n];
      assert AllInRange(ls, cs[..n]);
      AppendedInRange(ls, cs[..n], k, side);
      var a1 := ls[c.first].initialAngle;
      var a2 := ls[c.second].initialAngle;
      ClampAngleOfDifference(a2, a1);
    }
  }

  /** How many ends of the coincidences are end `side` of line k. */
  function Occurrences(cs: seq<Coincidence>, k: nat, side: Side): nat
  {
    if cs == [] then 0
    else Occurrences(cs[..|cs| - 1], k, side) +
         (if cs[|cs| - 1].first == k && cs[|cs| - 1].firstSide == side then 1 else 0) +
         (if cs[|cs| - 1].second == k && cs[|cs| - 1].secondSide == side then 1 else 0)
  }

  /** Each list grows by one entry per coincidence at that end. */
  lemma {:induction false} AppendedLength(ls: seq<LineEnds>, cs: seq<Coincidence>, k: nat, side: Side)
    requires AllInRange(ls, cs)
    ensures |Appended(ls, cs, k, side)| == Occurrences(cs, k, side)
    decreases |cs|
  {
    if cs != [] {
      assert AllInRange(ls, cs[..|cs| - 1]);
      AppendedLength(ls, cs[..|cs| - 1], k, side);
    }
  }

  /** The number of entries one coincidence adds to line k, over both lists. */
  function Added(ls: seq<LineEnds>, c: Coincidence, k: nat): nat
    requires InRange(ls, c)
  {
    |Contribution(ls, c, k, Start)| + |Contribution(ls, c, k, End)|
  }

  /** The number of entries appended to the lines 0 .. n-1, over both lists. */
  function TotalAppended(ls: seq<LineEnds>, cs: seq<Coincidence>, n: nat): nat
    requires AllInRange(ls, cs)
  {
    if n == 0 then 0
    else TotalAppended(ls, cs, n - 1) + |Appended(ls, cs, n - 1, Start)| + |Appended(ls, cs, n - 1, End)|
  }

  function TotalAdded(ls: seq<LineEnds>, c: Coincidence, n: nat): nat
    requires InRange(ls, c)
  {
    if n == 0 then 0 else TotalAdded(ls, c, n - 1) + Added(ls, c, n - 1)
  }

  lemma {:induction false} TotalAddedCount(ls: seq<LineEnds>, c: Coincidence, n: nat)
    requires InRange(ls, c) && c.first != c.second
    ensures TotalAdded(ls, c, n) ==
            (if c.first < n then 1 else 0) + (if c.second < n then 1 else 0)
  {
    if n > 0 {
      TotalAddedCount(ls, c, n - 1);
    }
  }

  lemma {:induction false} TotalAppendedSnoc(ls: seq<LineEnds>, cs: seq<Coincidence>, c: Coincidence, n: nat)
    requires AllInRange(ls, cs) && InRange(ls, c)
    ensures AllInRange(ls, cs + [c])
    ensures TotalAppended(ls, cs + [c], n) == TotalAppended(ls, cs, n) + TotalAdded(ls, c, n)
  {
    AllInRangeAppend(ls, cs, [c]);
    if n > 0 {
      TotalAppendedSnoc(ls, cs, c, n - 1);
      AppendedSnoc(ls, cs, c, n - 1, Start);
      AppendedSnoc(ls, cs, c, n - 1, End);
    }
  }

  /** Every coincidence between two distinct lines appends exactly two
      entries in all, so the lists grow by twice the number of joints. */
  lemma {:induction false} TotalTwicePerJoint(ls: seq<LineEnds>, cs: seq<Coincidence>)
    requires AllInRange(ls, cs)
    requires forall p | 0 <= p < |cs| :: cs[p].first != cs[p].second
    ensures TotalAppended(ls, cs, |ls|) == 2 * |JointsOf(ls, cs)|
    decreases |cs|
  {
    if cs == [] {
      TotalEmpty(ls, |ls|);
    } else {
      var n := |cs| - 1;
      assert AllInRange(ls, cs[..n]);
      TotalTwicePerJoint(ls, cs[..n]);
      assert cs[..n] + [cs[n]] == cs;
      TotalAppendedSnoc(ls, cs[..n], cs[n], |ls|);
      TotalAddedCount(ls, cs[n], |ls|);
    }
  }

  lemma {:induction false} TotalEmpty(ls: seq<LineEnds>, n: nat)
    ensures TotalAppended(ls, [], n) == 0
  {
    if n > 0 { TotalEmpty(ls, n - 1); }
  }

  /** For the coincidences connectSpringLines finds: twice as many appended
      entries as joints. */
  lemma CoincidencesTwicePerJoint(m: Math, ls: seq<LineEnds>)
    requires Sound(m)
    ensures AllInRange(ls, Coincidences(m, ls))
    ensures TotalAppended(ls, Coincidences(m, ls), |ls|) == 2 * |JointsOf(ls, Coincidences(m, ls))|
  {
    CoincidencesExact(m, ls);
    TotalTwicePerJoint(ls, Coincidences(m, ls));
  }

  /** The four lines of createSpringBox: a square of side 10 around the
      origin, traced counter-clockwise from (-5, -5). */
  predicate IsBox(ls: seq<LineEnds>) {
    && |ls| == 4
    && ls[0].startPoint == Vec2(-5.0, -5.0) && ls[0].endPoint == Vec2(5.0, -5.0)
    && ls[1].startPoint == Vec2(5.0, -5.0) && ls[1].endPoint == Vec2(5.0, 5.0)
    && ls[2].startPoint == Vec2(5.0, 5.0) && ls[2].endPoint == Vec2(-5.0, 5.0)
    && ls[3].startPoint == Vec2(-5.0, 5.0) && ls[3].endPoint == Vec2(-5.0, -5.0)
  }

  /** The three lines of createSquiggle. */
  predicate IsSquiggle(ls: seq<LineEnds>) {
    && |ls| == 3
    && ls[0].startPoint == Vec2(-10.0, -5.0) && ls[0].endPoint == Vec2(0.0, -5.0)
    && ls[1].startPoint == Vec2(0.0, -5.0) && ls[1].endPoint == Vec2(0.0, 5.0)
    && ls[2].startPoint == Vec2(0.0, 5.0) && ls[2].endPoint == Vec2(10.0, 5.0)
  }

  predicate Integral(x: real) {
    x == x.Floor as real
  }

  /** Every end point has whole-number coordinates, as in the fixed patterns. */
  predicate OnGrid(ls: seq<LineEnds>) {
    forall k | 0 <= k < |ls| ::
      && Integral(ls[k].startPoint.x) && Integral(ls[k].startPoint.y)
      && Integral(ls[k].endPoint.x) && Integral(ls[k].endPoint.y)
  }

  /** Nearness where only equal points are near. */
  function Equality(ls: seq<LineEnds>): Coincidence -> bool
  {
    c => InRange(ls, c) && Point(ls[c.first], c.firstSide) == Point(ls[c.second], c.secondSide)
  }

  lemma WholeGap(a: real, b: real)
    requires Integral(a) && Integral(b) && a != b
    ensures (a - b) * (a - b) >= 1.0
  {
    var d := a - b;
    assert d == (a.Floor - b.Floor) as real;
    if d >= 1.0 {
      ScaleInterval(d, 1.0, 1.0, d);
    } else {
      assert -d >= 1.0;
      ScaleInterval(-d, 1.0, 1.0, -d);
      assert (-d) * (-d) == d * d;
    }
  }

  /** Between points with whole-number coordinates, squared distance at most
      MinDistance squared means equality. */
  lemma GridNear(p: Vec2, q: Vec2)
    requires Integral(p.x) && Integral(p.y) && Integral(q.x) && Integral(q.y)
    ensures SqLength(Sub(p, q)) <= MinDistance * MinDistance <==> p == q
  {
    var dx, dy := p.x - q.x, p.y - q.y;
    if p.x != q.x {
      WholeGap(p.x, q.x);
      SquareNonNeg(dy);
    } else if p.y != q.y {
      WholeGap(p.y, q.y);
      SquareNonNeg(dx);
    }
  }

  lemma SquareNonNeg(d: real)
    ensures d * d >= 0.0
  {
    if d < 0.0 { MulNonNeg(-d, -d); assert (-d) * (-d) == d * d; } else { MulNonNeg(d, d); }
  }

  /** Agreeing nearness finds the same coincidences. */
  lemma {:induction false} FilterAgree(f: Coincidence -> bool, g: Coincidence -> bool, cs: seq<Coincidence>)
    requires forall c :: f(c) == g(c)
    ensures Filter(f, cs) == Filter(g, cs)
    decreases |cs|
  {
    if cs != [] {
      FilterAgree(f, g, cs[1..]);
    }
  }

  /** For end points on the whole-number grid, coincidence is equality. */
  lemma CoincidencesOnGrid(m: Math, ls: seq<LineEnds>)
    requires Sound(m) && OnGrid(ls)
    ensures Coincidences(m, ls) == Prefix(Equality(ls), |ls|, |ls|)
  {
    var f, g := Nearness(m, ls), Equality(ls);
    forall c ensures f(c) == g(c) {
      if InRange(ls, c) {
        var p, q := Point(ls[c.first], c.firstSide), Point(ls[c.second], c.secondSide);
        DistanceWithin(m, p, q, MinDistance);
        GridNear(p, q);
      }
    }
    FilterAgree(f, g, PrefixCandidates(|ls|, |ls|));
  }

  lemma BoxPairsFirst(ls: seq<LineEnds>)
    requires IsBox(ls)
    ensures PairCoincidences(Equality(ls), 0, 1) == [Coincidence(0, End, 1, Start)]
    ensures PairCoincidences(Equality(ls), 0, 2) == []
    ensures PairCoincidences(Equality(ls), 0, 3) == [Coincidence(0, Start, 3, End)]
  {
  }

  lemma BoxPairsRest(ls: seq<LineEnds>)
    requires IsBox(ls)
    ensures PairCoincidences(Equality(ls), 1, 2) == [Coincidence(1, End, 2, Start)]
    ensures PairCoincidences(Equality(ls), 1, 3) == []
    ensures PairCoincidences(Equality(ls), 2, 3) == [Coincidence(2, End, 3, Start)]
  {
  }

  /** The box closes at its four corners: exactly four coincidences, each line's
      end meeting the next line's start, found in this order. */
  lemma BoxCorners(m: Math, ls: seq<LineEnds>)
    requires Sound(m) && IsBox(ls)
    ensures Coincidences(m, ls) ==
            [Coincidence(0, End, 1, Start), Coincidence(0, Start, 3, End),
             Coincidence(1, End, 2, Start), Coincidence(2, End, 3, Start)]
  {
    BoxOnGrid(ls);
    CoincidencesOnGrid(m, ls);
    BoxSquareCorners(ls);
  }

  lemma BoxOnGrid(ls: seq<LineEnds>)
    requires IsBox(ls)
    ensures OnGrid(ls)
  {
    assert Integral(-5.0) && Integral(5.0);
  }

  lemma BoxSquareCorners(ls: seq<LineEnds>)
    requires IsBox(ls)
    ensures Prefix(Equality(ls), |ls|, |ls|) ==
            [Coincidence(0, End, 1, Start), Coincidence(0, Start, 3, End),
             Coincidence(1, End, 2, Start), Coincidence(2, End, 3, Start)]
  {
    var a, b := Coincidence(0, End, 1, Start), Coincidence(0, Start, 3, End);
    var c, d := Coincidence(1, End, 2, Start), Coincidence(2, End, 3, Start);
    BoxPairsFirst(ls);
    BoxPairsRest(ls);
    FourLines(Equality(ls), |ls|);
    Flatten4(a, b, c, d);
  }

  lemma Flatten4<T>(a: T, b: T, c: T, d: T)
    ensures ([a] + [] + [b]) + ([c] + []) + [d] == [a, b, c, d]
  {
  }

  /** The loops over four lines visit the six pairs in order. */
  lemma FourLines(near: Coincidence -> bool, n: nat)
    requires n == 4
    ensures Prefix(near, n, n) ==
            (PairCoincidences(near, 0, 1) + PairCoincidences(near, 0, 2) + PairCoincidences(near, 0, 3)) +
            (PairCoincidences(near, 1, 2) + PairCoincidences(near, 1, 3)) + PairCoincidences(near, 2, 3)
  {
    RowFirst(near, 0);
    RowSplit(near, 0, 2);
    RowSplit(near, 0, 3);
    RowSplit(near, 0, n);
    RowFirst(near, 1);
    RowSplit(near, 1, 3);
    RowSplit(near, 1, n);
    RowFirst(near, 2);
    RowSplit(near, 2, n);
    RowFirst(near, 3);
    PrefixFirst(near, n);
    PrefixSplit(near, 1, n);
    PrefixSplit(near, 2, n);
    PrefixSplit(near, 3, n);
    PrefixSplit(near, n, n);
    Nest6(PairCoincidences(near, 0, 1), PairCoincidences(near, 0, 2), PairCoincidences(near, 0, 3),
          PairCoincidences(near, 1, 2), PairCoincidences(near, 1, 3), PairCoincidences(near, 2, 3));
  }

  lemma Nest6<T>(p01: seq<T>, p02: seq<T>, p03: seq<T>, p12: seq<T>, p13: seq<T>, p23: seq<T>)
    ensures (((([] + ((([] + p01) + p02) + p03)) + (([] + p12) + p13)) + ([] + p23)) + []) ==
            (p01 + p02 + p03) + (p12 + p13) + p23
  {
  }

  /** The loops over three lines visit the three pairs in order. */
  lemma ThreeLines(near: Coincidence -> bool, n: nat)
    requires n == 3
    ensures Prefix(near, n, n) ==
            PairCoincidences(near, 0, 1) + PairCoincidences(near, 0, 2) + PairCoincidences(near, 1, 2)
  {
    RowFirst(near, 0);
    RowSplit(near, 0, 2);
    RowSplit(near, 0, n);
    RowFirst(near, 1);
    RowSplit(near, 1, n);
    RowFirst(near, 2);
    PrefixFirst(near, n);
    PrefixSplit(near, 1, n);
    PrefixSplit(near, 2, n);
    PrefixSplit(near, n, n);
    Nest3(PairCoincidences(near, 0, 1), PairCoincidences(near, 0, 2), PairCoincidences(near, 1, 2));
  }

  lemma Nest3<T>(p01: seq<T>, p02: seq<T>, p12: seq<T>)
    ensures ((([] + (([] + p01) + p02)) + ([] + p12)) + []) == p01 + p02 + p12
  {
  }

  /** After the box is connected, every corner has one joint and each line
      has exactly one entry in each of its two angle lists. */
  lemma BoxAngleLists(m: Math, ls: seq<LineEnds>)
    requires Sound(m) && IsBox(ls)
    ensures AllInRange(ls, Coincidences(m, ls))
    ensures |JointsOf(ls, Coincidences(m, ls))| == 4
    ensures forall k | 0 <= k < 4 ::
              |Appended(ls, Coincidences(m, ls), k, Start)| == 1 &&
              |Appended(ls, Coincidences(m, ls), k, End)| == 1
  {
    BoxCorners(m, ls);
    CornerLists(ls, Coincidences(m, ls));
  }

  /** Four lines joined at the four corners get one entry per angle list. */
  lemma CornerLists(ls: seq<LineEnds>, cs: seq<Coincidence>)
    requires |ls| == 4
    requires cs == [Coincidence(0, End, 1, Start), Coincidence(0, Start, 3, End),
                    Coincidence(1, End, 2, Start), Coincidence(2, End, 3, Start)]
    ensures AllInRange(ls, cs)
    ensures |JointsOf(ls, cs)| == 4
    ensures forall k, side | 0 <= k < 4 :: |Appended(ls, cs, k, side)| == 1
  {
    CornerOccurrences(cs);
    forall k, side | 0 <= k < 4
      ensures |Appended(ls, cs, k, side)| == 1
    {
      AppendedLength(ls, cs, k, side);
    }
  }

  /** Every end of the four lines appears in exactly one corner. */
  lemma CornerOccurrences(cs: seq<Coincidence>)
    requires cs == [Coincidence(0, End, 1, Start), Coincidence(0, Start, 3, End),
                    Coincidence(1, End, 2, Start), Coincidence(2, End, 3, Start)]
    ensures forall k, side | 0 <= k < 4 :: Occurrences(cs, k, side) == 1
  {
    forall k, side | 0 <= k < 4 ensures Occurrences(cs, k, side) == 1 {
      assert cs[..3][..2] == cs[..2] && cs[..2][..1] == cs[..1] && cs[..1][..0] == [];
      assert Occurrences(cs[..1][..0], k, side) == 0;
      var o1 := Occurrences(cs[..1], k, side);
      var o2 := Occurrences(cs[..2], k, side);
      var o3 := Occurrences(cs[..3], k, side);
      assert o1 == (if k == 0 && side == End then 1 else 0) + (if k == 1 && side == Start then 1 else 0);
      assert o2 == o1 + (if k == 0 && side == Start then 1 else 0) + (if k == 3 && side == End then 1 else 0);
      assert o3 == o2 + (if k == 1 && side == End then 1 else 0) + (if k == 2 && side == Start then 1 else 0);
      assert Occurrences(cs, k, side) ==
             o3 + (if k == 2 && side == End then 1 else 0) + (if k == 3 && side == Start then 1 else 0);
    }
  }

  lemma SquigglePairs(ls: seq<LineEnds>)
    requires IsSquiggle(ls)
    ensures PairCoincidences(Equality(ls), 0, 1) == [Coincidence(0, End, 1, Start)]
    ensures PairCoincidences(Equality(ls), 1, 2) == [Coincidence(1, End, 2, Start)]
  {
  }

  lemma SquiggleApart(ls: seq<LineEnds>)
    requires IsSquiggle(ls)
    ensures PairCoincidences(Equality(ls), 0, 2) == []
  {
  }

  /** The squiggle's three lines meet at two points. */
  lemma SquiggleJoints(m: Math, ls: seq<LineEnds>)
    requires Sound(m) && IsSquiggle(ls)
    ensures Coincidences(m, ls) == [Coincidence(0, End, 1, Start), Coincidence(1, End, 2, Start)]
  {
    SquiggleOnGrid(ls);
    CoincidencesOnGrid(m, ls);
    SquiggleSquareJoints(ls);
  }

  lemma SquiggleOnGrid(ls: seq<LineEnds>)
    requires IsSquiggle(ls)
    ensures OnGrid(ls)
  {
    assert Integral(-10.0) && Integral(-5.0) && Integral(0.0) && Integral(5.0) && Integral(10.0);
  }

  lemma SquiggleSquareJoints(ls: seq<LineEnds>)
    requires IsSquiggle(ls)
    ensures Prefix(Equality(ls), |ls|, |ls|) == [Coincidence(0, End, 1, Start), Coincidence(1, End, 2, Start)]
  {
    SquigglePairs(ls);
    SquiggleApart(ls);
    ThreeLines(Equality(ls), |ls|);
  }
}
