# PatternSynthesis spring network, modelled in Dafny

PatternSynthesisTest models a mechanical network of springs on top of the
Box2D physics engine. The network is laid along the edges of a planar
pattern: a square box, a squiggle, a fractal tree, or the edges of any
decomposition handed to `createSystem`. It uses three entities:

- A `Spring` joins two consecutive bodies of a chain. A distance spring
  pulls the two bodies to their rest length. Once the spring knows the body
  before it, an angular spring also turns the chain towards a rest angle.
- A `SpringLine` is one chain of springs between a start point and an end
  point. It carries the relative angles of the lines that meet it at each
  end, and a rest-angle set function (RASF).
- The `SpringWorld` holds the lines. It builds them, joins the coincident
  ends of different lines with revolute joints, records the relative angles
  at each joint, and gives every spring its rest angle from its line's RASF.

The model keeps the source's form.

- `Spring`, `SpringLine` and `SpringWorld` are classes whose methods update
  their fields, as the C++ structs are.
- The construction loop, the nested coincidence loops of
  `connectSpringLines`, the rest-angle loop and `getSpringEdges` are
  methods with `for` loops and invariants.
- `drawTree` is a recursive method.
- Each of these methods is proved against a specification function:
  - `BodyPositions` and `LineShape` for a built line;
  - `Coincidences`, `JointsOf` and `Appended` for the joints and the angle
    lists;
  - `RestAngleFor` for the rest angles;
  - `TreeEdges` for the tree's branches;
  - `SpringEdges` for the edge list.
- The properties the program relies on are lemmas about those functions.

The model covers four parts of Box2D and the C library, each in its own way:

- **The Box2D world** is the class `Engine.BodyEngine`. A body is its index.
  Each body has a position, a dynamic flag and a force accumulator, and the
  world keeps an append-only log of joints. `ApplyForceToCenter` adds to a
  dynamic body's accumulator and ignores a static one. Integration
  (`b2World::Step`) is not modelled, so positions never change after a body
  is created.
- **Floats** are modelled as reals. A NaN matters in one place only: the
  averaging RASF over no recorded angles. It is modelled explicitly as
  `Rasf.Scalar.NaN`, and as a NaN force (`Engine.Force.NaNVector`) that
  spreads through every sum.
- **`atan2`, `sqrt`, `sin` and `cos`** are function values of a
  `Geometry.Math` record. `Geometry.Sound` states the only facts the
  proofs use about them: `atan2` lies in [-π, π], `sqrt` is the
  non-negative root, and `sin` and `cos` lie in [-1, 1].
  - `b2Distance` is the root of the squared length.
  - `b2Vec2::Normalize` leaves a vector shorter than `b2_epsilon` unchanged
    and divides any other by its length.
- **`rand()`** is a draw in [0, 1], passed in as a parameter.
  `initRestAngles` asks for at most one draw per spring, so the rest-angle
  methods take `draws: (nat, nat) -> Draw`, indexed by line and by spring.

## Model

| member | source | states |
|---|---|---|
| Util.RandomFloat | PatternSynthesisTest/util.h:4-9 | `a + r*(b-a)` for a draw r in [0,1]. It gives a at r = 0 and b at r = 1, and the result lies between a and b, in either order. |
| Util.ClampAngle | PatternSynthesisTest/util.h:12-22 | The result differs from the input by exactly 0, +2π or -2π. It is the identity on [-π, π], and maps [-3π, 3π] into [-π, π]. Springs.cpp:6-16 is the same function. |
| Util.ClampAngleOdd | PatternSynthesisTest/util.h:15-21 | `clampAngle(-x) == -clampAngle(x)` for every x. |
| Util.ClampAngleOfDifference | PatternSynthesisTest/Springs.cpp:6-16 | For two angles in [-π, π], the wrap of their difference lies in [-π, π]. Swapping the two angles negates it. |
| Util.Repeat | PatternSynthesisTest/Springs.cpp:202 | n copies of a value. Every body of one line gets the same dynamic flag. |
| Geometry.Distance | PatternSynthesisTest/Springs.cpp:21 | `b2Distance` is non-negative, and its square is the squared length of the difference. |
| Geometry.Direction | PatternSynthesisTest/Springs.cpp:95-96 | The direction atan2 gives a vector lies in [-π, π]. |
| Geometry.Normalize | PatternSynthesisTest/Springs.cpp:49 | A vector shorter than b2_epsilon is left as it is. Any other vector is the normalized one scaled by its length. |
| Geometry.DistanceWithin | PatternSynthesisTest/Springs.cpp:112 | A distance is within ε exactly when the squared distance is within ε². This is both directions of the coincidence test. |
| Geometry.SqrtUnique | PatternSynthesisTest/Springs.cpp:21 | The square root the model assumes is the unique non-negative root. |
| Rasf.GetRasf | PatternSynthesisTest/RASF.h:115-137 | A tag in the enumeration gives the variant of that tag. Any other tag gives the constant variant. Either way the closure captures the value. |
| Rasf.GetRasfRoundTrip | PatternSynthesisTest/RASF.h:12-19 | Tag and captured value determine the closure: `getRASF(tag(f), value(f)) == f`. |
| Rasf.Lerp | PatternSynthesisTest/RASF.h:21-24 | `lerp(a,b,0) == a` and `lerp(a,b,1) == b`. |
| Rasf.LerpBetween | PatternSynthesisTest/RASF.h:21-24 | For t in [0,1] the lerp lies between its end points, in either order. |
| Rasf.LerpScaled | PatternSynthesisTest/RASF.h:42 | A factor commutes with the lerp. |
| Rasf.DominantIsFirstLargest | PatternSynthesisTest/RASF.h:31-38 | The scan with strict `>` yields an entry of largest magnitude, whose sign is kept. The first such entry wins, and an empty list gives 0. |
| Rasf.LerpBetweenEnds | PatternSynthesisTest/RASF.h:40-42 | The lerp variant gives `multiplier*(1/N)*(-start)` at T = 0 and `multiplier*(1/N)*end` at T = 1. |
| Rasf.LerpBetweenEndsLinear | PatternSynthesisTest/RASF.h:40-42 | The lerp variant is linear in T between its values at T = 0 and T = 1. |
| Rasf.MeanAngle | PatternSynthesisTest/RASF.h:55-58 | The result is NaN exactly when both lists are empty. Otherwise it times the count is `Σend − Σstart`. |
| Rasf.SumBounded | PatternSynthesisTest/RASF.h:56-57 | A sum of entries bounded by b has magnitude at most count·b. |
| Rasf.MeanAngleBounded | PatternSynthesisTest/RASF.h:55-58 | The mean lies within any common bound of the averaged angles. |
| Rasf.AverageRasf | PatternSynthesisTest/RASF.h:50-60 | The result is NaN exactly when no angle was recorded. Otherwise it times N is `multiplier` times the mean. |
| Rasf.AverageRasfBounded | PatternSynthesisTest/RASF.h:50-60 | With every recorded angle within b, the result times N is within \|multiplier\|·b. |
| Rasf.AverageIgnoresPosition | PatternSynthesisTest/RASF.h:51-59 | The averaging variant gives the same value at every T and for every draw. |
| Rasf.ConstantRasf | PatternSynthesisTest/RASF.h:66-72 | `angle*DEGTORAD`: zero, positive or negative as the angle is. |
| Rasf.ConstantUniform | PatternSynthesisTest/RASF.h:66-72 | The constant variant returns `angle*DEGTORAD` for all lists, every T and N, and every draw. Applying it twice therefore gives the same rest angles. |
| Rasf.RandomizedRasf | PatternSynthesisTest/RASF.h:74-80 | For multiplier ≥ 0 the result lies in `multiplier*0.1*[-90°, 90°]`, in radians. |
| Rasf.SinWaveRasf | PatternSynthesisTest/RASF.h:85-92 | The result is `sin(2πT)·multiplier`, so it lies within \|multiplier\|. |
| Rasf.SinWaveIgnoresLists | PatternSynthesisTest/RASF.h:86-88 | The sine variant depends on T and the multiplier only. The lists, N and the draw do not change it. |
| Rasf.NumInLine | PatternSynthesisTest/RASF.h:97 | `unsigned numInLine = T*N` is the truncation `⌊T·N⌋`. |
| Rasf.PseudorandomRasf | PatternSynthesisTest/RASF.h:94-111 | An even ⌊T·N⌋ gives a value in `0.4*[-90°,-30°]`, which is strictly negative. An odd one gives a value in `0.4*[30°,90°]`, which is strictly positive. |
| Rasf.Evaluate | PatternSynthesisTest/RASF.h:115-137 | Calling a closure gives NaN exactly for the averaging variant with no recorded angles. |
| Engine.AddForce | PatternSynthesisTest/Springs.cpp:51-52 | Force addition is componentwise, and a NaN operand makes the sum NaN. |
| Engine.ApplyForce | PatternSynthesisTest/Springs.cpp:51 | `ApplyForceToCenter` adds the force to a dynamic body's accumulator and leaves every other accumulator alone. A static body's accumulator is also left alone. |
| Engine.TotalAfterAdd | PatternSynthesisTest/Springs.cpp:51 | Adding f to one accumulator adds f to the world's total force. |
| Engine.BodyEngine.CreateBody | PatternSynthesisTest/Springs.cpp:220 | A new body is appended with its position, its flag and no force. Its id is the number of earlier bodies. |
| Engine.BodyEngine.CreateJoint | PatternSynthesisTest/Springs.cpp:109-115 | Appends one joint that does not collide and changes nothing else. |
| Engine.BodyEngine.ApplyForceToCenter | PatternSynthesisTest/Springs.cpp:51-52 | The accumulators become `ApplyForce` of the old ones. |
| Forces.Accumulate | PatternSynthesisTest/Springs.cpp:51-84 | The accumulators after a list of calls, in order. There is one accumulator per body. |
| Forces.AccumulateTotal | PatternSynthesisTest/Springs.cpp:51-84 | When every target is dynamic, the total grows by exactly the net force of the calls. |
| Forces.AccumulateStatic | PatternSynthesisTest/Springs.cpp:51-84 | Calls on static bodies only change nothing. |
| Forces.AccumulateAppend | PatternSynthesisTest/Springs.cpp:51-84 | Two lists of calls in succession act as their concatenation. |
| Forces.LinearMagnitude | PatternSynthesisTest/Springs.cpp:45-46 | The distance force is 0 at rest length. With linearK > 0 it is positive exactly when the spring is stretched. |
| Forces.InnerAngle | PatternSynthesisTest/Springs.cpp:62-66 | The inner angle lies in [0, 2π). |
| Forces.BaseLineAngle | PatternSynthesisTest/Springs.cpp:31-34 | `π - |anglePrev - angleNext| - π` lies in [-2π, 0]. It is 0 exactly when both arms have the same direction. |
| Forces.Push | PatternSynthesisTest/Springs.cpp:80-84 | A scalar times a vector is finite exactly when the scalar is a number. |
| Forces.Applications | PatternSynthesisTest/Springs.cpp:43-88 | One step's calls all target existing bodies. There are 2 without a previous body (the early return at line 54) and 6 with one. |
| Forces.LinearBalanced | PatternSynthesisTest/Springs.cpp:51-52 | The two distance pushes, `±(force/2)·diffVec`, sum to zero. |
| Forces.LinearAtRest | PatternSynthesisTest/Springs.cpp:45-52 | At rest length both distance pushes are the zero force. |
| Forces.AngularBalanced | PatternSynthesisTest/Springs.cpp:75-84 | With a numeric rest angle the four angular pushes sum to zero. |
| Forces.AngularUndefined | PatternSynthesisTest/Springs.cpp:68-84 | A NaN rest angle makes all four angular pushes NaN. |
| Forces.SpringBalanced | PatternSynthesisTest/Springs.cpp:43-88 | All forces of one step sum to zero, unless the spring has a previous body and a NaN rest angle. |
| Forces.SpringConservesTotal | PatternSynthesisTest/Springs.cpp:43-88 | When a spring's bodies are all dynamic, one step keeps the world's total force. When they are all static, it changes no accumulator. |
| Forces.LeversPerpendicular | PatternSynthesisTest/Springs.cpp:75-78 | Each angular lever is perpendicular to its arm. |
| Springs.Spring.constructor | PatternSynthesisTest/Springs.cpp:18-23 | The rest length is the distance between the two bodies at construction. The other fields are the header's defaults: no previous body, rest angle 0, base line angle 0, linearK = rotK = 20 (Springs.h:26-36). |
| Springs.Spring.SetPrevBody | PatternSynthesisTest/Springs.cpp:25-36 | Sets the previous body and the base line angle, and nothing else. In particular it does not write the rest length. |
| Springs.Spring.SetRestAngle | PatternSynthesisTest/Springs.cpp:38-41 | Sets the rest angle only. |
| Springs.Spring.UpdateForces | PatternSynthesisTest/Springs.cpp:43-88 | The world's accumulators become those after the calls of `Applications`, in order. Only `forces` is written, so the rest length keeps its constructor value. |
| Springs.Spring.ApplyLinearForces | PatternSynthesisTest/Springs.cpp:45-52 | The two distance pushes, in order. |
| Springs.Spring.ApplyAngularForces | PatternSynthesisTest/Springs.cpp:56-84 | The four angular pushes, in order: previous body, next body, then the body twice. |
| Springs.SpringLine.constructor | PatternSynthesisTest/Springs.cpp:90-97 | Stores the end points, the springs and the RASF. No end bodies are set and no angles are recorded (Springs.h:54-62). The initial angle is the start→end direction. |
| Springs.SpringLine.PushAngle | PatternSynthesisTest/Springs.cpp:119-120 | push_back onto the list at the chosen end. The other list is unchanged. |
| Springs.MakeBorder | PatternSynthesisTest/Springs.h:15-17 | The constructor takes (minX, minY, maxX, maxY) and stores each into the field of the same name, whatever the declaration order. |
| Springs.BorderIsOutside | PatternSynthesisTest/Springs.h:18-20 | A point on any side of the border is not within it. A point within it implies a non-empty border. |
| Springs.ScaledBorderWithin | PatternSynthesisTest/Springs.cpp:276-279 | A point is inside the border scaled by 1/30 exactly when 30 times the point is inside the original border. |
| Springs.SegmentCount | PatternSynthesisTest/Springs.cpp:285-289 | `trunc(2·length)`, raised to 1 when it would be 0. |
| Springs.BodyPositions | PatternSynthesisTest/Springs.cpp:213-215 | n + 1 bodies, body i at `from + (i/n)·(to - from)`. |
| Springs.ChainEnds | PatternSynthesisTest/Springs.cpp:213-215 | The first body sits on `from` and the last on `to`. |
| Springs.SegmentRestLength | PatternSynthesisTest/Springs.cpp:194-196 | Consecutive bodies are `|to - from| / n` apart, so each spring's rest length is the segment length. |
| Springs.LineShapeGrows | PatternSynthesisTest/Springs.cpp:220 | Bodies created later keep a line's shape. |
| Springs.SpringWorld.constructor | PatternSynthesisTest/Springs.h:75 | A new world holds no lines (Springs.h:107). |
| Springs.SpringWorld.CreateSpringLine | PatternSynthesisTest/Springs.cpp:189-252 | Appends n + 1 bodies at `BodyPositions`, all with the given flag, and exactly one line. The line's n springs: spring k joins body k to body k+1, its previous body is body k-1 exactly when k ≥ 1, and its rest angle is 10°. The start body is body 0 and the end body is body n. |
| Springs.SpringWorld.CreateChain | PatternSynthesisTest/Springs.cpp:213-245 | The loop with its two rolling body variables: the new bodies, the first and last body, and n fresh springs as `ChainBuilt` describes them. |
| Springs.SpringWorld.PlaceBody | PatternSynthesisTest/Springs.cpp:215-220 | Body i of the chain is appended at its place along the line. |
| Springs.SpringWorld.NewSpring | PatternSynthesisTest/Springs.cpp:235-240 | A fresh spring on (previous, current). It has the previous-but-one as its previous body when there is one, and rest angle 10°. |
| Springs.SpringWorld.ChainSpring | PatternSynthesisTest/Springs.cpp:235-241 | The spring after the first k of a chain is spring k of `ChainBuilt`. |
| Springs.SpringWorld.MakeLine | PatternSynthesisTest/Springs.cpp:245-249 | The new line over the finished chain, with its end bodies set. |
| Springs.SpringWorld.AddLine | PatternSynthesisTest/Springs.cpp:251 | push_back of the line. The world stays valid. |
| Springs.SpringWorld.CreateEdgeLine | PatternSynthesisTest/Springs.cpp:254-256 | The Edge overload is createSpringLine from `e.a` to `e.b`. |
| Springs.SpringWorld.ConnectSpringLines | PatternSynthesisTest/Springs.cpp:100-155 | The joints logged are exactly `JointsOf(Coincidences(...))`, in order. Each line's start and end lists become the old list followed by `Appended(...)`, so nothing already there changes. The lines' ends, points and bodies are unchanged. |
| Springs.SpringWorld.ConnectModel | PatternSynthesisTest/Springs.cpp:102-154 | The nested loops handle every coincidence `Coincidences` lists, in order, as `JoinStep` does. |
| Springs.SpringWorld.ConnectFrame | PatternSynthesisTest/Springs.cpp:102-154 | The frame of the outer loop: the world stays valid, and the lines, their end bodies and their springs stay as they are, while the joints and lists become `PrefixResult`. |
| Springs.SpringWorld.ConnectRows | PatternSynthesisTest/Springs.cpp:102-154 | The outer loop equals `PrefixResult` over all lines. |
| Springs.SpringWorld.ConnectRow | PatternSynthesisTest/Springs.cpp:103-153 | The inner loop, with s2 starting at s1+1, equals `RowResult` for line i. |
| Springs.SpringWorld.ConnectPair | PatternSynthesisTest/Springs.cpp:105-151 | The four tests of one pair, in the order start-start, start-end, end-start, end-end. |
| Springs.SpringWorld.TestAndJoin | PatternSynthesisTest/Springs.cpp:112-121 | A test within 1e-5 (`<=`) handles the coincidence. Otherwise nothing changes. |
| Springs.SpringWorld.Join | PatternSynthesisTest/Springs.cpp:113-120 | One joint between the two end bodies, then one angle on each of the two matching lists. |
| Springs.SpringWorld.RecordAngles | PatternSynthesisTest/Springs.cpp:117-120 | The two wrapped relative angles are appended to the two matching lists, and no other list changes. |
| Springs.SpringWorld.Link | PatternSynthesisTest/Springs.cpp:113-115 | Appends the joint's log entry. The angle lists are unchanged. |
| Springs.SpringWorld.AppendAngle | PatternSynthesisTest/Springs.cpp:119 | push_back on line k's list at one end. Every other list is unchanged. |
| Springs.SpringWorld.InitRestAngles | PatternSynthesisTest/Springs.cpp:157-167 | Spring i of line k gets `func(startAngles, endAngles, i/N, N)` with that spring's draw. Only rest angles are written, so the angle lists stay as they were. |
| Springs.SpringWorld.InitLine | PatternSynthesisTest/Springs.cpp:160-165 | The inner loop sets the rest angles of line k and no others. |
| Springs.SpringWorld.InitSpringWorld | PatternSynthesisTest/Springs.cpp:169-172 | `connectSpringLines` and then `initRestAngles`: the joints and lists as above, then every rest angle from the final lists. |
| Springs.SpringWorld.Build | PatternSynthesisTest/Springs.cpp:260-304 | The shared shape of the pattern builders: one line per edge, in edge order, sized and flagged by the layout. Then the world is initialized. Earlier lines keep their lists with the new angles appended, and new lines hold exactly the appended angles. |
| Springs.SpringWorld.LayLines | PatternSynthesisTest/Springs.cpp:282-300 | One createSpringLine per edge, in order: the bodies are `EdgePositions`, the flags `EdgeFlags`, and the lines `Laid` along the edges. |
| Springs.SpringWorld.AddSide | PatternSynthesisTest/Springs.cpp:293-299 | One more edge laid after the earlier ones. |
| Springs.SpringWorld.FinishPattern | PatternSynthesisTest/Springs.cpp:169-172 | `initSpringWorld` after the lines are laid. |
| Springs.SpringWorld.CreateSpringBox | PatternSynthesisTest/Springs.cpp:260-270 | 4 lines along the square's sides, in order, each of numSegments springs, all 4(N+1) bodies dynamic. In an empty world: exactly the 4 corner joints, and one entry in each start list and each end list. |
| Springs.SpringWorld.CreateSquiggle | PatternSynthesisTest/Springs.cpp:306-315 | 3 lines along the squiggle, in order, all bodies dynamic. In an empty world: exactly the joints at the two bends. |
| Springs.SpringWorld.CreateSystem | PatternSynthesisTest/Springs.cpp:273-304 | One line per edge, in edge order, of `SegmentCount(distance)` springs. Its bodies are dynamic exactly when an end lies strictly inside the border scaled by 1/30. Then the world is initialized. |
| Springs.SpringWorld.CreateFractalTree | PatternSynthesisTest/Springs.cpp:335-342 | 2^d − 1 lines along `TreeEdges` from (0, 10) at −90°, in pre-order, each measured, all bodies dynamic. The branches grow from the root outwards. Then the world is initialized. |
| Springs.SpringWorld.BuildTree | PatternSynthesisTest/Springs.cpp:339-341 | drawTree and then initSpringWorld: Build for the tree's branches. |
| Springs.SpringWorld.DrawTree | PatternSynthesisTest/Springs.cpp:318-333 | Lays exactly the lines `TreeEdges` lists: nothing at depth 0, otherwise the branch, then the subtree at angle−20°, then the one at angle+20°. |
| Springs.SpringWorld.Subtrees | PatternSynthesisTest/Springs.cpp:330-331 | After the branch, the two recursive calls complete the tree of that depth. |
| Springs.SpringWorld.SubtreePair | PatternSynthesisTest/Springs.cpp:330-331 | The −20° subtree, then the +20° subtree, from the branch's end. |
| Springs.SpringWorld.Subtree | PatternSynthesisTest/Springs.cpp:330 | One recursive drawTree call appends its subtree's lines after those laid before. |
| Springs.SpringWorld.GetSpringEdges | PatternSynthesisTest/Springs.cpp:344-353 | The nested loops return `SpringEdges`: line by line, one edge per spring from its body's position to its next body's position. There are as many edges as springs. |
| Springs.SpringWorld.SpringEdgesAlong | PatternSynthesisTest/Springs.cpp:344-353 | In a built world, line k's edges chain from its start point to its end point. Edge i joins body positions i and i+1 of the line. |
| Springs.SpringWorld.LaidLines | PatternSynthesisTest/Springs.cpp:247-251 | Laid lines run along their edges with the RASF and their segment counts, with no angles recorded yet. |
| Springs.SpringWorld.ValidFacts | PatternSynthesisTest/Springs.cpp:248-249 | Every line's end bodies are set and exist. |
| Springs.SpringWorld.ValidWithin | PatternSynthesisTest/Springs.cpp:349 | Every spring's bodies exist. |
| Springs.EdgeCount | PatternSynthesisTest/Springs.cpp:347-351 | One edge per spring. |
| Springs.LineEdgesAlong | PatternSynthesisTest/Springs.cpp:213-215 | A line built by createSpringLine spans its n segments from start to end. |
| Springs.Segments | PatternSynthesisTest/Springs.cpp:287-289 | Every layout gives each edge at least one segment. |
| Springs.FixedFlags | PatternSynthesisTest/Springs.cpp:264-267 | With a fixed count every body laid is dynamic, n+1 per edge. |
| Springs.DynamicFlags | PatternSynthesisTest/Springs.cpp:329 | When every line is dynamic, so is every body laid. |
| Springs.EdgeBodies | PatternSynthesisTest/Springs.cpp:282-299 | The line along `edges[k]` owns the bodies from `Offset(k)` to `Offset(k+1)`: exactly its chain's positions, all with its dynamic flag. |
| Springs.BodiesConcat | PatternSynthesisTest/Springs.cpp:329-331 | The bodies laid along a + b are those along a, then those along b. |
| Springs.LaidConcat | PatternSynthesisTest/Springs.cpp:329-331 | Lines laid along a, then along b, are laid along a + b. |
| Springs.LaidSnoc | PatternSynthesisTest/Springs.cpp:251 | One more line laid. |
| Springs.AlongBox | PatternSynthesisTest/Springs.cpp:264-267 | The ends of lines along the box sides form the box. |
| Springs.AlongSquiggle | PatternSynthesisTest/Springs.cpp:310-312 | The ends of lines along the squiggle form the squiggle. |
| Springs.Position | PatternSynthesisTest/Springs.cpp:162 | `i/N` lies in [0, 1) and times N gives i. |
| Tree.TreeSize | PatternSynthesisTest/Springs.cpp:318-333 | A tree of depth d has 2^d − 1 branches. |
| Tree.TreeShape | PatternSynthesisTest/Springs.cpp:320-331 | The branch comes first, starting at the root. Each subtree's first branch starts at the branch's end: the −20° subtree at index 1, the +20° one at index 2^(d−1). |
| Tree.TreeGrown | PatternSynthesisTest/Springs.cpp:318-333 | The first branch starts at the root, and every later branch starts at the end of an earlier one. |
| Tree.ChildGrown | PatternSynthesisTest/Springs.cpp:330-331 | A subtree drawn from a branch's end keeps the branches linked. |
| Topology.CoincidencesExact | PatternSynthesisTest/Springs.cpp:102-151 | Every coincidence found is between two distinct lines i < j, and is found exactly when its two ends lie within 1e-5. They come in loop order with no repeats, so each unordered pair of lines is tested once, at all four pairings. |
| Topology.JointsOf | PatternSynthesisTest/Springs.cpp:113-115 | One joint per coincidence, in order, between the two end bodies. |
| Topology.AnglesOpposite | PatternSynthesisTest/Springs.cpp:117-118 | The two angles appended for a coincidence are negatives of each other. |
| Topology.AppendedInRange | PatternSynthesisTest/Springs.cpp:117-118 | With initial angles from atan2, every appended angle lies in [-π, π]. |
| Topology.AppendedLength | PatternSynthesisTest/Springs.cpp:119-150 | Each list grows by one entry per coincidence at that end. |
| Topology.TotalTwicePerJoint | PatternSynthesisTest/Springs.cpp:112-151 | Coincidences between distinct lines append twice as many entries as joints. |
| Topology.CoincidencesTwicePerJoint | PatternSynthesisTest/Springs.cpp:100-155 | For the coincidences connectSpringLines finds, twice as many entries are appended as joints are created. |
| Topology.ApplyIs | PatternSynthesisTest/Springs.cpp:112-151 | Handling coincidences one at a time appends their joints in order, and appends `Appended(...)` to each list. |
| Topology.PrefixResultIsApply | PatternSynthesisTest/Springs.cpp:102-154 | The two loops handle exactly the coincidences they find, in order. |
| Topology.RowResultIsApply | PatternSynthesisTest/Springs.cpp:103-153 | The inner loop handles the coincidences of its row, in order. |
| Topology.PrefixCandidate | PatternSynthesisTest/Springs.cpp:102-103 | The loops test the pair (i, j) exactly when i < j. |
| Topology.RowCandidate | PatternSynthesisTest/Springs.cpp:103 | The inner loop for line i tests exactly the later lines. |
| Topology.PairCandidate | PatternSynthesisTest/Springs.cpp:112-151 | One pair is tested at each of the four end pairings. |
| Topology.FilterMember | PatternSynthesisTest/Springs.cpp:112 | A candidate is kept exactly when it is near. |
| Topology.FilterOrdered | PatternSynthesisTest/Springs.cpp:102-151 | Keeping the near candidates preserves the loop order. |
| Topology.GridNear | PatternSynthesisTest/Springs.cpp:101 | Between whole-number points, being within 1e-5 is equality. |
| Topology.CoincidencesOnGrid | PatternSynthesisTest/Springs.cpp:101-151 | For end points on the whole-number grid, a coincidence is exact equality. |
| Topology.BoxCorners | PatternSynthesisTest/Springs.cpp:260-270 | The box's lines meet at exactly its four corners, in loop order. |
| Topology.BoxAngleLists | PatternSynthesisTest/Springs.cpp:260-270 | The connected box has 4 joints, and each line has one entry in each of its two lists. |
| Topology.CornerLists | PatternSynthesisTest/Springs.cpp:119-150 | Four lines joined at four corners get one entry per list. |
| Topology.SquiggleJoints | PatternSynthesisTest/Springs.cpp:306-315 | The squiggle's three lines meet at its two bends and nowhere else. |
| Topology.FourLines | PatternSynthesisTest/Springs.cpp:102-103 | The loops over four lines visit the six pairs in order. |
| Topology.ThreeLines | PatternSynthesisTest/Springs.cpp:102-103 | The loops over three lines visit the three pairs in order. |

## Left out

- `SpringWorld::update` and `b2World::Step` (Springs.cpp:180-187): integration and dynamics are not modelled. Positions never change after a body is created, and `UpdateForces` is modelled per spring.
- The fixtures, damping, body angle, collision filters, and the unused `world` argument of the `Spring` constructor (Springs.cpp:18, 198, 204-205, 218, 222-231): Box2D bookkeeping that none of the modelled state depends on.
- `getWorld` (Springs.cpp:174-177) is a plain accessor. The model's `SpringWorld.world` field plays its part.
- Rounding and other IEEE-754 effects: float32 and float64 values are reals. Only the NaN of the averaging variant over no angles is modelled. Function values stand for `atan2`, `sin`, `cos` and `sqrt`, and only the facts in `Geometry.Sound` are assumed of them.
- Springs.SpringWorld.CreateSpringLine: numSegments = 0 is excluded by a precondition, since the source divides by zero there (Springs.cpp:196, 215). The unsigned wrap of `numSegments + 1` for the largest count is not modelled.
- Springs.SpringWorld.CreateSpringBox: inherits the numSegments ≥ 1 precondition, although main.cpp passes it a count the user types. With 0 the source creates one body per line at a NaN position and no springs, and still joins the lines at their end points. That case is not modelled.
- Springs.SpringWorld.CreateSquiggle: inherits the numSegments ≥ 1 precondition in the same way, and the same count of 0 from main.cpp is not modelled.
- Springs.SpringWorld.DrawTree: the depth is a `nat`. A negative `int` depth, which would recurse without end in the source, is not modelled, and neither is the conversion of `createFractalTree`'s unsigned depth to that `int` (Springs.cpp:318, 335, 339).
- Springs.SpringWorld.CreateFractalTree: a depth above INT_MAX arrives at `drawTree` as a negative `int`, and the source then recurses without end. The model promises 2^d − 1 lines for every natural depth.
- The `rand()` stream: each spring's draw is an input `draws(line, spring)` rather than successive values of a global generator. Calls that take no draw just ignore theirs.
- `connectiveSprings` (Springs.h:108) is never used. `createRandomizedFractalTree`, `drawRandomizedTree` and the sequential-sine RASFs are declared or referred to, but not defined in the modelled files.
- The rendering, console and screenshot code of main.cpp, and the Voronoi wrapper: `Edge` is only a pair of points here.
- Springs.SpringWorld.Build: the builders state the joints, the angle lists, the positions, the dynamic flags and the rest angles of the world they produce. They do not restate the force accumulators, which are only extended with zeros (`CreateSpringLine` states that).
- Springs.SpringWorld.CreateSquiggle: beyond the two bends, the contract does not state per-line angle counts for an empty world. `CreateSpringBox` does state its corner counts.
- Topology.JoinStep: a coincidence whose line indices are out of range leaves the state unchanged. No coincidence that connectSpringLines finds is like that, so this totalization never applies to the world.
- The `if (s1 == s2) continue;` guard (Springs.cpp:105) is dead code, because `s2` starts at `s1 + 1`. The model has no such branch, and `CoincidencesExact` shows that every coincidence joins two distinct lines.

## Notes on the source

- The randomized RASF (RASF.h:74-80) does not divide by the segment count, because its `invNumSegments` line is commented out. It returns `multiplier * 0.1 * RandomFloat(-90°, 90°)`.
- The pseudorandom RASF (RASF.h:94-111) alternates its sign by the parity of `⌊T·N⌋`, and never uses its captured multiplier.
- The averaging RASF (RASF.h:50-60) divides by the total number of recorded angles without a check, so a line with no neighbours gets a NaN rest angle. The model keeps that NaN and shows what it does to the angular forces (`AngularUndefined`).
