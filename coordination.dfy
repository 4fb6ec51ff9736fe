/**
 De-conflicting the paths of three robots that share a workspace.

 Each robot follows a path of samples; a sample is a pose together with the
 arc length travelled from the start of the path. A sample of an outer path
 and a sample of an inner path "intersect" when their positions are within two
 robot radii of each other. Delaying a robot's start by a wait time shifts all
 its samples forward in "time-position"; a spatially intersecting pair
 conflicts in time when the shifted positions are too close. The driver delays robots one step at a time
 until no intersecting pair conflicts in time.

 All C++ `double`s are modelled as exact reals.
 */
module Coordination {
  import opened Evacuation

  /** Footprint of a robot along its path. */
  const RobotSize: real := 0.5
  /** Safety clearance added to the footprint. */
  const Offset: real := 0.1
  /** Arc length equivalent to one unit of wait time. */
  const SpaceWait: real := 0.3
  /** The increment by which a delayed robot's wait time is raised. */
  const TimeToWait: real := 1.0

  /** A path sample: a pose and the arc length from the start of the path. */
  datatype PoseForCoordination = PoseForCoordination(pose: Pose, distanceFromInitial: real)

  /** The result for one robot: its poses in path order and its start delay. */
  datatype RobotCoordination = RobotCoordination(path: seq<Pose>, waitTime: real)

  /** A spatially intersecting pair of samples: `first` a sample of the outer
      path, `second` a sample of the inner path. */
  datatype Intersection = Intersection(first: PoseForCoordination, second: PoseForCoordination)

  // ---------------------------------------------------------------------------
  // Spatial intersection

  function Square(v: real): real
  {
    v * v
  }

  /** Squared Euclidean distance between the positions of two poses. */
  function SquaredDistance(p1: Pose, p2: Pose): real
  {
    Square(p1.position.x - p2.position.x) + Square(p1.position.y - p2.position.y)
  }

  /** Whether two poses are within two robot radii of each other. The test on
      the lower end (`val >= 0`) never fails, so the intended annulus check
      collapses to a disc of radius `2 * robotRadius`. */
  function Intersect(p1: Pose, p2: Pose, robotRadius: real): (r: bool)
    ensures r <==> SquaredDistance(p1, p2) <= 4.0 * Square(robotRadius)
  {
    var val := Square(p1.position.x - p2.position.x) + Square(p1.position.y - p2.position.y);
    val >= 0.0 && val <= Square(robotRadius * 2.0)
  }

  lemma IntersectSymmetric(p1: Pose, p2: Pose, robotRadius: real)
    ensures Intersect(p1, p2, robotRadius) == Intersect(p2, p1, robotRadius)
  {
  }

  /** The radius enters only through its square: a negative radius acts like
      its absolute value. */
  lemma IntersectRadiusSign(p1: Pose, p2: Pose, robotRadius: real)
    ensures Intersect(p1, p2, -robotRadius) == Intersect(p1, p2, robotRadius)
  {
  }

  /** There is no lower bound on the distance: a pose always intersects itself,
      whatever the radius. */
  lemma IntersectSelf(p: Pose, robotRadius: real)
    ensures Intersect(p, p, robotRadius)
  {
  }

  // ---------------------------------------------------------------------------
  // Temporal conflict

  function Abs(v: real): real
  {
    if v < 0.0 then -v else v
  }

  /** Whether two samples, shifted along their paths by their robots' waits,
      come within robot size plus offset of each other. */
  function IntersectAtSameTime(p1: PoseForCoordination, p2: PoseForCoordination,
                               robot1WaitTime: real, robot2WaitTime: real): (r: bool)
    ensures r <==> p2.distanceFromInitial + robot2WaitTime * 0.3 - 0.6
                   <= p1.distanceFromInitial + robot1WaitTime * 0.3
                   <= p2.distanceFromInitial + robot2WaitTime * 0.3 + 0.6
  {
    var p1WithTime := p1.distanceFromInitial + robot1WaitTime * SpaceWait;
    var p2WithTime := p2.distanceFromInitial + robot2WaitTime * SpaceWait;
    Abs(p1WithTime - p2WithTime) <= RobotSize + Offset
  }

  lemma IntersectAtSameTimeSymmetric(p1: PoseForCoordination, p2: PoseForCoordination, w1: real, w2: real)
    ensures IntersectAtSameTime(p1, p2, w1, w2) == IntersectAtSameTime(p2, p1, w2, w1)
  {
  }

  /** Only the difference of the two waits matters. */
  lemma IntersectAtSameTimeShift(p1: PoseForCoordination, p2: PoseForCoordination, w1: real, w2: real, c: real)
    ensures IntersectAtSameTime(p1, p2, w1 + c, w2 + c) == IntersectAtSameTime(p1, p2, w1, w2)
  {
  }

  // ---------------------------------------------------------------------------
  // Intersection lists

  /** The pairs of `a` with every sample of `inner` that intersects it, in the
      order of `inner`. */
  function Row(a: PoseForCoordination, inner: seq<PoseForCoordination>, robotRadius: real): seq<Intersection>
  {
    if inner == [] then []
    else
      var b := inner[|inner| - 1];
      Row(a, inner[..|inner| - 1], robotRadius)
        + (if Intersect(a.pose, b.pose, robotRadius) then [Intersection(a, b)] else [])
  }

  /** All intersecting pairs of `outer` x `inner`, in nested-loop order: the
      outer path in the outer loop, the inner path in the inner loop. */
  function Intersections(outer: seq<PoseForCoordination>, inner: seq<PoseForCoordination>,
                         robotRadius: real): seq<Intersection>
  {
    if outer == [] then []
    else Intersections(outer[..|outer| - 1], inner, robotRadius) + Row(outer[|outer| - 1], inner, robotRadius)
  }

  lemma {:induction false} RowMembership(a: PoseForCoordination, inner: seq<PoseForCoordination>,
                                         robotRadius: real, x: Intersection)
    ensures x in Row(a, inner, robotRadius) <==>
            x.first == a && x.second in inner && Intersect(a.pose, x.second.pose, robotRadius)
  {
    if inner != [] {
      var init := inner[..|inner| - 1];
      RowMembership(a, init, robotRadius, x);
      assert inner == init + [inner[|inner| - 1]];
    }
  }

  /** A pair is listed exactly when its first sample is on the outer path, its
      second on the inner path, and the two intersect. */
  lemma {:induction false} IntersectionsMembership(outer: seq<PoseForCoordination>, inner: seq<PoseForCoordination>,
                                                   robotRadius: real, x: Intersection)
    ensures x in Intersections(outer, inner, robotRadius) <==>
            x.first in outer && x.second in inner && Intersect(x.first.pose, x.second.pose, robotRadius)
  {
    if outer != [] {
      var init := outer[..|outer| - 1];
      IntersectionsMembership(init, inner, robotRadius, x);
      RowMembership(outer[|outer| - 1], inner, robotRadius, x);
      assert outer == init + [outer[|outer| - 1]];
    }
  }

  /** Within one outer sample, the pairs follow the order of the inner path. */
  lemma {:induction false} RowAppend(a: PoseForCoordination, inner1: seq<PoseForCoordination>,
                                     inner2: seq<PoseForCoordination>, robotRadius: real)
    ensures Row(a, inner1 + inner2, robotRadius) == Row(a, inner1, robotRadius) + Row(a, inner2, robotRadius)
    decreases |inner2|
  {
    if inner2 != [] {
      var init := inner2[..|inner2| - 1];
      assert (inner1 + inner2)[..|inner1 + inner2| - 1] == inner1 + init;
      RowAppend(a, inner1, init, robotRadius);
    } else {
      assert inner1 + inner2 == inner1;
    }
  }

  /** Splitting the outer path splits the list at the same place: the pairs of
      earlier outer samples come first. */
  lemma {:induction false} IntersectionsAppendOuter(outer1: seq<PoseForCoordination>, outer2: seq<PoseForCoordination>,
                                                    inner: seq<PoseForCoordination>, robotRadius: real)
    ensures Intersections(outer1 + outer2, inner, robotRadius)
            == Intersections(outer1, inner, robotRadius) + Intersections(outer2, inner, robotRadius)
    decreases |outer2|
  {
    if outer2 != [] {
      var init := outer2[..|outer2| - 1];
      assert (outer1 + outer2)[..|outer1 + outer2| - 1] == outer1 + init;
      IntersectionsAppendOuter(outer1, init, inner, robotRadius);
    } else {
      assert outer1 + outer2 == outer1;
    }
  }

  /** A path with no samples takes part in no intersection. */
  lemma {:induction false} IntersectionsWithEmptyPath(path: seq<PoseForCoordination>, robotRadius: real)
    ensures Intersections(path, [], robotRadius) == []
    ensures Intersections([], path, robotRadius) == []
  {
    if path != [] {
      IntersectionsWithEmptyPath(path[..|path| - 1], robotRadius);
    }
  }

  /** Comparing a path with itself lists every diagonal pair `(p, p)`. */
  lemma SelfIntersectionsHaveDiagonal(path: seq<PoseForCoordination>, robotRadius: real, p: PoseForCoordination)
    requires p in path
    ensures Intersection(p, p) in Intersections(path, path, robotRadius)
  {
    IntersectSelf(p.pose, robotRadius);
    IntersectionsMembership(path, path, robotRadius, Intersection(p, p));
  }

  /** Builds the intersection list of two paths with two nested loops. */
  method BuildIntersections(outer: seq<PoseForCoordination>, inner: seq<PoseForCoordination>, robotRadius: real)
    returns (intersections: seq<Intersection>)
    ensures intersections == Intersections(outer, inner, robotRadius)
  {
    intersections := [];
    for i := 0 to |outer|
      invariant intersections == Intersections(outer[..i], inner, robotRadius)
    {
      var a := outer[i];
      for j := 0 to |inner|
        invariant intersections == Intersections(outer[..i], inner, robotRadius) + Row(a, inner[..j], robotRadius)
      {
        var b := inner[j];
        assert inner[..j + 1][..j] == inner[..j];
        if Intersect(a.pose, b.pose, robotRadius) {
          intersections := intersections + [Intersection(a, b)];
        }
      }
      assert inner[..|inner|] == inner;
      assert outer[..i + 1][..i] == outer[..i];
    }
    assert outer[..|outer|] == outer;
  }

  // ---------------------------------------------------------------------------
  // Resolving one robot pair

  /** Whether some pair of the list conflicts in time under the given waits. */
  predicate InConflict(intersections: seq<Intersection>, waitA: real, waitB: real)
  {
    exists i | 0 <= i < |intersections| ::
      IntersectAtSameTime(intersections[i].first, intersections[i].second, waitA, waitB)
  }

  function Max(a: real, b: real): real
  {
    if a < b then b else a
  }

  /** How far the first sample of a pair is ahead of the second once the first
      robot's wait is applied. */
  function Lead(x: Intersection, waitA: real): real
  {
    x.first.distanceFromInitial + waitA * SpaceWait - x.second.distanceFromInitial
  }

  function MaxLead(intersections: seq<Intersection>, waitA: real): (m: real)
    ensures forall i | 0 <= i < |intersections| :: Lead(intersections[i], waitA) <= m
  {
    if intersections == [] then 0.0
    else Max(Lead(intersections[0], waitA), MaxLead(intersections[1..], waitA))
  }

  /** A wait of the second robot past which no pair of the list can conflict. */
  function Horizon(intersections: seq<Intersection>, waitA: real): real
  {
    (MaxLead(intersections, waitA) + RobotSize + Offset) / SpaceWait
  }

  lemma ConflictWithinHorizon(intersections: seq<Intersection>, waitA: real, waitB: real)
    requires InConflict(intersections, waitA, waitB)
    ensures waitB <= Horizon(intersections, waitA)
  {
  }

  /** The second robot's wait after `k` increments. */
  function WaitAfter(waitB: real, k: nat): real
  {
    waitB + k as real * TimeToWait
  }

  /** Whether a wait is a whole number of increments from zero. */
  ghost predicate WholeSteps(w: real)
  {
    exists k: nat :: w == WaitAfter(0.0, k)
  }

  /** The number of increments the second robot needs, starting from `waitB`,
      until no pair of the list conflicts. */
  function StepsToSettle(intersections: seq<Intersection>, waitA: real, waitB: real): nat
    decreases Horizon(intersections, waitA) - waitB
  {
    if InConflict(intersections, waitA, waitB) then
      ConflictWithinHorizon(intersections, waitA, waitB);
      1 + StepsToSettle(intersections, waitA, waitB + TimeToWait)
    else 0
  }

  /** The second robot's wait once the pair is resolved. */
  function SettledWait(intersections: seq<Intersection>, waitA: real, waitB: real): real
  {
    WaitAfter(waitB, StepsToSettle(intersections, waitA, waitB))
  }

  /** Once settled, no pair of the list conflicts. */
  lemma {:induction false} SettledWaitIsClear(intersections: seq<Intersection>, waitA: real, waitB: real)
    ensures !InConflict(intersections, waitA, SettledWait(intersections, waitA, waitB))
    decreases Horizon(intersections, waitA) - waitB
  {
    if InConflict(intersections, waitA, waitB) {
      ConflictWithinHorizon(intersections, waitA, waitB);
      SettledWaitIsClear(intersections, waitA, waitB + TimeToWait);
      assert SettledWait(intersections, waitA, waitB) == SettledWait(intersections, waitA, waitB + TimeToWait);
    }
  }

  /** Every wait before the settled one still conflicts: the settled wait is the
      first whole number of increments that clears the list. */
  lemma {:induction false} SettledWaitIsFirst(intersections: seq<Intersection>, waitA: real, waitB: real, k: nat)
    requires k < StepsToSettle(intersections, waitA, waitB)
    ensures InConflict(intersections, waitA, WaitAfter(waitB, k))
    decreases k
  {
    if k > 0 {
      SettledWaitIsFirst(intersections, waitA, waitB + TimeToWait, k - 1);
      assert WaitAfter(waitB + TimeToWait, k - 1) == WaitAfter(waitB, k);
    }
  }

  /** `SettledWaitIsFirst` for a resolution that starts `n` increments from
      zero, counted from zero. */
  lemma SettledWaitIsFirstFromZero(intersections: seq<Intersection>, waitA: real, n: nat, k: nat)
    requires n <= k < n + StepsToSettle(intersections, waitA, WaitAfter(0.0, n))
    ensures InConflict(intersections, waitA, WaitAfter(0.0, k))
  {
    SettledWaitIsFirst(intersections, waitA, WaitAfter(0.0, n), k - n);
    assert WaitAfter(WaitAfter(0.0, n), k - n) == WaitAfter(0.0, k);
  }

  /** The wait only grows, and it moves exactly when the list conflicts at the
      starting wait, then by at least one increment. */
  lemma SettledWaitMoves(intersections: seq<Intersection>, waitA: real, waitB: real)
    ensures SettledWait(intersections, waitA, waitB) >= waitB
    ensures SettledWait(intersections, waitA, waitB) != waitB <==> InConflict(intersections, waitA, waitB)
    ensures InConflict(intersections, waitA, waitB) ==>
              SettledWait(intersections, waitA, waitB) >= waitB + TimeToWait
  {
  }

  /** Resolving an already resolved pair changes nothing. */
  lemma SettledWaitIdempotent(intersections: seq<Intersection>, waitA: real, waitB: real)
    ensures SettledWait(intersections, waitA, SettledWait(intersections, waitA, waitB))
            == SettledWait(intersections, waitA, waitB)
  {
    SettledWaitIsClear(intersections, waitA, waitB);
  }

  /** A pair whose two samples are at the same arc length conflicts until the
      second robot is three increments behind the first: resolving a list that
      holds one needs at least three increments from equal waits. */
  lemma EqualDistancesNeedThreeSteps(intersections: seq<Intersection>, i: nat, wait: real)
    requires i < |intersections|
    requires intersections[i].first.distanceFromInitial == intersections[i].second.distanceFromInitial
    ensures SettledWait(intersections, wait, wait) >= wait + 3.0 * TimeToWait
  {
    var x := intersections[i];
    assert IntersectAtSameTime(x.first, x.second, wait, wait);
    assert IntersectAtSameTime(x.first, x.second, wait, wait + 1.0);
    assert IntersectAtSameTime(x.first, x.second, wait, wait + 2.0);
    assert StepsToSettle(intersections, wait, wait + 2.0) >= 1;
    assert StepsToSettle(intersections, wait, wait + 1.0) >= 2;
    assert StepsToSettle(intersections, wait, wait) >= 3;
  }

  /** Resolves one robot pair: keeps raising the second robot's wait by
      `TimeToWait` until a full scan of the list finds no pair that conflicts
      in time. `raised` tells whether the wait changed, which is when the
      driver clears the flags of the other pairs that share the second robot. */
  method ResolvePair(intersections: seq<Intersection>, waitA: real, waitB: real)
    returns (newWaitB: real, raised: bool)
    ensures newWaitB == SettledWait(intersections, waitA, waitB)
    ensures !InConflict(intersections, waitA, newWaitB)
    ensures raised <==> InConflict(intersections, waitA, waitB)
    ensures raised <==> newWaitB != waitB
  {
    newWaitB, raised := waitB, false;
    var collisions := true;
    while collisions
      invariant SettledWait(intersections, waitA, newWaitB) == SettledWait(intersections, waitA, waitB)
      invariant !collisions ==> !InConflict(intersections, waitA, newWaitB)
      invariant raised ==> InConflict(intersections, waitA, waitB) && newWaitB != waitB
      invariant !raised ==> newWaitB == waitB
      invariant newWaitB >= waitB
      decreases collisions, Horizon(intersections, waitA) - newWaitB
    {
      var broken := false;
      var i := 0;
      while i < |intersections|
        invariant 0 <= i <= |intersections|
        invariant forall k | 0 <= k < i ::
                    !IntersectAtSameTime(intersections[k].first, intersections[k].second, waitA, newWaitB)
      {
        if IntersectAtSameTime(intersections[i].first, intersections[i].second, waitA, newWaitB) {
          ConflictWithinHorizon(intersections, waitA, newWaitB);
          assert StepsToSettle(intersections, waitA, newWaitB)
              == 1 + StepsToSettle(intersections, waitA, newWaitB + TimeToWait);
          newWaitB := newWaitB + TimeToWait;
          raised := true;
          broken := true;
          break;
        }
        i := i + 1;
      }
      if !broken {
        collisions := false;
      }
    }
    SettledWaitMoves(intersections, waitA, newWaitB);
  }

  // ---------------------------------------------------------------------------
  // The three-robot driver

  /** The intersection lists of the three robot pairs. */
  datatype PairLists = PairLists(robot1Robot2: seq<Intersection>,
                                 robot1Robot3: seq<Intersection>,
                                 robot2Robot3: seq<Intersection>)

  /** The driver's loop state: one "checked" flag per robot pair and one wait
      time per robot. */
  datatype CoordinationState = CoordinationState(checked12: bool, checked13: bool, checked23: bool,
                                                 wait1: real, wait2: real, wait3: real)

  /** Every pair whose flag is set is free of temporal conflicts under the
      current waits. */
  predicate Sound(lists: PairLists, s: CoordinationState)
  {
    (s.checked12 ==> !InConflict(lists.robot1Robot2, s.wait1, s.wait2)) &&
    (s.checked13 ==> !InConflict(lists.robot1Robot3, s.wait1, s.wait3)) &&
    (s.checked23 ==> !InConflict(lists.robot2Robot3, s.wait2, s.wait3))
  }

  /** Resolves robots 1 and 2 by delaying robot 2; a change of robot 2's wait
      clears only the 2-3 flag. */
  method ResolveRobot1Robot2(lists: PairLists, s: CoordinationState) returns (t: CoordinationState)
    ensures t == s.(checked12 := true,
                    wait2 := SettledWait(lists.robot1Robot2, s.wait1, s.wait2),
                    checked23 := s.checked23 && !InConflict(lists.robot1Robot2, s.wait1, s.wait2))
    ensures t.checked23 <==> s.checked23 && t.wait2 == s.wait2
    ensures Sound(lists, s) ==> Sound(lists, t)
  {
    var wait2, raised := ResolvePair(lists.robot1Robot2, s.wait1, s.wait2);
    t := s.(wait2 := wait2);
    if raised {
      t := t.(checked23 := false);
    }
    t := t.(checked12 := true);
  }

  /** Resolves robots 1 and 3 by delaying robot 3; a change of robot 3's wait
      clears only the 2-3 flag. */
  method ResolveRobot1Robot3(lists: PairLists, s: CoordinationState) returns (t: CoordinationState)
    ensures t == s.(checked13 := true,
                    wait3 := SettledWait(lists.robot1Robot3, s.wait1, s.wait3),
                    checked23 := s.checked23 && !InConflict(lists.robot1Robot3, s.wait1, s.wait3))
    ensures t.checked23 <==> s.checked23 && t.wait3 == s.wait3
    ensures Sound(lists, s) ==> Sound(lists, t)
  {
    var wait3, raised := ResolvePair(lists.robot1Robot3, s.wait1, s.wait3);
    t := s.(wait3 := wait3);
    if raised {
      t := t.(checked23 := false);
    }
    t := t.(checked13 := true);
  }

  /** Resolves robots 2 and 3 by delaying robot 3; a change of robot 3's wait
      clears only the 1-3 flag. */
  method ResolveRobot2Robot3(lists: PairLists, s: CoordinationState) returns (t: CoordinationState)
    ensures t == s.(checked23 := true,
                    wait3 := SettledWait(lists.robot2Robot3, s.wait2, s.wait3),
                    checked13 := s.checked13 && !InConflict(lists.robot2Robot3, s.wait2, s.wait3))
    ensures t.checked13 <==> s.checked13 && t.wait3 == s.wait3
    ensures Sound(lists, s) ==> Sound(lists, t)
  {
    var wait3, raised := ResolvePair(lists.robot2Robot3, s.wait2, s.wait3);
    t := s.(wait3 := wait3);
    if raised {
      t := t.(checked13 := false);
    }
    t := t.(checked23 := true);
  }

  /** A wait of robot 3 past which neither of its lists can conflict. */
  function Robot3Horizon(lists: PairLists, s: CoordinationState): real
  {
    Max(Horizon(lists.robot1Robot3, s.wait1), Horizon(lists.robot2Robot3, s.wait2))
  }

  /** The fixed-point loop: resolves the pairs whose flags are clear, in the
      order 1-2, 1-3, 2-3, until all three flags are set. */
  method ResolveWaitTimes(lists: PairLists) returns (s: CoordinationState)
    ensures s.checked12 && s.checked13 && s.checked23 && Sound(lists, s)
    ensures s.wait1 == 0.0
    ensures s.wait2 == SettledWait(lists.robot1Robot2, 0.0, 0.0)
    ensures WholeSteps(s.wait3)
    ensures forall k: nat | WaitAfter(0.0, k) < s.wait3 ::
              InConflict(lists.robot1Robot3, 0.0, WaitAfter(0.0, k)) ||
              InConflict(lists.robot2Robot3, s.wait2, WaitAfter(0.0, k))
    ensures lists.robot1Robot3 == [] && lists.robot2Robot3 == [] ==> s.wait3 == 0.0
  {
    s := CoordinationState(false, false, false, 0.0, 0.0, 0.0);
    var collisionTimesFound := false;
    ghost var steps3: nat := 0;
    while !collisionTimesFound
      invariant Sound(lists, s)
      invariant s.wait1 == 0.0
      invariant s.wait2 == if s.checked12 then SettledWait(lists.robot1Robot2, 0.0, 0.0) else 0.0
      invariant s.wait3 == WaitAfter(0.0, steps3)
      invariant !s.checked12 ==> steps3 == 0
      invariant forall k: nat | k < steps3 ::
                  InConflict(lists.robot1Robot3, 0.0, WaitAfter(0.0, k)) ||
                  InConflict(lists.robot2Robot3, s.wait2, WaitAfter(0.0, k))
      invariant lists.robot1Robot3 == [] && lists.robot2Robot3 == [] ==> s.wait3 == 0.0
      invariant collisionTimesFound ==> s.checked12 && s.checked13 && s.checked23
      decreases !collisionTimesFound, !s.checked12, Robot3Horizon(lists, s) - s.wait3
    {
      if !s.checked12 {
        s := ResolveRobot1Robot2(lists, s);
      }
      ghost var afterRobot2 := s;
      if !s.checked13 {
        s := ResolveRobot1Robot3(lists, s);
        SettledWaitMoves(lists.robot1Robot3, afterRobot2.wait1, afterRobot2.wait3);
        ghost var n := steps3;
        steps3 := steps3 + StepsToSettle(lists.robot1Robot3, afterRobot2.wait1, afterRobot2.wait3);
        forall k: nat | n <= k < steps3
          ensures InConflict(lists.robot1Robot3, 0.0, WaitAfter(0.0, k))
        {
          SettledWaitIsFirstFromZero(lists.robot1Robot3, 0.0, n, k);
        }
      }
      ghost var beforeLast := s;
      if !s.checked23 {
        s := ResolveRobot2Robot3(lists, s);
        SettledWaitMoves(lists.robot2Robot3, beforeLast.wait2, beforeLast.wait3);
        ghost var n := steps3;
        steps3 := steps3 + StepsToSettle(lists.robot2Robot3, beforeLast.wait2, beforeLast.wait3);
        forall k: nat | n <= k < steps3
          ensures InConflict(lists.robot2Robot3, s.wait2, WaitAfter(0.0, k))
        {
          SettledWaitIsFirstFromZero(lists.robot2Robot3, s.wait2, n, k);
        }
        if !s.checked13 {
          ConflictWithinHorizon(lists.robot2Robot3, beforeLast.wait2, beforeLast.wait3);
        }
      }
      if s.checked12 && s.checked13 && s.checked23 {
        collisionTimesFound := true;
      }
    }
    assert s.wait3 == WaitAfter(0.0, steps3);
  }

  /** The poses of a path, in path order. */
  method PosesOf(path: seq<PoseForCoordination>) returns (poses: seq<Pose>)
    ensures |poses| == |path|
    ensures forall i | 0 <= i < |path| :: poses[i] == path[i].pose
  {
    poses := [];
    for i := 0 to |path|
      invariant |poses| == i
      invariant forall k | 0 <= k < i :: poses[k] == path[k].pose
    {
      poses := poses + [path[i].pose];
    }
  }

  /** Assigns a wait time to each of three robots so that no spatially
      intersecting pair of samples conflicts in time.

      As written, the robot-1/robot-2 list compares `path1` with itself rather
      than with `path2`; the model keeps that, so robot 2's wait depends on
      `path1` alone. */
  method GetPathsWithoutRobotCollisions(path1: seq<PoseForCoordination>, path2: seq<PoseForCoordination>,
                                        path3: seq<PoseForCoordination>, robotRadius: real)
    returns (result: seq<RobotCoordination>)
    ensures |result| == 3
    ensures |result[0].path| == |path1| && forall i | 0 <= i < |path1| :: result[0].path[i] == path1[i].pose
    ensures |result[1].path| == |path2| && forall i | 0 <= i < |path2| :: result[1].path[i] == path2[i].pose
    ensures |result[2].path| == |path3| && forall i | 0 <= i < |path3| :: result[2].path[i] == path3[i].pose
    ensures result[0].waitTime == 0.0
    ensures result[1].waitTime == SettledWait(Intersections(path1, path1, robotRadius), 0.0, 0.0)
    ensures WholeSteps(result[1].waitTime) && WholeSteps(result[2].waitTime)
    ensures !InConflict(Intersections(path1, path1, robotRadius), result[0].waitTime, result[1].waitTime)
    ensures !InConflict(Intersections(path1, path3, robotRadius), result[0].waitTime, result[2].waitTime)
    ensures !InConflict(Intersections(path2, path3, robotRadius), result[1].waitTime, result[2].waitTime)
    ensures forall k: nat | WaitAfter(0.0, k) < result[2].waitTime ::
              InConflict(Intersections(path1, path3, robotRadius), 0.0, WaitAfter(0.0, k)) ||
              InConflict(Intersections(path2, path3, robotRadius), result[1].waitTime, WaitAfter(0.0, k))
    ensures Intersections(path1, path3, robotRadius) == [] && Intersections(path2, path3, robotRadius) == []
            ==> result[2].waitTime == 0.0
  {
    // The source pairs path1 with path1 here, not with path2; kept as written.
    var robot1Robot2 := BuildIntersections(path1, path1, robotRadius);
    var robot2Robot3 := BuildIntersections(path2, path3, robotRadius);
    var robot1Robot3 := BuildIntersections(path1, path3, robotRadius);
    var lists := PairLists(robot1Robot2, robot1Robot3, robot2Robot3);

    var s := ResolveWaitTimes(lists);

    var path1Poses := PosesOf(path1);
    var path2Poses := PosesOf(path2);
    var path3Poses := PosesOf(path3);
    result := [RobotCoordination(path1Poses, s.wait1),
               RobotCoordination(path2Poses, s.wait2),
               RobotCoordination(path3Poses, s.wait3)];
    assert s.wait2 == WaitAfter(0.0, StepsToSettle(robot1Robot2, 0.0, 0.0));
  }

  /** Because robot 2 is checked against `path1` itself, a non-empty `path1`
      always delays robot 2 by at least three increments, whatever its own
      path. */
  lemma SelfComparisonDelaysRobot2(path1: seq<PoseForCoordination>, robotRadius: real)
    requires path1 != []
    ensures SettledWait(Intersections(path1, path1, robotRadius), 0.0, 0.0) >= 3.0 * TimeToWait
  {
    var list := Intersections(path1, path1, robotRadius);
    SelfIntersectionsHaveDiagonal(path1, robotRadius, path1[0]);
    var i :| 0 <= i < |list| && list[i] == Intersection(path1[0], path1[0]);
    EqualDistancesNeedThreeSteps(list, i, 0.0);
  }
}
