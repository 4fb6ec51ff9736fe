# Three-robot path de-conflicting

This project models the coordination core of the evacuation package:
`coordination::getPathsWithoutRobotCollisions` and the two tests it relies on,
`intersect` and `intersectAtSameTime`.

Three robots follow pre-computed paths. A path is a sequence of
`PoseForCoordination` samples: a pose and the arc length from the start of the
path. The driver:

1. builds three intersection lists, one per robot pair: every pair of samples
   whose positions are within two robot radii (`intersect`), in nested-loop
   order;
2. keeps one "checked" flag per pair and one wait time per robot, and loops
   until all three flags are set. Resolving a pair raises the second robot's
   wait by `timeToWait = 1.0` until no listed pair conflicts in time
   (`intersectAtSameTime`: the samples' arc lengths, shifted by `wait * 0.3`,
   are within `0.5 + 0.1`). A raise clears the flag of the other pair that
   shares the raised robot;
3. returns, for each robot, its poses in path order and its final wait.

Files:

- `evacuation.dfy` — module `Evacuation`: `Point` and `Pose`. Their header is
  not part of this model, so they carry only the fields the core reads.
- `coordination.dfy` — module `Coordination`: the sample and result datatypes,
  the two tests, the intersection lists (a specification function
  `Intersections` and the nested-loop method `BuildIntersections`), the
  per-pair resolution (a specification function `SettledWait`, the first
  whole number of increments that clears a list, and the loop method
  `ResolvePair`), the three pair steps with their flag resets, the
  fixed-point loop `ResolveWaitTimes`, and the driver
  `GetPathsWithoutRobotCollisions`, which builds the lists, runs the loop and
  packages the results.

The driver's six local variables (three flags, three waits) are grouped in the
value `CoordinationState`; each pair's branch of the loop is a method that
returns the next state.

Modelling choices:

- `double` is modelled as exact `real`; `std::pow(x, 2)` as `x * x`,
  `std::abs` as `Abs`.
- The source file does not compile as it stands. Line 20 lacks a return type,
  line 38 spells the type of `path2` as `PoseForCoordinationPoseForCoordination`,
  and `collisions` (lines 77, 95, 113) is never declared. The model takes the
  evident intent: `getPose` returns the pose, `path2` is a sequence of samples,
  and `collisions` is a local loop flag of each pair's loop.
- Line 45 compares `path1` with `path1`, not with `path2`. The model keeps
  that: the robot-1/robot-2 list pairs `path1` with itself, and robot 2's wait
  depends on `path1` alone. Because every sample of `path1` is paired with
  itself and such a pair conflicts until the second robot is three increments
  behind, a non-empty `path1` always delays robot 2 by at least `3.0`
  (`SelfComparisonDelaysRobot2`).
- The `val >= 0` conjunct of `intersect` always holds, so the annulus in the
  comment on line 153 is not what the code tests: only the upper bound
  `(2r)^2` applies. The code accepts a negative radius, which then acts like
  its absolute value.
- The code has no iteration cap and no failure result. With exact arithmetic
  it needs none: every raise moves the delayed robot forward by `0.3` along
  its path, so each pair's loop stops after finitely many raises, and the outer loop stops
  because robot 2's wait is fixed after the first pass and every later pass
  that does not finish raises robot 3's wait. The model proves this
  termination.

## Model

| member | source | states |
|---|---|---|
| `Coordination.Intersect` | src/evacuation/src/coordination.cpp:152-156 | two poses intersect exactly when their squared distance is at most `4 r^2`; there is no lower bound |
| `Coordination.IntersectSymmetric` | src/evacuation/src/coordination.cpp:154-155 | the spatial test does not depend on the order of the two poses |
| `Coordination.IntersectRadiusSign` | src/evacuation/src/coordination.cpp:154-155 | the radius enters only through its square: `-r` and `r` give the same answer |
| `Coordination.IntersectSelf` | src/evacuation/src/coordination.cpp:153-155 | a pose always intersects itself, for every radius (the code applies no lower bound, whatever the comment on line 153 describes) |
| `Coordination.IntersectAtSameTime` | src/evacuation/src/coordination.cpp:158-169 | two samples conflict exactly when the first's arc length plus `0.3 * wait1` lies within `0.6` of the second's plus `0.3 * wait2` |
| `Coordination.IntersectAtSameTimeSymmetric` | src/evacuation/src/coordination.cpp:163-165 | swapping both the samples and the waits gives the same answer |
| `Coordination.IntersectAtSameTimeShift` | src/evacuation/src/coordination.cpp:163-165 | adding the same amount to both waits gives the same answer: only their difference matters |
| `Coordination.RowMembership` | src/evacuation/src/coordination.cpp:45-49 | one outer sample's pairs are exactly its pairs with the inner samples that intersect it |
| `Coordination.RowAppend` | src/evacuation/src/coordination.cpp:45-49 | within one outer sample, the pairs follow the order of the inner path |
| `Coordination.IntersectionsMembership` | src/evacuation/src/coordination.cpp:44-66 | a pair is in a list exactly when its first sample is on the outer path, its second on the inner path, and they intersect |
| `Coordination.IntersectionsAppendOuter` | src/evacuation/src/coordination.cpp:44-50 | the pairs of earlier outer samples come before those of later ones |
| `Coordination.IntersectionsWithEmptyPath` | src/evacuation/src/coordination.cpp:44-66 | an empty path, inner or outer, yields an empty list |
| `Coordination.SelfIntersectionsHaveDiagonal` | src/evacuation/src/coordination.cpp:44-50 | a path compared with itself lists every diagonal pair `(p, p)` |
| `Coordination.BuildIntersections` | src/evacuation/src/coordination.cpp:44-66 | the nested loops build exactly the list `Intersections(outer, inner, r)`, in nested-loop order |
| `Coordination.ConflictWithinHorizon` | src/evacuation/src/coordination.cpp:163-165 | a list can conflict only while the second robot's wait is at most a bound fixed by the list and the first robot's wait |
| `Coordination.SettledWaitIsClear` | src/evacuation/src/coordination.cpp:78-92 | after resolution no pair of the list conflicts in time |
| `Coordination.SettledWaitIsFirst` | src/evacuation/src/coordination.cpp:78-92 | every smaller whole number of increments still leaves a conflict: resolution stops at the first clear wait |
| `Coordination.SettledWaitIsFirstFromZero` | src/evacuation/src/coordination.cpp:96-128 | the same "first clear wait" fact for a resolution that starts a whole number of increments from zero, counted from zero, as robot 3's repeated resolutions do |
| `Coordination.SettledWaitMoves` | src/evacuation/src/coordination.cpp:81-82 | the wait never decreases, and it changes exactly when the list conflicts at the start, then by at least one increment |
| `Coordination.SettledWaitIdempotent` | src/evacuation/src/coordination.cpp:78-92 | resolving an already resolved pair leaves the wait unchanged |
| `Coordination.EqualDistancesNeedThreeSteps` | src/evacuation/src/coordination.cpp:159-165 | a listed pair at equal arc lengths forces at least three increments from equal waits |
| `Coordination.ResolvePair` | src/evacuation/src/coordination.cpp:77-92 | the retry loop ends at the settled wait, with no conflict left; it reports a raise exactly when the list conflicted at the starting wait, which is exactly when the wait changed |
| `Coordination.ResolveRobot1Robot2` | src/evacuation/src/coordination.cpp:76-93 | robot 2 gets its settled wait against robot 1, the 1-2 flag is set, and the 2-3 flag is cleared exactly when robot 2's wait changed; nothing else changes; flags stay sound |
| `Coordination.ResolveRobot1Robot3` | src/evacuation/src/coordination.cpp:94-111 | robot 3 gets its settled wait against robot 1, the 1-3 flag is set, and the 2-3 flag is cleared exactly when robot 3's wait changed; nothing else changes; flags stay sound |
| `Coordination.ResolveRobot2Robot3` | src/evacuation/src/coordination.cpp:112-129 | robot 3 gets its settled wait against robot 2, the 2-3 flag is set, and the 1-3 flag is cleared exactly when robot 3's wait changed; nothing else changes; flags stay sound |
| `Coordination.ResolveWaitTimes` | src/evacuation/src/coordination.cpp:68-133 | the fixed-point loop terminates with all three flags set and no listed pair conflicting in time; robot 1's wait stays 0, robot 2's is its settled wait from 0 against robot 1, robot 3's is the first whole number of increments at which neither of its lists conflicts (0 when both are empty) |
| `Coordination.PosesOf` | src/evacuation/src/coordination.cpp:134-137 | the result holds each sample's pose, same length and order as the path |
| `Coordination.GetPathsWithoutRobotCollisions` | src/evacuation/src/coordination.cpp:38-150 | the driver terminates; it returns three records whose poses are the paths' poses in order; robot 1 waits 0, robot 2 waits the settled wait of `path1` against itself, robot 3 waits the first whole number of increments at which neither of its lists conflicts (0 when it has no intersections); no pair of any of the three lists conflicts in time under the final waits |
| `Coordination.SelfComparisonDelaysRobot2` | src/evacuation/src/coordination.cpp:44-50 | because line 45 pairs `path1` with itself, a non-empty `path1` delays robot 2 by at least three increments whatever its own path |

## Left out

- `Pose::toPoseStamped` (lines 24-36): it builds a ROS message stamped with a
  ROS clock time; transport types are not part of this model.
- IEEE-754 rounding of `double`, `std::pow` and `std::abs`: the model uses
  exact reals, so boundary cases such as a distance of exactly `0.6` follow
  exact arithmetic, and termination is proved for exact arithmetic only.
- The constructors and the getter of `PoseForCoordination` (lines 14-22) are
  the datatype's constructor and its `pose` field.
- The header declarations of `PoseForCoordination`, `RobotCoordination` and
  `evacuation::Pose` are not part of this model; minimal local datatypes stand
  in for them.
- The driver handles the three hard-coded robots and pairs of the code; it is
  not generalised to any number of robots.
