# Verified models of the navigation stack's algorithmic cores

Dafny models of the algorithms this navigation stack stands on, with proofs of what they are for. Every model
follows the branches, constants and error returns of the code it cites; numbers are exact reals and unbounded
integers.

| file | what it models |
|---|---|
| `Vectors.dfy`, `LbfgsDirection.dfy`, `LineSearch.dfy`, `Lbfgs.dfy` | the L-BFGS solver: vectors in place, the ring of correction pairs and the two-loop recursion, the Moré-Thuente line search, the whole run |
| `TrajectoryOptimizer.dfy`, `SplineCosts.dfy` | the B-spline optimizer around it: which control points can move, smoothness and feasibility costs with their scattered gradients |
| `Bspline.dfy`, `BsplineRate.dfy` | de Boor evaluation, derivative splines, the feasibility check; how fast a spline moves |
| `Modular.dfy`, `VoxelAddress.dfy`, `InflationCount.dfy`, `SlideWindow.dfy`, `SlidingMap.dfy` | the sliding voxel map: circular addressing, the reference-counted inflation layer, sliding, the fusion pass |
| `RayCaster.dfy`, `AStar.dfy`, `Rounding.dfy` | voxel traversal, and grid search on a plane with reused nodes |
| `PointFilter.dfy`, `SyncQueue.dfy` | the lidar driver's point filter and its lock-free queue |
| `Gateway.dfy`, `ReplanFsm.dfy` | the velocity gateway's threads, and the replanning state machine |
| `FileTransaction.dfy`, `Options.dfy` | replacing a set of map files with rollback; optional values |

Code that updates state in place is written as methods on arrays and classes, each proved against a function or
predicate; the laws are proved about those. Threads (the queue, the gateway) are machines whose steps are single
loads, stores or lock regions, and the theorems are about every interleaving.

What the environment decides is a parameter or a free choice: interpolated trial steps, the order in which the
search heap yields nodes, the schedule of the parallel filter loop, the planner's answers, clock readings, the
outcome of socket operations, and the step at which a file operation fails.

## Where the code differs from its description

- `lbfgs.hpp:1216` describes convergence with `<`; the code and the model use `<=` (line 1220). After a failed line
  search the point is reverted but the reported value is still that of the last point tried (lines 1189-1197, 1328).
  With max_linesearch 1, from 1 along the steepest descent of the square, the run returns the point 1 with the value 0
  (`Lbfgs.ReportsStaleValue`).
- The gradient that the feasibility cost scatters is its gradient at every control polygon if and only if the limits in
  use are not negative: the velocity limit from two columns on, the acceleration limit from three
  (`SplineCosts.LimitCondition`). A negative limit makes the two tests overlap (`bspline_optimizer.cpp:658-667`), and
  -1.0 is the declared default (lines 22-23).
- Inflation counts are exact across a slide if and only if no surviving obstacle reaches an entering voxel
  (`SlidingMap.GridMap.UpdateSlidingMap`); otherwise entering voxels start at zero (`grid_map.cpp:416-425`), as in
  `SlidingMap.SlideLosesCount`. The bound from above survives every slide.
- The index round trip of `dyn_a_star.h:103-112` is one too high below the centre index, because the cast truncates
  towards zero. A search whose end cell lies below the centre therefore cannot succeed, unless the end is the start or
  the two are too close in the plane for it to be tilted (`AStar.EndNotBelowCentre`).
- `limx_websocket_cmd_bridge.py:398` says that a command from before a disconnect is never replayed. Stated as "a
  written Twist arrived on the connection it is written to", this is kept by exactly the writes whose connection did not
  open while the callback held the Twist, was not still waiting for its reset when the snapshot was taken of a Twist
  stored before it opened, and did not open between the snapshot and the choice of the connection
  (`Gateway.FreshUnlessOpenedInWindow`). Runs for each: `Gateway.OldSampleOnNewConnection`,
  `Gateway.OldSnapshotBeforeReset`, `Gateway.OldCommandOnNewConnection` and `Gateway.OldCommandBeforeReset`.
- `raycast.cpp:14-23` looks for the next integer after the start, which for a start on an integer and a falling axis is
  one column too far: the walk is one column behind on that axis, and reports cells that its line does not touch
  (`RayCaster.MissesCell`). Everywhere else every cell meets the line (`RayCaster.Traverse`, `RayCaster.MeetsTouches`).
- Walk mode is entered by whichever request was accepted last, even if the connection was replaced during the zero
  sequence: `limx_websocket_cmd_bridge.py:727-731` sets it on a new connection (`Gateway.OldRequestOnNewConnection`).
- `select_navigation_map.py:300` promises a rollback on any failure. An Exception while staging or moving files aside
  deletes destinations that were staged, present and not yet moved aside; `FileTransaction.RollbackExactIff` is the
  exact condition and `FileTransaction.LosesFirstDestination` an example. An interrupt is not an `Exception` (line 335):
  nothing is rolled back, while the recorded backups are deleted all the same (343-349).
  `FileTransaction.InterruptExactIff` says exactly when the files are as before, and after
  `FileTransaction.LosesFileOnInterrupt` a destination holds neither the new file nor the old one.
- `rslidar_point_filter.hpp:313` fills `stats.removed` in two ways that agree exactly when every input point is
  finite (`PointFilter.RemovedCountsAgree`).
- A manual goal accepted in the emergency state of a hover stop is reported as running, and then dropped without a
  status once the fail-safe sees the robot slow after the stop went out (`scan_replan_fsm.cpp:205-238`, `1124-1132`);
  `ReplanFsm.HoverDropsAcceptedGoal` is the exact condition, over runs, and `ReplanFsm.GoalLostInHover` such a run.

## Model

| member | source | states |
|---|---|---|
| LineSearch.UpdateTrialInterval | SCAN-Planner-ros2-community/src/planner/bspline_opt/include/bspline_opt/lbfgs.hpp:506-714 | an update either fails one of the input checks and changes nothing, or keeps the best value from rising and, once bracketed, gives a strict sub-interval into which the slope at its better end points; the next trial stays in the clipping range whatever the interpolation yields |
| LineSearch.UpdateInterval | SCAN-Planner-ros2-community/src/planner/bspline_opt/include/bspline_opt/lbfgs.hpp:870-937 | the same through the modified function: ends stay evaluated points, a bracket shrinks, the slope at its better end still points into it, and the true best value does not rise |
| LineSearch.NarrowKeepsSound | SCAN-Planner-ros2-community/src/planner/bspline_opt/include/bspline_opt/lbfgs.hpp:616-660 | the three cases of the update keep the sign rule: once bracketed, the slope at the better end times the way to the other end is negative |
| LineSearch.Search | SCAN-Planner-ros2-community/src/planner/bspline_opt/include/bspline_opt/lbfgs.hpp:716-937 | every trial is made from a good bracket inside the limits, the first one where the caller asked; evaluations are bounded, the reported value is the objective at x, and the search ends where its last trial decides: with success exactly at a non-negative step that satisfies the strong Wolfe conditions and meets no reason to give up, and with each failure for its own reason |
| LineSearch.FirstGoodStepTaken | SCAN-Planner-ros2-community/src/planner/bspline_opt/include/bspline_opt/lbfgs.hpp:782-864 | a first trial strictly inside the limits that satisfies the strong Wolfe conditions ends an uncancelled search with success, at the first evaluation |
| LineSearch.GoodStepRefused | SCAN-Planner-ros2-community/src/planner/bspline_opt/include/bspline_opt/lbfgs.hpp:829-864 | a failed search whose last trial satisfies them sat on a limit, had used up its evaluations, or was bracketed and at an end, after a failed update, or in an interval no wider than xtol allows |
| LineSearch.BestNeverRises | SCAN-Planner-ros2-community/src/planner/bspline_opt/include/bspline_opt/lbfgs.hpp:775-935 | over a whole search fx is the objective at stx and never increases |
| LineSearch.BracketsNested | SCAN-Planner-ros2-community/src/planner/bspline_opt/include/bspline_opt/lbfgs.hpp:775-935 | once bracketed, any later bracket of the search is a strict sub-interval of any earlier one |
| LineSearch.WolfeStepPositive | SCAN-Planner-ros2-community/src/planner/bspline_opt/include/bspline_opt/lbfgs.hpp:860-864 | along a descent direction the accepted step is not zero |
| LbfgsDirection.FormStep | SCAN-Planner-ros2-community/src/planner/bspline_opt/include/bspline_opt/lbfgs.hpp:1294-1316 | one stored pair adds alpha squared times y.s to the quadratic form of the two-loop operator |
| LbfgsDirection.ApplyPositiveDefinite | SCAN-Planner-ros2-community/src/planner/bspline_opt/include/bspline_opt/lbfgs.hpp:1291-1316 | with curved pairs and positive scaling the two-loop operator is positive definite, for any number of pairs |
| LbfgsDirection.ApplySecant | SCAN-Planner-ros2-community/src/planner/bspline_opt/include/bspline_opt/lbfgs.hpp:1291-1316 | the operator of any number of pairs maps the y of the newest curved pair to its s |
| LbfgsDirection.ApplySymmetric | SCAN-Planner-ros2-community/src/planner/bspline_opt/include/bspline_opt/lbfgs.hpp:1291-1316 | the operator is symmetric |
| LbfgsDirection.ApplyScalesRest | SCAN-Planner-ros2-community/src/planner/bspline_opt/include/bspline_opt/lbfgs.hpp:1291-1316 | along a vector orthogonal to every stored s and y the operator is multiplication by the scaling |
| LbfgsDirection.ApplyKeepsZero | SCAN-Planner-ros2-community/src/planner/bspline_opt/include/bspline_opt/lbfgs.hpp:1291-1316 | a coordinate that vanishes in every pair and in the gradient vanishes in the direction |
| LbfgsDirection.RecentAfterStore | SCAN-Planner-ros2-community/src/planner/bspline_opt/include/bspline_opt/lbfgs.hpp:1264-1288 | storing at `end` and advancing it around the ring makes the new pair the newest of the recent ones |
| LbfgsDirection.RecentAfterOverwrite | SCAN-Planner-ros2-community/src/planner/bspline_opt/include/bspline_opt/lbfgs.hpp:1264-1288 | in a full ring the oldest pair falls out and all others keep their order |
| LbfgsDirection.DownLoop | SCAN-Planner-ros2-community/src/planner/bspline_opt/include/bspline_opt/lbfgs.hpp:1293-1303 | the first loop walks the ring backwards and leaves the reduced vector in d and each alpha in its slot |
| LbfgsDirection.UpLoop | SCAN-Planner-ros2-community/src/planner/bspline_opt/include/bspline_opt/lbfgs.hpp:1307-1316 | the second loop, starting from the scaled vector, ends with the operator applied to the first loop's input |
| LbfgsDirection.TwoLoop | SCAN-Planner-ros2-community/src/planner/bspline_opt/include/bspline_opt/lbfgs.hpp:1286-1316 | both loops in place compute the recursive operator of the newest pairs |
| Lbfgs.WolfeGivesCurvedPair | SCAN-Planner-ros2-community/src/planner/bspline_opt/include/bspline_opt/lbfgs.hpp:1264-1276 | the curvature test of the line search makes y.s of the new pair positive |
| Lbfgs.WolfeDecreases | SCAN-Planner-ros2-community/src/planner/bspline_opt/include/bspline_opt/lbfgs.hpp:860-864 | an accepted step does not raise the objective, and lowers it when f_dec_coeff is positive |
| Lbfgs.DirectionDescends | SCAN-Planner-ros2-community/src/planner/bspline_opt/include/bspline_opt/lbfgs.hpp:1291-1316 | the two-loop direction has a negative slope for every non-zero gradient |
| Lbfgs.MemoryAfterStore | SCAN-Planner-ros2-community/src/planner/bspline_opt/include/bspline_opt/lbfgs.hpp:1264-1288 | storing a curved pair keeps the invariant of the ring, full or not |
| Lbfgs.NewPairStored | SCAN-Planner-ros2-community/src/planner/bspline_opt/include/bspline_opt/lbfgs.hpp:1264-1276 | after an accepted step the pair is curved and has no component in frozen coordinates |
| Lbfgs.NextDirection | SCAN-Planner-ros2-community/src/planner/bspline_opt/include/bspline_opt/lbfgs.hpp:1286-1316 | from a kept ring the next direction descends and leaves frozen coordinates alone |
| Lbfgs.TurnedLaws | SCAN-Planner-ros2-community/src/planner/bspline_opt/include/bspline_opt/lbfgs.hpp:1286-1316 | the secant condition of the last step and the scaling along the rest, for the direction of any number of pairs |
| Lbfgs.SearchOnce | SCAN-Planner-ros2-community/src/planner/bspline_opt/include/bspline_opt/lbfgs.hpp:1171-1197 | a failed search restores point and gradient but keeps the value of the last point tried; a successful one leaves the strong Wolfe point, with fewer than max_linesearch evaluations; the first point tried is known, and it is accepted when it is good |
| Lbfgs.FoundInBound | SCAN-Planner-ros2-community/src/planner/bspline_opt/include/bspline_opt/lbfgs.hpp:1176-1185 | an accepted step keeps to min_step, max_step and the bound of the step callback, as far as these leave room |
| Lbfgs.Finished | SCAN-Planner-ros2-community/src/planner/bspline_opt/include/bspline_opt/lbfgs.hpp:1213-1257 | exactly when each stopping test fires, in order, and the array of past values after each outcome |
| Lbfgs.UpdateDirection | SCAN-Planner-ros2-community/src/planner/bspline_opt/include/bspline_opt/lbfgs.hpp:1259-1316 | the pair of the last step becomes the newest of the ring, whose invariant is kept; the new direction is that of the two loops over the newest pairs, descends, satisfies the secant condition of the last step, and is scaled steepest descent along what no pair has to do with |
| Lbfgs.Pass | SCAN-Planner-ros2-community/src/planner/bspline_opt/include/bspline_opt/lbfgs.hpp:1169-1322 | one pass: reverted on a search error, and otherwise a descending step to a strong Wolfe point, ended exactly by the test that fires; a good first trial is always the step; without an end the ring holds the new pair and the direction is that of the newest pairs |
| Lbfgs.DescendsThroughout | SCAN-Planner-ros2-community/src/planner/bspline_opt/include/bspline_opt/lbfgs.hpp:1169-1322 | every accepted point of a run is at or below every earlier one, strictly for positive f_dec_coeff |
| Lbfgs.Iterate | SCAN-Planner-ros2-community/src/planner/bspline_opt/include/bspline_opt/lbfgs.hpp:1163-1323 | the main loop as a descending chain of accepted points from the start to the returned point, and as a course of passes, each along the direction that the points before it determine |
| Lbfgs.Optimize | SCAN-Planner-ros2-community/src/planner/bspline_opt/include/bspline_opt/lbfgs.hpp:1024-1329 | the whole run: refused parameters change nothing; otherwise the result ends a descending chain from x0, the reported value is that of the result unless a search failed, convergence means a small gradient, every evaluated point keeps the coordinates in which the gradient vanishes, with max_linesearch 1 no step is ever accepted, and without a progress callback no run is cancelled; and each pass goes along the direction that the accepted points before it determine, to its first trial if that is good, until the first stopping test that fires |
| Lbfgs.MinimisesSquare | SCAN-Planner-ros2-community/src/planner/bspline_opt/include/bspline_opt/lbfgs.hpp:1024-1329 | on the square of one variable, from any start that is not flat and with a first step between 0.05 and 0.95: the run accepts the first trial, and unless the gradient is small enough there the second one, which is the minimum; it reports convergence |
| Lbfgs.MinimisesFromThree | SCAN-Planner-ros2-community/src/planner/bspline_opt/include/bspline_opt/lbfgs.hpp:942-954 | from 3 with step 1/6 and the default parameters the run ends at 0 with the value 0 |
| Lbfgs.ReportsStaleValue | SCAN-Planner-ros2-community/src/planner/bspline_opt/include/bspline_opt/lbfgs.hpp:1189-1197 | an input on which the run returns a point with the value of another one |
| TrajectoryOptimizer.CombinedFreezesZ | SCAN-Planner-ros2-community/src/planner/bspline_opt/src/bspline_optimizer.cpp:1148-1199 | clearing the z row makes the solver's gradient vanish in every z entry, at every point |
| TrajectoryOptimizer.EmbedKeepsRest | SCAN-Planner-ros2-community/src/planner/bspline_opt/src/bspline_optimizer.cpp:1148-1199 | a solver vector that keeps the z entries only moves x and y of interior columns |
| TrajectoryOptimizer.AfterEvaluations | SCAN-Planner-ros2-community/src/planner/bspline_opt/src/bspline_optimizer.cpp:1148-1199 | after any sequence of evaluations the control points are those of the last one, and the next evaluation sees the costs the first one saw |
| TrajectoryOptimizer.BsplineOptimizer.CombineCost | SCAN-Planner-ros2-community/src/planner/bspline_opt/src/bspline_optimizer.cpp:1148-1199 | one evaluation: the control points become the embedded vector, value and gradient are those of the combined cost with its z row cleared, and later evaluations see the same costs |
| TrajectoryOptimizer.BsplineOptimizer.Solve | SCAN-Planner-ros2-community/src/planner/bspline_opt/src/bspline_optimizer.cpp:1075-1110 | after every evaluation of a solver run, and after the run, only x and y of interior control points have changed; the control points end at the last point evaluated |
| TrajectoryOptimizer.BsplineOptimizer.Rebound | SCAN-Planner-ros2-community/src/planner/bspline_opt/src/bspline_optimizer.cpp:964-1073 | so does any sequence of solver runs with changing costs |
| SplineCosts.ScatterIsTranspose | SCAN-Planner-ros2-community/src/planner/bspline_opt/src/bspline_optimizer.cpp:473-512 | what a loop scatters into the gradient for one difference is the transpose of that difference |
| SplineCosts.SquareSumExpands | SCAN-Planner-ros2-community/src/planner/bspline_opt/src/bspline_optimizer.cpp:473-512 | the smoothness cost of q + h is cost of q plus a linear part plus cost of h, for any number of points |
| SplineCosts.CalcSmoothnessCost | SCAN-Planner-ros2-community/src/planner/bspline_opt/src/bspline_optimizer.cpp:473-512 | the loops compute that cost, and what they add to the gradient is its exact gradient |
| SplineCosts.ExcessConvexSmooth | SCAN-Planner-ros2-community/src/planner/bspline_opt/src/bspline_optimizer.cpp:658-677 | for a non-negative limit the squared excess lies between its tangent and a quadratic above it |
| SplineCosts.NegativeLimitJumps | SCAN-Planner-ros2-community/src/planner/bspline_opt/src/bspline_optimizer.cpp:658-677 | over every negative limit, however short the step, the penalty drops by a jump of fixed size that no first-order part accounts for |
| SplineCosts.NegativeVelocityLimit | SCAN-Planner-ros2-community/src/planner/bspline_opt/src/bspline_optimizer.cpp:650-680 | a polygon of any size from two columns at which arbitrarily short steps drop the cost by a fixed amount, for a negative velocity limit, whatever the acceleration limit |
| SplineCosts.NegativeAccelerationLimit | SCAN-Planner-ros2-community/src/planner/bspline_opt/src/bspline_optimizer.cpp:682-713 | one from three columns, for a negative acceleration limit |
| SplineCosts.LimitCondition | SCAN-Planner-ros2-community/src/planner/bspline_opt/src/bspline_optimizer.cpp:641-713 | for buffers of each size: the scattered slope is the gradient of the feasibility cost at every control polygon if and only if the limits in use are not negative; otherwise the cost drops by a fixed amount in arbitrarily short steps from some polygon |
| SplineCosts.PenaltyExpands | SCAN-Planner-ros2-community/src/planner/bspline_opt/src/bspline_optimizer.cpp:641-713 | a whole family of penalties exceeds its first-order part by something between zero and a quadratic form |
| SplineCosts.CalcFeasibilityCost | SCAN-Planner-ros2-community/src/planner/bspline_opt/src/bspline_optimizer.cpp:641-713 | the loops compute the penalty; for any limits what they add to the gradient is the slope, and it is the true gradient exactly where the slope is one, in particular everywhere when the limits in use are not negative; for limits that are not negative the cost is zero exactly when all velocities and accelerations are within them |
| SplineCosts.TermIsSquaredDistance | SCAN-Planner-ros2-community/src/planner/bspline_opt/src/bspline_optimizer.cpp:658-677 | for a non-negative limit one term is the weight times the squared distance from the limit, on either side, and zero within it |
| SplineCosts.CostZero | SCAN-Planner-ros2-community/src/planner/bspline_opt/src/bspline_optimizer.cpp:650-713 | for non-negative limits the feasibility cost is not negative, and zero exactly when every velocity and every acceleration of the control points is within its limit |
| Bspline.DeBoorWithin | SCAN-Planner-ros2-community/src/planner/bspline_opt/src/uniform_bspline.cpp:77-97 | every entry of the triangle lies, per axis, between the bounds of the p + 1 active control points |
| Bspline.EvaluateWithin | SCAN-Planner-ros2-community/src/planner/bspline_opt/src/uniform_bspline.cpp:60-97 | the value at every time, clipped or not, lies between the bounds of the p + 1 control points active on its span |
| Bspline.RowTelescopes | SCAN-Planner-ros2-community/src/planner/bspline_opt/src/uniform_bspline.cpp:83-94 | weighted with the basis of the remaining degree, consecutive rows of the triangle have telescoping sums |
| Bspline.DeBoorIsBasisSum | SCAN-Planner-ros2-community/src/planner/bspline_opt/src/uniform_bspline.cpp:60-97 | the triangle computes the sum of control points times Cox-de Boor basis functions, for any degree and strictly increasing knots |
| Bspline.AccelerationIsSecondDerivative | SCAN-Planner-ros2-community/src/planner/bspline_opt/src/uniform_bspline.cpp:158-180 | the acceleration formula of the feasibility check is the control point of the twice derived spline |
| Bspline.WithinEverywhere | SCAN-Planner-ros2-community/src/planner/bspline_opt/src/uniform_bspline.cpp:60-97 | a limit on all control points holds for the value at every time |
| Bspline.FeasibleEverywhere | SCAN-Planner-ros2-community/src/planner/bspline_opt/src/uniform_bspline.cpp:134-192 | a feasible spline has velocity and acceleration within the enlarged limits at every time |
| BsplineRate.RowMoves | SCAN-Planner-ros2-community/src/planner/bspline_opt/src/uniform_bspline.cpp:77-97 | on one span, entry i of row r moves at most r times as fast as neighbouring control points are apart |
| BsplineRate.ContinuousAtKnot | SCAN-Planner-ros2-community/src/planner/bspline_opt/src/uniform_bspline.cpp:60-97 | the triangles of neighbouring spans agree at the knot between them |
| BsplineRate.RateWithin | SCAN-Planner-ros2-community/src/planner/bspline_opt/src/uniform_bspline.cpp:99-123 | between any two times of the spline the change of the value is within the range of the derivative's control points times the time: the derivative spline is the rate of change |
| BsplineRate.FeasibleMovesWithin | SCAN-Planner-ros2-community/src/planner/bspline_opt/src/uniform_bspline.cpp:134-192 | between any two times a feasible spline moves no faster than the velocity limit and its velocity changes no faster than the acceleration limit |
| Bspline.UniformBspline.SetUniformBspline | SCAN-Planner-ros2-community/src/planner/bspline_opt/src/uniform_bspline.cpp:14-41 | the accumulated knots are (i - p) intervals, for any degree |
| Bspline.UniformBspline.EvaluateDeBoor | SCAN-Planner-ros2-community/src/planner/bspline_opt/src/uniform_bspline.cpp:60-97 | span search and in-place triangle stay in bounds and give the spline's value |
| Bspline.UniformBspline.Triangle | SCAN-Planner-ros2-community/src/planner/bspline_opt/src/uniform_bspline.cpp:77-97 | updating each row from its far end gives de Boor's last entry |
| Bspline.UniformBspline.GetDerivative | SCAN-Planner-ros2-community/src/planner/bspline_opt/src/uniform_bspline.cpp:99-123 | the result is a valid spline of its own: the derivative, on the inner knots |
| Bspline.UniformBspline.CheckFeasibility | SCAN-Planner-ros2-community/src/planner/bspline_opt/src/uniform_bspline.cpp:134-192 | true if and only if all control points of both derivatives are within the enlarged limits |
| VoxelAddress.LocalIndexIsResidue | SCAN-Planner-ros2-community/src/planner/plan_env/include/plan_env/grid_map.h:288-292 | the corrected truncating remainder is the residue, also for negative indices |
| VoxelAddress.AddressOfCell | SCAN-Planner-ros2-community/src/planner/plan_env/src/grid_map.cpp:251-267 | every cell of the window has an address in the buffer, from which the cell is recovered |
| VoxelAddress.CellOfAddress | SCAN-Planner-ros2-community/src/planner/plan_env/src/grid_map.cpp:251-267 | every address belongs to a cell of the window, whose address it is |
| VoxelAddress.AddressInjective | SCAN-Planner-ros2-community/src/planner/plan_env/include/plan_env/grid_map.h:278-300 | two cells of one window never share an address |
| InflationCount.ObstaclesIsCardinality | SCAN-Planner-ros2-community/src/planner/plan_env/src/grid_map.cpp:269-290 | counting offsets that lead back to an occupied cell is counting the occupied cells that reach a voxel |
| InflationCount.RaiseKeepsCounts | SCAN-Planner-ros2-community/src/planner/plan_env/src/grid_map.cpp:269-310 | raising the layer for a new obstacle keeps the upper bound, and exactness |
| InflationCount.LowerKeepsCounts | SCAN-Planner-ros2-community/src/planner/plan_env/src/grid_map.cpp:269-332 | lowering it for a removed one keeps both, the clamp at zero included |
| InflationCount.InflatedHasObstacle | SCAN-Planner-ros2-community/src/planner/plan_env/src/grid_map.cpp:269-290 | no voxel with a positive count lacks an obstacle |
| SlideWindow.AxisClearedIsLeaving | SCAN-Planner-ros2-community/src/planner/plan_env/src/grid_map.cpp:369-411 | the local indices cleared along an axis are exactly those of cells that leave, for shifts of either sign |
| SlideWindow.ClearedIsLeaving | SCAN-Planner-ros2-community/src/planner/plan_env/src/grid_map.cpp:369-411 | a cell's address is cleared exactly when the new window does not have the cell |
| SlideWindow.MaskByCell | SCAN-Planner-ros2-community/src/planner/plan_env/src/grid_map.cpp:355-411 | cells that enter the window take over cleared addresses |
| SlideWindow.BoundAfterSlide | SCAN-Planner-ros2-community/src/planner/plan_env/src/grid_map.cpp:413-431 | the upper bound on counts survives a slide |
| SlideWindow.ExactAfterSlide | SCAN-Planner-ros2-community/src/planner/plan_env/src/grid_map.cpp:413-431 | exact counts stay exact across a slide if and only if no surviving obstacle reaches an entering voxel |
| SlidingMap.GridMap.constructor | SCAN-Planner-ros2-community/src/planner/plan_env/src/grid_map.cpp:208-249 | the new map is valid and all unknown |
| SlidingMap.GridMap.UpdateInflation | SCAN-Planner-ros2-community/src/planner/plan_env/src/grid_map.cpp:269-296 | one update moves exactly the unmasked in-window voxels in reach, clamped at zero, and keeps flags and counts in step |
| SlidingMap.GridMap.ApplyOccupancyUpdate | SCAN-Planner-ros2-community/src/planner/plan_env/src/grid_map.cpp:298-310 | writing a log-odds value keeps the inflation bound and exactness; outside the window nothing changes |
| SlidingMap.GridMap.SetOccupancy | SCAN-Planner-ros2-community/src/planner/plan_env/include/plan_env/grid_map.h:340-361 | one voxel gets a clamp value, all others keep theirs, the map stays valid |
| SlidingMap.GridMap.ResetCell | SCAN-Planner-ros2-community/src/planner/plan_env/src/grid_map.cpp:312-324 | one voxel becomes unknown, all others keep their values, the map stays valid |
| SlidingMap.GridMap.BoundIndex | SCAN-Planner-ros2-community/src/planner/plan_env/include/plan_env/grid_map.h:302-308 | the result lies in the window, and an index that does is not changed |
| SlidingMap.GridMap.ResetRegion | SCAN-Planner-ros2-community/src/planner/plan_env/src/grid_map.cpp:440-457 | exactly the box between the bounded corners becomes unknown |
| SlidingMap.GridMap.ResetBuffer | SCAN-Planner-ros2-community/src/planner/plan_env/src/grid_map.cpp:433-438 | everything becomes unknown and the map is valid |
| SlidingMap.GridMap.MarkCleared | SCAN-Planner-ros2-community/src/planner/plan_env/src/grid_map.cpp:355-411 | the mask is that of the leaving cells and the list holds each masked address once |
| SlidingMap.GridMap.RetractCleared | SCAN-Planner-ros2-community/src/planner/plan_env/src/grid_map.cpp:413-414 | the counts of staying cells lose exactly the leaving obstacles |
| SlidingMap.GridMap.UpdateSlidingMap | SCAN-Planner-ros2-community/src/planner/plan_env/src/grid_map.cpp:334-431 | a refinement of an unbounded map: a voxel of the new window keeps its value if the old window had it and is unknown otherwise, for any shift; the map stays valid, and exact when no surviving obstacle reaches an entering voxel; the origin ends less than the threshold from the requested one, and does not move when it already is |
| SlidingMap.GridMap.SetCacheOccupancy | SCAN-Planner-ros2-community/src/planner/plan_env/src/grid_map.cpp:459-482 | one touch is counted, and a voxel is queued exactly on its first touch |
| SlidingMap.GridMap.TakeVote | SCAN-Planner-ros2-community/src/planner/plan_env/src/grid_map.cpp:681-686 | a voxel votes hit when its hits are at least its misses, and its counters start again |
| SlidingMap.GridMap.CastVote | SCAN-Planner-ros2-community/src/planner/plan_env/src/grid_map.cpp:684-714 | a hit raises a voxel of the local range by the hit log-odds up to the upper clamp and a miss lowers it by the miss log-odds down to the lower one, outside it a voxel starts again from the lower clamp unless a hit finds it at the upper one; all others stay, values stay clamped and counts bounded and exact |
| SlidingMap.GridMap.Drain | SCAN-Planner-ros2-community/src/planner/plan_env/src/grid_map.cpp:681-714 | the loop gives each touched voxel exactly one vote, of hits against misses, which moves it up or down by that rule, and ends with an empty queue and zero counters |
| SlidingMap.GridMap.RaycastProcess | SCAN-Planner-ros2-community/src/planner/plan_env/src/grid_map.cpp:552-714 | nothing without projected points; otherwise slide, touches and votes together, voxel by voxel, each touched voxel moved up by hits and down by misses, keeping the map valid |
| SlidingMap.GridMap.Do | SCAN-Planner-ros2-community/src/planner/plan_env/src/grid_map.cpp:298-457 | each operation on the buffer is the operation on an unbounded map seen through the window |
| SlidingMap.GridMap.Run | SCAN-Planner-ros2-community/src/planner/plan_env/src/grid_map.cpp:298-714 | after any sequence of updates, resets, slides and fusion passes the buffer shows the unbounded map, counts are bounded by the obstacles in reach, and they stay exact through every run in which no surviving obstacle reaches an entering voxel; a voxel for which n passes in a row vote the same way has moved by n log-odds, up to the clamp |
| SlidingMap.VoteFuses | SCAN-Planner-ros2-community/src/planner/plan_env/src/grid_map.cpp:684-714 | the vote is that rule, for every voxel value up to the upper clamp |
| SlidingMap.VotesAddUp | SCAN-Planner-ros2-community/src/planner/plan_env/src/grid_map.cpp:684-714 | over a run, n fusion passes in a row that hit a local voxel leave it at the lesser of the upper clamp and n hit log-odds more; dually for misses |
| SlidingMap.VotesDecide | SCAN-Planner-ros2-community/src/planner/plan_env/src/grid_map.cpp:684-714 | so after finitely many such passes a voxel that is hit is occupied and one that is missed is free |
| SlidingMap.SlideLosesCount | SCAN-Planner-ros2-community/src/planner/plan_env/src/grid_map.cpp:334-431 | a map whose counts are exact before a slide by one cell and not after it |
| SlidingMap.RebuildInflationOffsets | SCAN-Planner-ros2-community/src/planner/plan_env/src/grid_map.cpp:218-236 | the offsets are distinct and are exactly the cells of the cylinder |
| RayCaster.ModOneIsFraction | SCAN-Planner-ros2-community/src/planner/plan_env/src/raycast.cpp:10-12 | the double truncating remainder gives the fraction above the floor, for negative values too |
| RayCaster.IntBoundIsFirstCrossing | SCAN-Planner-ros2-community/src/planner/plan_env/src/raycast.cpp:14-23 | intbound gives the smallest positive t at which s + t ds is an integer, for either sign of ds |
| RayCaster.AxisTime | SCAN-Planner-ros2-community/src/planner/plan_env/src/raycast.cpp:228-321 | an axis with crossings left has its next one by time 1, a finished axis only after time 1 or never |
| RayCaster.ChosenHasCrossings | SCAN-Planner-ros2-community/src/planner/plan_env/src/raycast.cpp:277-321 | the axis a step picks still has crossings and a finite time, so no axis overshoots |
| RayCaster.MoveFacts | SCAN-Planner-ros2-community/src/planner/plan_env/src/raycast.cpp:277-321 | a step crosses one face and brings the end cell one cell closer |
| RayCaster.ChosenIsLeast | SCAN-Planner-ros2-community/src/planner/plan_env/src/raycast.cpp:293-319 | the axis a step picks has the least next crossing of the three, by time 1 |
| RayCaster.AdvanceAlong | SCAN-Planner-ros2-community/src/planner/plan_env/src/raycast.cpp:293-319 | on one axis tMax is when the line reaches the next face, and crossing it leads into the next column |
| RayCaster.MoveOnLine | SCAN-Planner-ros2-community/src/planner/plan_env/src/raycast.cpp:293-319 | each move follows the line from the start, in the direction of the difference of the end cells, to its next crossing |
| RayCaster.MeetsTouches | SCAN-Planner-ros2-community/src/planner/plan_env/src/raycast.cpp:14-23 | where no axis leads down from an integer coordinate, the cells that the walk meets are touched by the line |
| RayCaster.MissesCell | SCAN-Planner-ros2-community/src/planner/plan_env/src/raycast.cpp:14-23 | a ray down from an integer coordinate whose second reported cell the line does not touch |
| RayCaster.RayCaster.SetInput | SCAN-Planner-ros2-community/src/planner/plan_env/src/raycast.cpp:228-275 | the caster starts in the start cell, on the line at time 0, aims at the end cell, and reports whether they differ |
| RayCaster.RayCaster.Step | SCAN-Planner-ros2-community/src/planner/plan_env/src/raycast.cpp:277-321 | a step reports the cell it was in, and moves exactly when that is not the end cell |
| RayCaster.DirectPathStaysInHull | SCAN-Planner-ros2-community/src/planner/plan_env/src/raycast.cpp:277-321 | cells of a walk that gets closer with every face stay in the box of its ends |
| RayCaster.Traverse | SCAN-Planner-ros2-community/src/planner/plan_env/src/grid_map.cpp:632-652 | from any start to any end exactly the L1 distance of cells is reported before the end cell, all inside the box of the two, and each of them meets the line, one column behind on axes that lead down from an integer |
| AStar.RoundTrip | SCAN-Planner-ros2-community/src/planner/path_searching/include/path_searching/dyn_a_star.h:103-112 | index to coordinate and back is the identity from the centre index on and one too high below it |
| AStar.BelowCentre | SCAN-Planner-ros2-community/src/planner/path_searching/include/path_searching/dyn_a_star.h:108-112 | a point gets an index below the centre exactly when it is one and a half steps or more below it |
| AStar.PlaneAtEnd | SCAN-Planner-ros2-community/src/planner/path_searching/src/dyn_a_star.cpp:169-180 | over the end column the search plane meets the end cell exactly when that is not below the centre |
| AStar.PlaneAtStart | SCAN-Planner-ros2-community/src/planner/path_searching/src/dyn_a_star.cpp:169-180 | over the start column it meets the start cell exactly when that is not below the centre |
| AStar.PlaneBetween | SCAN-Planner-ros2-community/src/planner/path_searching/src/dyn_a_star.cpp:169-180 | over every column of the grid the plane lies between its ends |
| AStar.EndNotBelowCentre | SCAN-Planner-ros2-community/src/planner/path_searching/src/dyn_a_star.cpp:169-236 | a path between different cells ends at or above the centre index, or the ends are too close in the plane for it to matter |
| AStar.ScoresAddUp | SCAN-Planner-ros2-community/src/planner/path_searching/src/dyn_a_star.cpp:261-279 | scores that grow by edge costs add up to the cost of the path |
| AStar.AStar.SearchKept | SCAN-Planner-ros2-community/src/planner/path_searching/src/dyn_a_star.cpp:243-279 | writing to a node that is not closed this round, stale or waiting, keeps the search invariant |
| AStar.AStar.Relax | SCAN-Planner-ros2-community/src/planner/path_searching/src/dyn_a_star.cpp:261-279 | a free neighbour is queued with its score and parent on first meeting, improved in place when cheaper, left alone otherwise; the search invariant is kept |
| AStar.AStar.Visit | SCAN-Planner-ros2-community/src/planner/path_searching/src/dyn_a_star.cpp:230-279 | the whole effect of a visit on nodes and heap, by stamp, state and occupancy test, blocked and closed neighbours included; the search invariant is kept |
| AStar.AStar.Meet | SCAN-Planner-ros2-community/src/planner/path_searching/src/dyn_a_star.cpp:238-253 | a neighbour gets its index and, unless closed, the stamp of the round, and nothing else changes |
| AStar.AStar.CoverStep | SCAN-Planner-ros2-community/src/planner/path_searching/src/dyn_a_star.cpp:227-280 | after each probe every probed cell is stamped, and every stamped cell waits, was popped, or was found blocked |
| AStar.AStar.Expand | SCAN-Planner-ros2-community/src/planner/path_searching/src/dyn_a_star.cpp:225-280 | the popped node is closed and all eight headings are probed |
| AStar.AStar.PopAny | SCAN-Planner-ros2-community/src/planner/path_searching/src/dyn_a_star.cpp:207-211 | whatever node the heap yields was not popped before in this round, and the others keep waiting |
| AStar.AStar.RetrievePath | SCAN-Planner-ros2-community/src/planner/path_searching/src/dyn_a_star.cpp:80-92 | following parents ends, at the start node, over distinct nodes joined by tested moves |
| AStar.AStar.ChainIsPath | SCAN-Planner-ros2-community/src/planner/path_searching/src/dyn_a_star.cpp:80-92 | such a chain read backwards is a simple path whose cost is the score of its first node |
| AStar.AStar.AstarSearch | SCAN-Planner-ros2-community/src/planner/path_searching/src/dyn_a_star.cpp:146-298 | no node is popped twice in a round; a success gives a simple path from start to end of 8-neighbour moves on the plane, each tested free for its own heading, whose cost is the end's score, and an end not below the centre; a failure without time-out has expanded or found blocked every interior neighbour of an expanded cell |
| AStar.PathStaysExpanded | SCAN-Planner-ros2-community/src/planner/path_searching/src/dyn_a_star.cpp:204-298 | where occupancy does not depend on the heading, a search that ran dry expanded every cell of every path from the start |
| AStar.NoPathMissed | SCAN-Planner-ros2-community/src/planner/path_searching/src/dyn_a_star.cpp:204-298 | so no path to the end exists when it fails without time-out |
| AStar.AStar.GetPath | SCAN-Planner-ros2-community/src/planner/path_searching/src/dyn_a_star.cpp:300-309 | the coordinates of that path from start to end |
| PointFilter.Clamped | RSLIDAR_SDK_ROS2/src/source/rslidar_point_filter.hpp:111-116 | after clamping, the search radius is positive and the other bounds are not negative |
| PointFilter.IsAngleMasked | RSLIDAR_SDK_ROS2/src/source/rslidar_point_filter.hpp:453-470 | true exactly when some range, wrapping through zero or not, holds the azimuth |
| PointFilter.PickKeepsOrder | RSLIDAR_SDK_ROS2/src/source/rslidar_point_filter.hpp:285-297 | selecting by flags keeps exactly the flagged positions in increasing order |
| PointFilter.PickSplits | RSLIDAR_SDK_ROS2/src/source/rslidar_point_filter.hpp:285-297 | two complementary selections partition the selected elements as multisets |
| PointFilter.CloseIsAdjacent | RSLIDAR_SDK_ROS2/src/source/rslidar_point_filter.hpp:431-487 | points within the search radius lie in the same or adjacent cells |
| PointFilter.AllCells | RSLIDAR_SDK_ROS2/src/source/rslidar_point_filter.hpp:248-262 | the 27 cells hold exactly the brute-force neighbours and the point itself |
| PointFilter.BuildGrid | RSLIDAR_SDK_ROS2/src/source/rslidar_point_filter.hpp:223-228 | the grid lists every stage-1 point once, under its own cell |
| PointFilter.ScanBucket | RSLIDAR_SDK_ROS2/src/source/rslidar_point_filter.hpp:258-274 | a bucket scan counts its close points, or stops with enough of them |
| PointFilter.HasEnough | RSLIDAR_SDK_ROS2/src/source/rslidar_point_filter.hpp:248-277 | the early-exit search over 27 cells finds enough exactly when brute force over all points does |
| PointFilter.SplitStage1 | RSLIDAR_SDK_ROS2/src/source/rslidar_point_filter.hpp:191-217 | the first pass separates accepted from rejected finite points, both in input order |
| PointFilter.MaskIsArc | RSLIDAR_SDK_ROS2/src/source/rslidar_point_filter.hpp:453-470 | a mask holds exactly the directions on the turn from its first bound up to its second, across zero or not |
| PointFilter.AcceptedMeans | RSLIDAR_SDK_ROS2/src/source/rslidar_point_filter.hpp:191-217 | the first pass lets through exactly the points that are at least min_range away, bright or at least apply_range away, outside the box around the sensor on some axis, and off the turn of every mask |
| PointFilter.RadiusPass | RSLIDAR_SDK_ROS2/src/source/rslidar_point_filter.hpp:220-283 | in any order of the parallel loop a point is kept exactly when it is out of range or has min_neighbors others within the radius |
| PointFilter.Apply | RSLIDAR_SDK_ROS2/src/source/rslidar_point_filter.hpp:163-318 | output is the surviving stage-1 points in input order, output and removed partition the finite input, a disabled filter copies |
| PointFilter.RemovedCountsAgree | RSLIDAR_SDK_ROS2/src/source/rslidar_point_filter.hpp:308-313 | the two ways of counting removed points agree exactly when every input point is finite |
| SyncQueueSteps.FullTest | RSLIDAR_SDK_ROS2/src/rs_driver/src/rs_driver/utility/sync_queue.hpp:52-58 | the index comparison of push tests for Capacity - 1 held items |
| SyncQueueSteps.StretchIsCount | RSLIDAR_SDK_ROS2/src/rs_driver/src/rs_driver/utility/sync_queue.hpp:137-148 | the wrapped difference of the indices is the number of items between them |
| SyncQueueSteps.RunKeepsInv | RSLIDAR_SDK_ROS2/src/rs_driver/src/rs_driver/utility/sync_queue.hpp:50-162 | every interleaving of producer and consumer steps keeps the invariant of the ring |
| SyncQueueSteps.DeliveredThenHeldIsAccepted | RSLIDAR_SDK_ROS2/src/rs_driver/src/rs_driver/utility/sync_queue.hpp:50-162 | in every interleaving delivered items followed by the queue's contents are the accepted pushes in order |
| SyncQueueSteps.NoSlotReadWhileWritten | RSLIDAR_SDK_ROS2/src/rs_driver/src/rs_driver/utility/sync_queue.hpp:60-78 | in every interleaving the slot being written is not the one being read |
| SyncQueueSteps.RefusedExactlyWhenFull | RSLIDAR_SDK_ROS2/src/rs_driver/src/rs_driver/utility/sync_queue.hpp:52-58 | a push is refused exactly when Capacity - 1 items were held by the head it loaded |
| SyncQueueSteps.BatchTakesNextItems | RSLIDAR_SDK_ROS2/src/rs_driver/src/rs_driver/utility/sync_queue.hpp:137-149 | a batch fixes min(max, available) as its number of items |
| SyncQueueSteps.BatchDelivers | RSLIDAR_SDK_ROS2/src/rs_driver/src/rs_driver/utility/sync_queue.hpp:154-161 | when it publishes, exactly the items of its size have been delivered, the next ones in push order |
| SyncQueueSteps.BatchDeliversNextItems | RSLIDAR_SDK_ROS2/src/rs_driver/src/rs_driver/utility/sync_queue.hpp:121-162 | the batch as a whole, in every interleaving: what it publishes are exactly the min(max, available) items after those delivered when it loaded the tail |
| SyncQueueSteps.SizeIsBetween | RSLIDAR_SDK_ROS2/src/rs_driver/src/rs_driver/utility/sync_queue.hpp:115-120 | the size a push returns lies between what is held then and Capacity - 1 |
| SyncQueueCalls.SyncQueue.Push | RSLIDAR_SDK_ROS2/src/rs_driver/src/rs_driver/utility/sync_queue.hpp:50-64 | refused exactly when Capacity - 1 items are held, otherwise appended, with the new size |
| SyncQueueCalls.SyncQueue.Pop | RSLIDAR_SDK_ROS2/src/rs_driver/src/rs_driver/utility/sync_queue.hpp:66-81 | the oldest item, or nothing exactly when the queue is empty |
| SyncQueueCalls.SyncQueue.PopBatch | RSLIDAR_SDK_ROS2/src/rs_driver/src/rs_driver/utility/sync_queue.hpp:121-162 | min(max, size) oldest items at once, the rest stays |
| Gateway.Round4Close | SCAN-Planner-ros2-community/src/planner/plan_manage/scripts/limx_websocket_cmd_bridge.py:621-641 | rounding to four digits moves a value by at most 0.00005 and keeps zero |
| Gateway.ClampMeans | SCAN-Planner-ros2-community/src/planner/plan_manage/scripts/limx_websocket_cmd_bridge.py:315-341 | a limit keeps a value within it, and otherwise takes the nearest end, on the same side of zero |
| Gateway.BoundedByAxis | SCAN-Planner-ros2-community/src/planner/plan_manage/scripts/limx_websocket_cmd_bridge.py:315-341 | each axis of a Twist is limited by its own parameter |
| Gateway.RunKeepsInv | SCAN-Planner-ros2-community/src/planner/plan_manage/scripts/limx_websocket_cmd_bridge.py:260-808 | in every interleaving pause, command in force, walk mode and the zero sequence owed are what the history says and every non-zero write is backed by a snapshot |
| Gateway.EveryMoveIsBacked | SCAN-Planner-ros2-community/src/planner/plan_manage/scripts/limx_websocket_cmd_bridge.py:343-364 | every non-zero write comes from its own snapshot, the last before it, that was unpaused, with a clamped Twist at most command_timeout old, stored after the last reset before the snapshot; what is sent is that Twist rounded, within limit + 0.00005 |
| Gateway.AtMostOneMoveAfterPause | SCAN-Planner-ros2-community/src/planner/plan_manage/scripts/limx_websocket_cmd_bridge.py:649-690 | of two non-zero writes after a pause the later one follows a resume message |
| Gateway.OnlyTheWriteInFlight | SCAN-Planner-ros2-community/src/planner/plan_manage/scripts/limx_websocket_cmd_bridge.py:665-672 | the one write that may follow a pause had taken its snapshot before the pause |
| Gateway.NothingBeforeFirstResume | SCAN-Planner-ros2-community/src/planner/plan_manage/scripts/limx_websocket_cmd_bridge.py:130-132 | a gateway that starts paused moves nothing before the first resume message |
| Gateway.RunKeepsWalk | SCAN-Planner-ros2-community/src/planner/plan_manage/scripts/limx_websocket_cmd_bridge.py:643-731 | in every interleaving: after a zero sequence, an idle cycle or a failed command the control thread decides walk mode anew before it sends, a closed connection is still being worked off or walk mode has been decided since, and every velocity passed the check while walk mode was on |
| Gateway.EveryEntry | SCAN-Planner-ros2-community/src/planner/plan_manage/scripts/limx_websocket_cmd_bridge.py:706-731 | walk mode is entered only after the robot accepted the request and then exactly zero_repeat_count messages of zero velocity went out, none failed, with no velocity among them |
| Gateway.EveryMoveWalks | SCAN-Planner-ros2-community/src/planner/plan_manage/scripts/limx_websocket_cmd_bridge.py:663-731 | before every non-zero write walk mode had been entered that way, nothing ended it up to the one check in flight, and a connection lost after the entry was lost so late that its loss came through only after the check |
| Gateway.MoveNeedsNewEntry | SCAN-Planner-ros2-community/src/planner/plan_manage/scripts/limx_websocket_cmd_bridge.py:663-690 | once a loss, a reset, an idle cycle, a zero message or a failed command is followed by a snapshot, the next non-zero write needs a new entry |
| Gateway.MoveNeedsResume | SCAN-Planner-ros2-community/src/planner/plan_manage/scripts/limx_websocket_cmd_bridge.py:643-797 | after a refused mode, a Twist too old, a message that was not sent or that failed, the next non-zero write follows a resume message |
| Gateway.LossStopsRobot | SCAN-Planner-ros2-community/src/planner/plan_manage/scripts/limx_websocket_cmd_bridge.py:489-509 | up to the shutdown, a closed connection has set the pause before a connection is chosen for a later non-zero write |
| Gateway.IdleCycleStops | SCAN-Planner-ros2-community/src/planner/plan_manage/scripts/limx_websocket_cmd_bridge.py:675-690 | a cycle with nothing to send, after something asked for a stop and before a zero sequence is complete, sends exactly zero_repeat_count messages of zero velocity, or something fails |
| Gateway.RunKeepsSamples | SCAN-Planner-ros2-community/src/planner/plan_manage/scripts/limx_websocket_cmd_bridge.py:276-337 | in every interleaving a stored Twist is the one its callback began with, and nothing was stored while the callback held it |
| Gateway.EveryMoveHasWay | SCAN-Planner-ros2-community/src/planner/plan_manage/scripts/limx_websocket_cmd_bridge.py:276-364 | every non-zero write goes back to one callback: when it began, where it stored the Twist, which snapshot took it, and the ages in between |
| Gateway.RunKeepsLink | SCAN-Planner-ros2-community/src/planner/plan_manage/scripts/limx_websocket_cmd_bridge.py:391-506 | in every interleaving each connection opens once, a callback begins on the connection that is live by the history, and a velocity goes out on the one that is live when it is chosen |
| Gateway.EveryMoveHasRoute | SCAN-Planner-ros2-community/src/planner/plan_manage/scripts/limx_websocket_cmd_bridge.py:391-395 | every non-zero write goes out on a connection that was chosen after the snapshot, opened before that exactly once and stayed live up to the choice |
| Gateway.FreshUnlessOpenedInWindow | SCAN-Planner-ros2-community/src/planner/plan_manage/scripts/limx_websocket_cmd_bridge.py:391-406 | over reachable states a written Twist arrived on the connection it is written to if and only if that connection did not open while the callback held the Twist, had no reset outstanding at a snapshot of a Twist stored before it opened, and did not open between the snapshot and the choice of the connection |
| Gateway.OneWriteInFlight | SCAN-Planner-ros2-community/src/planner/plan_manage/scripts/limx_websocket_cmd_bridge.py:665-690 | any moment lies between the snapshot and the write of at most one non-zero write |
| Gateway.OneTwistHeld | SCAN-Planner-ros2-community/src/planner/plan_manage/scripts/limx_websocket_cmd_bridge.py:276-337 | any moment is followed by at most one stored Twist whose callback began before it |
| Gateway.StaleWritesPerConnection | SCAN-Planner-ros2-community/src/planner/plan_manage/scripts/limx_websocket_cmd_bridge.py:391-406 | of the writes on one connection that break the promise, all but the first were snapshotted before its reset or carry the one Twist held while it opened |
| Gateway.OldCommandOnNewConnection | SCAN-Planner-ros2-community/src/planner/plan_manage/scripts/limx_websocket_cmd_bridge.py:391-406 | a run in which a connection opens and resets between snapshot and write, and the old command goes out on it |
| Gateway.OldCommandBeforeReset | SCAN-Planner-ros2-community/src/planner/plan_manage/scripts/limx_websocket_cmd_bridge.py:391-396 | the same before the new connection has reset |
| Gateway.OldSnapshotBeforeReset | SCAN-Planner-ros2-community/src/planner/plan_manage/scripts/limx_websocket_cmd_bridge.py:391-402 | a run in which, after a resume, a snapshot between the two regions of on_open takes the old Twist, which is written on the new connection |
| Gateway.OldRequestOnNewConnection | SCAN-Planner-ros2-community/src/planner/plan_manage/scripts/limx_websocket_cmd_bridge.py:711-731 | in that run walk mode is entered, on a new connection, by a request that was accepted on the one before |
| Gateway.OldSampleOnNewConnection | SCAN-Planner-ros2-community/src/planner/plan_manage/scripts/limx_websocket_cmd_bridge.py:276-337 | a run in which a connection opens while the callback waits, and the old Twist is stored and written on it |
| Gateway.VelocityGateway.PauseCallback | SCAN-Planner-ros2-community/src/planner/plan_manage/scripts/limx_websocket_cmd_bridge.py:260-274 | after a pause nothing is handed out at any clock; a resume brings back exactly the stored Twist; the fields stay what the history says |
| Gateway.VelocityGateway.CmdCallback | SCAN-Planner-ros2-community/src/planner/plan_manage/scripts/limx_websocket_cmd_bridge.py:276-337 | a finite Twist is stored within the limits and handed out while recent if output is not paused; one that is not finite leaves no command and nothing to hand out until a resume and a new Twist |
| Gateway.VelocityGateway.DesiredCommand | SCAN-Planner-ros2-community/src/planner/plan_manage/scripts/limx_websocket_cmd_bridge.py:343-364 | a non-zero command is handed out if and only if a snapshot of this moment allows it by the history: unpaused, in force, recent, within the limits; zero is handed out only while the robot walks and the Twists have not been zero for zero_hold |
| Gateway.VelocityGateway.StoreTwist | SCAN-Planner-ros2-community/src/planner/plan_manage/scripts/limx_websocket_cmd_bridge.py:328-337 | storing a Twist never changes the pause, and it is handed out at every clock up to command_timeout later exactly as stored |
| Gateway.VelocityGateway.ResetOnOpen | SCAN-Planner-ros2-community/src/planner/plan_manage/scripts/limx_websocket_cmd_bridge.py:397-402 | a new connection leaves nothing to hand out and does not change the pause |
| Gateway.VelocityGateway.LatchPause | SCAN-Planner-ros2-community/src/planner/plan_manage/scripts/limx_websocket_cmd_bridge.py:788-794 | after the safety latch nothing is handed out at any clock until a resume |
| Gateway.VelocityGateway.EnterWalkMode | SCAN-Planner-ros2-community/src/planner/plan_manage/scripts/limx_websocket_cmd_bridge.py:727-731 | walk mode is on by the history afterwards, and nothing else has changed |
| Gateway.VelocityGateway.Run | SCAN-Planner-ros2-community/src/planner/plan_manage/scripts/limx_websocket_cmd_bridge.py:260-364 | whatever regions the threads run in whatever order, pause, command, walk mode and the zero sequence owed are what the history of those regions says |
| ReplanFsm.PlanningFacts | SCAN-Planner-ros2-community/src/planner/plan_manage/src/scan_replan_fsm.cpp:1160-1223 | replanning publishes exactly one plan when it succeeds, none when it fails, and leaves mode and flags alone |
| ReplanFsm.StepKeepsArmed | SCAN-Planner-ros2-community/src/planner/plan_manage/src/scan_replan_fsm.cpp:891-1158 | every callback keeps: replanning or executing implies flag_escape_emergency_ |
| ReplanFsm.RunKeepsArmed | SCAN-Planner-ros2-community/src/planner/plan_manage/src/scan_replan_fsm.cpp:891-1297 | so it holds in every run |
| ReplanFsm.EntryIsReady | SCAN-Planner-ros2-community/src/planner/plan_manage/src/scan_replan_fsm.cpp:1146-1297 | every way into EMERGENCY_STOP, a repeated entry included, arms the stop |
| ReplanFsm.ReadyUntilTick | SCAN-Planner-ros2-community/src/planner/plan_manage/src/scan_replan_fsm.cpp:495-783 | no callback other than the execution tick disarms it |
| ReplanFsm.EveryEmergencyStops | SCAN-Planner-ros2-community/src/planner/plan_manage/src/scan_replan_fsm.cpp:1113-1137 | in every run an emergency still there at the next tick publishes a stop in that tick |
| ReplanFsm.EmergencyTickStops | SCAN-Planner-ros2-community/src/planner/plan_manage/src/scan_replan_fsm.cpp:1113-1158 | the emergency state is left only after that, with the fail-safe on and the robot slow |
| ReplanFsm.IdleStep | SCAN-Planner-ros2-community/src/planner/plan_manage/src/scan_replan_fsm.cpp:188-244 | an idle machine stays idle and publishes no plan, unless exactly one of the goal-accepting callbacks succeeds |
| ReplanFsm.OnlyStopsAfterCancel | SCAN-Planner-ros2-community/src/planner/plan_manage/src/scan_replan_fsm.cpp:761-783 | after a cancel or preemption in any state, as long as no callback takes up a goal, the machine waits without a target and every published trajectory is a stop |
| ReplanFsm.OnlyPlanningPlans | SCAN-Planner-ros2-community/src/planner/plan_manage/src/scan_replan_fsm.cpp:891-1297 | a planned trajectory goes out only while planning, or from the safety callback while executing |
| ReplanFsm.TickArrivesAndPlans | SCAN-Planner-ros2-community/src/planner/plan_manage/src/scan_replan_fsm.cpp:891-1144 | for every state and tick: when it reports an arrival, passes a waypoint, plans anew, executes, or gives up |
| ReplanFsm.ReportsArrivals | SCAN-Planner-ros2-community/src/planner/plan_manage/src/scan_replan_fsm.cpp:495-1144 | any callback in any state publishes GOAL_REACHED exactly when it finds the robot at the goal |
| ReplanFsm.EveryReachedIsArrival | SCAN-Planner-ros2-community/src/planner/plan_manage/src/scan_replan_fsm.cpp:495-1144 | in every run each GOAL_REACHED was published by a callback that found the robot at the goal |
| ReplanFsm.GoalInEmergency | SCAN-Planner-ros2-community/src/planner/plan_manage/src/scan_replan_fsm.cpp:1113-1137 | from the emergency state with a manual goal, for every continuation without a new target, cancel or preemption: the goal is lost without a status if and only if the stop is a hover stop and some tick after the stop went out is slow with the fail-safe on; left otherwise, planning for the goal begins |
| ReplanFsm.HoverDropsAcceptedGoal | SCAN-Planner-ros2-community/src/planner/plan_manage/src/scan_replan_fsm.cpp:1113-1137 | the same for a manual goal accepted in the emergency state of any run: reported as running, and dropped without a status exactly then |
| ReplanFsm.GoalLostInHover | SCAN-Planner-ros2-community/src/planner/plan_manage/src/scan_replan_fsm.cpp:205-238 | a run in which an accepted goal is reported as running and gone two ticks later, with only a stop published |
| ReplanFsm.ScanReplanFsm.ExecFsmCallback | SCAN-Planner-ros2-community/src/planner/plan_manage/src/scan_replan_fsm.cpp:891-1144 | GOAL_REACHED is published exactly on arrival, at the goal with no waypoint left, and exactly then an executing machine drops the target and waits; a waypoint is passed exactly when due; planning succeeds, fails and gives up by the failures in a row; an armed emergency publishes its stop and lasts, it ends only after that with the fail-safe on and the robot slow, whatever enters it arms the stop, execution starts only with a new plan, only planning publishes plans, an idle machine stays as it is |
| ReplanFsm.ScanReplanFsm.CheckCollisionCallback | SCAN-Planner-ros2-community/src/planner/plan_manage/src/scan_replan_fsm.cpp:1251-1297 | a collision ahead is answered by one new plan while execution goes on, or else by leaving execution with the stop armed and nothing published; without one nothing changes |
| ReplanFsm.ScanReplanFsm.PlanFromCurrentTraj | SCAN-Planner-ros2-community/src/planner/plan_manage/src/scan_replan_fsm.cpp:1160-1223 | one plan is published exactly when it succeeds, and a trajectory exists afterwards exactly when there was one or it succeeds |
| ReplanFsm.ScanReplanFsm.StopCurrentNavigation | SCAN-Planner-ros2-community/src/planner/plan_manage/src/scan_replan_fsm.cpp:761-783 | the machine is idle with nothing pending, and exactly a stop, given odometry, and the status asked for were published |
| ReplanFsm.ScanReplanFsm.WaypointCallback | SCAN-Planner-ros2-community/src/planner/plan_manage/src/scan_replan_fsm.cpp:188-244 | a manual goal publishes no trajectory, neither enters nor leaves an emergency, and is reported as running exactly when it becomes the target; planning starts anew from a standstill and from the trajectory under way while executing |
| ReplanFsm.ScanReplanFsm.PathCallback | SCAN-Planner-ros2-community/src/planner/plan_manage/src/scan_replan_fsm.cpp:495-700 | a path publishes no plan, and is reported as running exactly when it is the new target, the stop is armed and planning begins; planning starts anew from a standstill and otherwise from what is under way |
| ReplanFsm.ScanReplanFsm.OdometryCallback | SCAN-Planner-ros2-community/src/planner/plan_manage/src/scan_replan_fsm.cpp:702-744 | odometry publishes no plan; the first takes a cached path, the preset route is started once, later ones only sense; an idle machine gets a target exactly when one is accepted |
| ReplanFsm.ScanReplanFsm.DoAll | SCAN-Planner-ros2-community/src/planner/plan_manage/src/scan_replan_fsm.cpp:188-1297 | any sequence of callbacks keeps the stop armed; an idle machine that takes up no goal stays idle and publishes only stops; an emergency not yet ticked is still to publish its stop |
| FileTransaction.Names | select_navigation_map.py:312-324 | temporary and backup names carry the transaction's mark and never collide |
| FileTransaction.StageStep | select_navigation_map.py:309-319 | staging one copy touches nothing but its temporary file |
| FileTransaction.BackupStep | select_navigation_map.py:321-329 | moving one destination aside keeps its content under the backup name |
| FileTransaction.InstallStep | select_navigation_map.py:331-332 | installing one copy puts its source's content at the destination |
| FileTransaction.RollbackResult | select_navigation_map.py:335-349 | rollback and cleanup leave the initial files but for the lost destinations and a leaked temporary file |
| FileTransaction.SuccessResult | select_navigation_map.py:333-349 | after a success every destination holds its source's content, removals are gone, nothing temporary is left and nothing else changed |
| FileTransaction.RollbackExactIff | select_navigation_map.py:335-349 | an Exception leaves the files as they were exactly when no present destination was staged without being moved aside and no half-made copy was left |
| FileTransaction.InterruptExactIff | select_navigation_map.py:335-349 | an interrupt leaves the files as they were exactly when nothing stays under a marked name, each installed file is what its destination held, and no other destination moved aside was there |
| FileTransaction.FileStore.Stage | select_navigation_map.py:309-319 | which copies get staged, where staging stops, and what a failing copy leaves |
| FileTransaction.FileStore.MoveAside | select_navigation_map.py:321-329 | which destinations are moved and recorded, an interrupt between the two included |
| FileTransaction.FileStore.Install | select_navigation_map.py:331-332 | which copies are in place when it stops |
| FileTransaction.FileStore.Restore | select_navigation_map.py:339-341 | every recorded backup returns to its destination |
| FileTransaction.FileStore.RollBack | select_navigation_map.py:335-349 | the except and finally branches together |
| FileTransaction.FileStore.CleanUp | select_navigation_map.py:343-349 | the finally branch alone, which is what an interrupt is followed by |
| FileTransaction.FileStore.ReplaceFileSet | select_navigation_map.py:299-349 | success replaces everything; an Exception in install or validation restores exactly; an earlier one loses exactly the destinations staged, present and not moved aside; an interrupt undoes nothing and deletes the recorded backups; each with the exact condition for the files to be as before, and the outcome for every failure |
| FileTransaction.LosesFirstDestination | select_navigation_map.py:308-342 | a missing second source costs the first destination |
| FileTransaction.LosesFileOnInterrupt | select_navigation_map.py:331-349 | an interrupt between two installs leaves the second destination with neither file |

## Left out

- Floating-point rounding, NaN propagation, fixed-width overflow (`short` hit counters, the wrapping ray stamp, the cast of a filter cell to int): reals and unbounded integers stand for them.
- ROS plumbing, logging, visualisation, JSON and YAML, SHA-256, map pairing metadata, message headers, simulators and the duplicated deployment files.
- The cubic and quadratic minimizers, QR solves, minimum-snap matrices and closed forms of square roots; a root appears as a function the results do not depend on.
- Lbfgs.Optimize: for a pure objective; with max_iterations 0 it describes every run prefix through a bound on the passes examined; the inverse norm is any function positive on positive numbers, and norm tests are squared.
- LineSearch.Search: the progress callback, if there is one, is a free decision to cancel at each evaluation.
- LineSearch.UpdateTrialInterval: the interpolated trial value is arbitrary, so nothing is said about how good it is.
- TrajectoryOptimizer.BsplineOptimizer.CombineCost: the combined cost is any function of the control points; its weights, and the distance and fitness terms, are not modelled.
- TrajectoryOptimizer.BsplineOptimizer.Rebound: base points added between or during solver runs appear only as a change of cost from one run to the next, and the number of restarts is free.
- Bspline.UniformBspline.CheckFeasibility: does not compute the time ratio, and is stated for degree two and more, below which the acceleration formula has no knots to divide by.
- Parameterisation of a B-spline from points, lengthening of time, lengths and jerk integrals.
- SlidingMap.GridMap.UpdateSlidingMap: takes the origin cell; converting positions to cells, map bounds in metres and the local bounds for display are not modelled.
- SlidingMap.GridMap.RaycastProcess: takes the touches of each projected point as given; which rays are cut short by the per-pass stamps is not modelled, so it holds for every list.
- Raising the map from depth images and clouds, ground height, and inflation queries by yaw.
- RayCaster.Traverse: the line is the one the code follows, in the direction of the difference of the end cells; nothing is said about the segment between the two points. RayCaster.MeetsTouches gives a condition under which the line touches every cell, not the only one.
- AStar.AStar.AstarSearch: takes the two end cells; moving ends out of obstacles, the time limit (a free choice to give up), and the heuristic's formula are not modelled. Optimality is not claimed, because keys change inside the heap. Where occupancy depends on the heading it may miss a path, because a node blocked for one heading is not queued later in the round; AStar.NoPathMissed is about the other case.
- PointFilter.Apply: the azimuth is a function of the point; reading the configuration and timing are not modelled.
- SyncQueueSteps.RunKeepsInv: assumes one producer and one consumer; an acquire load may return any value since the last one seen. `clear`, which resets both indices from one side, and queues with several producers are outside it.
- SyncQueueCalls.SyncQueue.PopBatch: the waiting and its time limit are not modelled in the sequential form.
- Gateway.RunKeepsInv: retry and repeat intervals, response matching and the contents of messages are free decisions; the events that wake or end waiting are not modelled, and the last zero sequence of the shutdown is any number of zero writes.
- Gateway.FreshUnlessOpenedInWindow: a Twist arrives when its callback begins; one that was sent earlier and waited in the subscription queue (depth 20, `limx_websocket_cmd_bridge.py:165-167`) counts from there, so it can be older than the connection.
- ReplanFsm.ScanReplanFsm.ExecFsmCallback: geometric conditions, retry times and planner results are oracles; trajectories and the time freeze are not modelled beyond whether one exists.
- ReplanFsm.ScanReplanFsm.PathCallback: the selection of waypoints from the path is not modelled, only whether it is usable.
- FileTransaction.FileStore.ReplaceFileSet: failures and interrupts inside the rollback or the cleanup, file modes and times, and paths that differ in spelling only are not modelled; the transaction's mark is assumed to be on no path in sight.
