# Trapezoidal trajectories and the pose tree, in Dafny

This project models two parts of `py-markov-localization` (the `robots` package) and proves
properties of them.

**Planning with trapezoidal velocity profiles** (`robots/planning/trajectories/trapezoidal.py`):

- `TrapezoidalTrajectory` plans a coordinated multi-axis motion through N waypoints.
  - Each segment accelerates at `ddq_max`, coasts, then decelerates. The timing comes from
    the axis with the largest displacement; the other axes fit into the same duration.
  - Waypoint velocities are either given or chosen by a heuristic: zero at both ends, and
    `dq_max` in the common direction where the neighbouring segments agree.
  - `__call__` clips the query time, picks the segment with `digitize`, and sums the three
    masked phase formulas.
- `ApproximateTrapezoidalTrajectory` builds a linear-parabolic-blend trajectory.
  - It pads the waypoints with repeated end points, so the motion starts and ends at rest.
  - Segment durations are given or derived from `dq_max`. Every blend lasts as long as its
    slowest axis needs at `ddq_max`.
  - `__call__` picks the blend window with `digitize` over the bins, then evaluates either
    the parabola or the line.

Modules:

- `Segment` (`segment.dfy`): the per-segment `solve`.
- `Trapezoidal` (`trapezoidal.dfy`): the constructor and `__call__`.
- `Approximate` (`approximate.dfy`): the approximate planner.
- Property modules: `SegmentProperties`, `TrapezoidalProperties`, `PlanProperties`,
  `ApproximateProperties` and `ApproximateEvaluation`.
- `RealMath`: the NumPy primitives the planners use.

Reals stand in for floats. `math.sqrt` / `np.sqrt` are a parameter `sqrt: real -> real`. The
lemmas that need it require `RealMath.IsSqrt(sqrt)`, meaning it returns the non-negative root
of every non-negative argument.

The constructors and the per-segment solver are methods: loops over preallocated tables, and
masked array updates. Each method is proved equal to a pure function (`Solve` to `SolveSpec`,
`Plan` to `PlanSpec`, `Build` to `BuildSpec`).

Two computations of the planners depart from what their design evidently intends (see
Findings). The constructors and the functions beneath them take a `Variant` for these:

- `AsWritten` computes what the code computes.
  - `Trapezoidal.Plan(AsWritten, ...)` solves every segment with `solve` as written.
  - `Approximate.Build(AsWritten, ...)` takes `start_time` and `total_time` from axis 0.
- `Corrected` computes the intended behaviour.

The properties are proved for both variants where they hold for both. Lemmas about the
example inputs show where the two differ. The properties cover:

- the feasibility condition and the error cases;
- that the phases join;
- that each segment starts and ends at its waypoints with the waypoint velocities;
- the velocity and acceleration limits of every sample;
- the bin and segment lookup of a query time;
- the final rest state of the approximate trajectory.

**The pose tree** (`robots/posenode.py`, module `PoseTree` in `posenode.dfy`):

- `PoseNode` is a class: a constant name, a mutable parent link and a mutable map from names
  to children.
  - `add_node` re-parents a node, with every aliasing case and the partial update left by
    its KeyError.
  - `remove_node` deletes a child entry.
  - `node['a.b.c']` walks the children maps along `name.split('.')`. `DottedPath` in
    `dotted_path.dfy` models `split` and `join` over strings.
  - `root_node` follows the parent links.
- `Linked(tree)` is the invariant that parent links and children maps agree. `AddNode` keeps
  it, and so does the corrected removal `Detach`.
- `root_node` terminates only on an acyclic parent chain. `RootNode` takes that chain as a
  ghost witness, `Chain(this, chain)`. `add_node` itself does not reject cycles, as
  `AncestorUnderDescendant` shows. The corrected `AddNodeAcyclic` refuses a node that
  lies on the path from the new parent to its root.

## Model

| member | source | states |
|---|---|---|
| RealMath.Sign | robots/planning/trajectories/trapezoidal.py:155 | np.sign: 1, -1 or 0, positive exactly for positive and negative exactly for negative arguments |
| RealMath.ArgMax | robots/planning/trajectories/trapezoidal.py:156 | np.argmax: an index of a maximal entry, and the first one among equal maxima |
| RealMath.Max | robots/planning/trajectories/trapezoidal.py:244 | np.amax of a row: an entry of the row that no entry exceeds |
| RealMath.Clip | robots/planning/trajectories/trapezoidal.py:105 | np.clip: the result lies in [lo, hi], is x when x lies there, and is the nearer bound otherwise |
| RealMath.ClipIndex | robots/planning/trajectories/trapezoidal.py:107 | np.clip of the segment index into [0, nseg - 1], keeping an index already in range |
| RealMath.Digitize | robots/planning/trajectories/trapezoidal.py:106 | np.digitize over non-decreasing bins: the number of bins at most x, so bins[i-1] <= x < bins[i] |
| RealMath.StartTimes | robots/planning/trajectories/trapezoidal.py:81 | start times: t[0] = 0, t[k+1] = t[k] + dt[k], and the last entry is the sum of the durations |
| RealMath.CumulativeTimes | robots/planning/trajectories/trapezoidal.py:81 | the cumsum loop fills exactly StartTimes(dt) |
| RealMath.SumNonNegative | robots/planning/trajectories/trapezoidal.py:261 | a sum of non-negative durations is non-negative |
| RealMath.StartTimesNonDecreasing | robots/planning/trajectories/trapezoidal.py:81 | start times of non-negative durations never decrease |
| RealMath.StartTimesBetween | robots/planning/trajectories/trapezoidal.py:81 | t[j] <= t[k] for j <= k when the durations are non-negative |
| Segment.Displacements | robots/planning/trajectories/trapezoidal.py:153-154 | h[j] = abs(q1[j] - q0[j]) on every axis |
| Segment.DominantAxis | robots/planning/trajectories/trapezoidal.py:156 | the first axis whose displacement no other axis exceeds |
| Segment.Directions | robots/planning/trajectories/trapezoidal.py:155 | s[j] = sign(q1[j] - q0[j]) on every axis |
| Segment.Speeds | robots/planning/trajectories/trapezoidal.py:147-148 | the waypoint speeds are the absolute values of the waypoint velocities |
| Segment.DominantProfile | robots/planning/trajectories/trapezoidal.py:168-179 | the dominant axis' ramp times are the times to reach its peak speed from dq0 and from dq1 at ddq_max |
| Segment.PeakSpeeds | robots/planning/trajectories/trapezoidal.py:164-185 | vlim of the dominant axis from its profile, the coordinated speed on every other axis |
| Segment.RampTimes | robots/planning/trajectories/trapezoidal.py:177-178 | per axis, the time to ramp from the waypoint speed to the peak speed at ddq_max |
| Segment.SolveSpec | robots/planning/trajectories/trapezoidal.py:142-190 | solve as written: succeeds exactly when eval_constraint holds on every axis (the assertion at line 158); one entry per axis |
| Segment.SolveWith | robots/planning/trajectories/trapezoidal.py:142-190 | solve as written or corrected: succeeds exactly when eval_constraint holds on every axis; one entry per axis |
| Segment.Solve | robots/planning/trajectories/trapezoidal.py:142-190 | the masked array updates of solve compute exactly SolveSpec |
| Segment.CoordinatedSolveSpec | robots/planning/trajectories/trapezoidal.py:142-190 | corrected solve: same success condition and shape, with ramp times on every axis |
| Segment.SolveCoordinated | robots/planning/trajectories/trapezoidal.py:142-190 | the array version of the corrected solve computes exactly CoordinatedSolveSpec |
| Segment.CoordinateSpeeds | robots/planning/trajectories/trapezoidal.py:182-185 | the masked assignment gives every axis but the dominant one its coordinated speed and keeps the dominant entry |
| Segment.RampOtherAxes | robots/planning/trajectories/trapezoidal.py:177-178 | every axis but the dominant one gets the ramp time to its peak speed; the dominant entry is kept |
| Segment.SolveRows | robots/planning/trajectories/trapezoidal.py:164-185 | the zero-filled ta, td and vlim arrays end with ta and td non-zero only on the dominant axis, and vlim holding the dominant peak speed there and the coordinated speed on every other axis |
| Segment.CoordinatedRows | robots/planning/trajectories/trapezoidal.py:164-185 | corrected rows: the same vlim, with ta and td holding every axis's ramp time to its own peak speed |
| SegmentProperties.TriangleProfile | robots/planning/trajectories/trapezoidal.py:174-179 | triangle branch: t = ta + td, both ramps non-negative, the peak stays within dq_max, and the phases cover h |
| SegmentProperties.TriangleFits | robots/planning/trajectories/trapezoidal.py:174-179 | the triangle peak vlim = sqrt(h*ddq_max + (dq0^2+dq1^2)/2) squares back to that quantity, lies within dq_max, and its ramps cover h |
| SegmentProperties.TriangleShape | robots/planning/trajectories/trapezoidal.py:176-178 | the ramps up to and down from the triangle peak join there and cover h together |
| SegmentProperties.TrianglePeak | robots/planning/trajectories/trapezoidal.py:168-176 | when dq_max is not reached, the triangle peak lies between both boundary speeds and dq_max |
| SegmentProperties.SpeedsBelowPeak | robots/planning/trajectories/trapezoidal.py:138-140 | eval_constraint bounds both boundary speeds by the triangle peak |
| SegmentProperties.MaxVelocityCoast | robots/planning/trajectories/trapezoidal.py:168-173 | the closed form of the coast time t - ta - td in the branch that reaches dq_max |
| SegmentProperties.MaxVelocityProfile | robots/planning/trajectories/trapezoidal.py:168-173 | the branch test is what makes the coast time positive; the phases fit and cover h |
| SegmentProperties.DominantProfileFits | robots/planning/trajectories/trapezoidal.py:164-179 | both branches: the phases fit the duration, the peak stays within dq_max, and the motion covers exactly h |
| SegmentProperties.DurationNonNegative | robots/planning/trajectories/trapezoidal.py:168-179 | the segment duration is never negative under eval_constraint |
| SegmentProperties.RampTimeReaches | robots/planning/trajectories/trapezoidal.py:171-172 | ramping for the ramp time at ddq_max reaches the peak speed |
| SegmentProperties.CoverageFromRamps | robots/planning/trajectories/trapezoidal.py:119-122 | ramps that join the peak speed, with a balancing coast time, cover the displacement |
| SegmentProperties.CoordinatedDistance | robots/planning/trajectories/trapezoidal.py:185 | the coordinated speed of another axis covers its displacement in the shared duration, whenever the root is real |
| Trapezoidal.HeuristicRow | robots/planning/trajectories/trapezoidal.py:66-70 | one row of the heuristic velocities, with one entry per axis |
| Trapezoidal.HeuristicRows | robots/planning/trajectories/trapezoidal.py:66-70 | one heuristic row per waypoint |
| Trapezoidal.HeuristicVelocities | robots/planning/trajectories/trapezoidal.py:63-70 | the loop that fills the interior rows from zeros computes exactly HeuristicRows |
| Trapezoidal.MaxEntry | robots/planning/trajectories/trapezoidal.py:76 | ndarray.max(): an entry of the matrix that no entry exceeds |
| Trapezoidal.WaypointVelocities | robots/planning/trajectories/trapezoidal.py:63-76 | the heuristic rows with the given dq_max, or the given rows with their largest entry as dq_max; one row per waypoint, one entry per axis |
| Trapezoidal.FirstInfeasible | robots/planning/trajectories/trapezoidal.py:78-79 | the first segment from `from` on whose solve assertion fails, with every segment before it passing; None when all pass |
| Trapezoidal.SegmentSolution | robots/planning/trajectories/trapezoidal.py:79 | the solution of segment k, from solve as written or corrected, with one entry per axis |
| Trapezoidal.TablesFrom | robots/planning/trajectories/trapezoidal.py:78-81 | row k of the tables is solution k; the tables keep q and v0; the start times accumulate dt |
| Trapezoidal.Solutions | robots/planning/trajectories/trapezoidal.py:78-79 | one well-shaped solution per segment |
| Trapezoidal.Plan | robots/planning/trajectories/trapezoidal.py:21-81 | Plan(AsWritten, ...) is the constructor, Plan(Corrected, ...) the same with the corrected solve; each computes exactly PlanSpec, its tables or its error |
| Trapezoidal.PlanSpec | robots/planning/trajectories/trapezoidal.py:21-81 | a successful plan has well-formed tables that keep q and hold one duration per segment |
| Trapezoidal.SegmentsSpec | robots/planning/trajectories/trapezoidal.py:78-81 | solved segments give well-formed tables that keep q and v0; a failure names a segment whose solve assertion fails |
| Trapezoidal.SolveSegment | robots/planning/trajectories/trapezoidal.py:78-79 | one pass of the constructor's loop: segment k either stops the plan with the error PlanSpec reports for it, or extends the solved prefix by its solution |
| Trapezoidal.SolveSegments | robots/planning/trajectories/trapezoidal.py:78-81 | the row-by-row segment loop computes exactly SegmentsSpec |
| Trapezoidal.SolvedSegments | robots/planning/trajectories/trapezoidal.py:78-79 | solutions that solve returned for every segment are the planned ones, and every segment passed the assertion |
| Trapezoidal.SegmentStep | robots/planning/trajectories/trapezoidal.py:78-79 | a failing solve at k is the first infeasible segment from k on; a passing one is feasible |
| Trapezoidal.SegmentIndex | robots/planning/trajectories/trapezoidal.py:106-107 | digitize minus one, clipped, is a valid segment index |
| Trapezoidal.Evaluate | robots/planning/trajectories/trapezoidal.py:83-135 | a sample holds one position, one velocity and one acceleration per axis |
| TrapezoidalProperties.PhasesExclusive | robots/planning/trajectories/trapezoidal.py:115-132 | with ta, td >= 0 and ta + td <= dt, exactly one mask is set; the acceleration is a, -a or 0 |
| TrapezoidalProperties.CoastMeetsDecel | robots/planning/trajectories/trapezoidal.py:121-122 | the coast formula meets the deceleration formula at dt - td |
| TrapezoidalProperties.PhasesJoin | robots/planning/trajectories/trapezoidal.py:119-127 | position and velocity of consecutive phase formulas agree where the masks switch |
| TrapezoidalProperties.SegmentEndpoints | robots/planning/trajectories/trapezoidal.py:119-127 | at tau = 0 the axis is at q0 with velocity dq0; at tau = dt it is at q1 with velocity dq1 |
| TrapezoidalProperties.ScaleJoins | robots/planning/trajectories/trapezoidal.py:187-188 | multiplying the unsigned phase equations by the sign keeps them |
| TrapezoidalProperties.SignedJoins | robots/planning/trajectories/trapezoidal.py:187-188 | unsigned phases that fit join in the signed values dq = s*vlim and ddq = s*ddq_max |
| TrapezoidalProperties.DominantColumn | robots/planning/trajectories/trapezoidal.py:164-179 | at the dominant axis the corrected solution holds the dominant profile: dt, ta, td as computed, v = sign*vlim, a = sign*ddq_max, and the displacement constraint holds |
| TrapezoidalProperties.OtherColumn | robots/planning/trajectories/trapezoidal.py:181-190 | at any other axis the ramp times are those of the coordinated speed in the shared duration dt, and the signed rows are direction times peak speed and direction times ddq_max |
| TrapezoidalProperties.DominantAxisJoins | robots/planning/trajectories/trapezoidal.py:168-179 | the dominant axis joins its phases whenever its waypoint speeds are within dq_max |
| TrapezoidalProperties.OtherAxisJoins | robots/planning/trajectories/trapezoidal.py:185-188 | another axis joins its phases in the shared duration when its root is real and its ramps fit |
| TrapezoidalProperties.DominantColumnJoins | robots/planning/trajectories/trapezoidal.py:164-190 | the dominant column of a corrected solution joins its phases |
| TrapezoidalProperties.SolvedDominantColumnJoins | robots/planning/trajectories/trapezoidal.py:164-190 | the dominant column of a solution, as written or corrected, joins its phases |
| TrapezoidalProperties.OtherColumnJoins | robots/planning/trajectories/trapezoidal.py:181-190 | any other column of a corrected solution joins its phases under the same conditions |
| TrapezoidalProperties.CoordinatedAxisEndpoints | robots/planning/trajectories/trapezoidal.py:119-127 | every axis of a corrected segment starts at q0 with dq0 and ends at q1 with dq1 |
| TrapezoidalProperties.CorrectionKeepsTiming | robots/planning/trajectories/trapezoidal.py:164-190 | the corrected solve changes only the ramp times of the non-dominant axes |
| TrapezoidalProperties.CoastingAxisMissesWaypoint | robots/planning/trajectories/trapezoidal.py:164-190 | as written: in segment (0,0)->(4,3), axis 1 ends at 4, not at 3 |
| TrapezoidalProperties.CoordinatedAxisReachesWaypoint | robots/planning/trajectories/trapezoidal.py:164-190 | corrected: axis 1 of the same segment ramps for 1 at each end and ends at 3 |
| TrapezoidalProperties.FindingSegment | robots/planning/trajectories/trapezoidal.py:153-185 | the example segment is feasible; axis 0 dominates with profile (t 4, ta 2, td 2, vlim 2); axis 1's speed is 1 |
| PlanProperties.AnticipatedVelocityAligned | robots/planning/trajectories/trapezoidal.py:67-70 | an interior heuristic velocity is 0 or dq_max in magnitude and points along both neighbouring segments |
| PlanProperties.HeuristicAligned | robots/planning/trajectories/trapezoidal.py:63-70 | heuristic velocities point along the motion of every axis, stay within dq_max, and are zero at both ends |
| PlanProperties.PlanErrors | robots/planning/trajectories/trapezoidal.py:44-76 | too few waypoints, a bad velocity shape, a non-positive dq_max and a non-positive ddq_max are each reported exactly when they are the first check that fails |
| PlanProperties.PlanInfeasibleAt | robots/planning/trajectories/trapezoidal.py:78-79 | a plan fails at segment k iff solve's assertion fails there and passes before; a successful plan passed everywhere |
| PlanProperties.SegmentRows | robots/planning/trajectories/trapezoidal.py:78-81 | row k of the loop's tables is the solution solve gives segment k, as written or corrected |
| PlanProperties.PlannedRows | robots/planning/trajectories/trapezoidal.py:21-81 | a successful plan, as written or corrected, keeps q and v0; row k is the solution solve gives segment k; the start times accumulate dt |
| PlanProperties.SegmentDurationNonNegative | robots/planning/trajectories/trapezoidal.py:168-179 | a feasible segment never has a negative duration |
| PlanProperties.PlanTimes | robots/planning/trajectories/trapezoidal.py:81 | start times of a plan begin at 0, never decrease, and end at the total duration |
| PlanProperties.QueryInSegment | robots/planning/trajectories/trapezoidal.py:104-109 | the clipped time lies in [0, t[-1]] (kept if already there); the chosen segment gives 0 <= tau <= dt[i] |
| PlanProperties.AtWaypoint | robots/planning/trajectories/trapezoidal.py:83-135 | at the start time of segment k, an axis that joins its phases is at waypoint k with its velocity |
| PlanProperties.AtFinalWaypoint | robots/planning/trajectories/trapezoidal.py:105-135 | from the end time on, such an axis is at the last waypoint with the last velocity |
| PlanProperties.HeuristicDominantJoins | robots/planning/trajectories/trapezoidal.py:63-79 | with the heuristic, the dominant axis of every planned segment joins its phases, as written or corrected |
| PlanProperties.PlanMissesWaypoint | robots/planning/trajectories/trapezoidal.py:21-190 | as written: the plan from (0, 0) to (4, 3) at rest with dq_max 10, ddq_max 1 has t = [0, 4], and at t = 4 it is at (4, 4), not at its waypoint |
| PlanProperties.PlanReachesWaypoint | robots/planning/trajectories/trapezoidal.py:21-190 | corrected: the same plan is at (4, 3) at t = 4 |
| PlanProperties.ExamplePlanEnd | robots/planning/trajectories/trapezoidal.py:83-135 | at the end of that plan's one segment, axis 0 is at 4 and axis 1 wherever the segment's solution leaves it, as written or corrected |
| Approximate.AxisDurations | robots/planning/trajectories/trapezoidal.py:243 | per axis, abs(q[k+1] - q[k]) / dq_max |
| Approximate.DerivedDurations | robots/planning/trajectories/trapezoidal.py:243-244 | each segment's duration is the time of one of its axes, and no axis needs longer |
| Approximate.PaddedDurations | robots/planning/trajectories/trapezoidal.py:246 | durations are padded with 1 at both ends |
| Approximate.Padded | robots/planning/trajectories/trapezoidal.py:248 | waypoints are padded with the first and last one repeated |
| Approximate.SegmentVelocities | robots/planning/trajectories/trapezoidal.py:249 | diff(q) / dt: segment velocities entry by entry |
| Approximate.AxisBlendTimes | robots/planning/trajectories/trapezoidal.py:251 | abs(diff(dq)) / ddq_max per blend and axis |
| Approximate.BlendTimes | robots/planning/trajectories/trapezoidal.py:252 | each blend takes the time of one of its axes, and no axis needs longer |
| Approximate.BlendAccelerations | robots/planning/trajectories/trapezoidal.py:255-257 | diff(dq) / tb, with zero-time blends set to zero |
| Approximate.Bins | robots/planning/trajectories/trapezoidal.py:262 | bin k = t[k] + dt[k] - tb[k+1]/2 |
| Approximate.PaddedVelocities | robots/planning/trajectories/trapezoidal.py:246-249 | padded segments have velocity zero; segment k moves from waypoint k-1 to k in dt[k-1] |
| Approximate.WaypointBlendTimes | robots/planning/trajectories/trapezoidal.py:251-252 | blend times are non-negative and cover every axis' change of velocity |
| Approximate.Construct | robots/planning/trajectories/trapezoidal.py:241-262 | the constructor's tables: padded q, the segment velocities, blend times that cover every axis, the blend accelerations, the start times and the bins; start and total time from axis 0's blend times as written, from the blend times corrected |
| Approximate.BlendSpec | robots/planning/trajectories/trapezoidal.py:246-262 | succeeds exactly when the blends fit (the assertion at line 253), and then returns Construct |
| Approximate.BuildSpec | robots/planning/trajectories/trapezoidal.py:212-262 | as written or corrected: fails with TooFewWaypoints exactly when there are fewer than two waypoints, none included; success implies admissible inputs, blends that fit, and the Construct tables of the same variant |
| Approximate.Build | robots/planning/trajectories/trapezoidal.py:212-262 | Build(AsWritten, ...) is the constructor; the method computes exactly BuildSpec |
| Approximate.Blend | robots/planning/trajectories/trapezoidal.py:246-262 | the part after the durations computes exactly BlendSpec |
| Approximate.Window | robots/planning/trajectories/trapezoidal.py:287 | digitize over the bins gives a valid blend index |
| Approximate.Evaluate | robots/planning/trajectories/trapezoidal.py:264-306 | a sample holds one position, one velocity and one acceleration per axis |
| ApproximateProperties.AccelerationBound | robots/planning/trajectories/trapezoidal.py:251-257 | a blend of length tb >= abs(dv)/A performs exactly dv, and its acceleration stays within A |
| ApproximateProperties.SpeedBound | robots/planning/trajectories/trapezoidal.py:243-249 | covering d in T >= abs(d)/V takes speed at most V |
| ApproximateProperties.SpeedAttained | robots/planning/trajectories/trapezoidal.py:243-249 | when T = abs(d)/V, the speed is exactly V |
| ApproximateProperties.VelocityBetween | robots/planning/trajectories/trapezoidal.py:298-300 | a ramp stays within any bound both of its end velocities satisfy |
| ApproximateProperties.BlendEndsOnLine | robots/planning/trajectories/trapezoidal.py:294-300 | the blend parabola ends on the following line, in position and velocity |
| ApproximateProperties.BlendStartsOnLine | robots/planning/trajectories/trapezoidal.py:294-296 | the blend parabola starts on the line arriving from the previous waypoint |
| ApproximateProperties.Covers | robots/planning/trajectories/trapezoidal.py:249 | velocity d/T held for T covers d |
| ApproximateProperties.PaddedAtRest | robots/planning/trajectories/trapezoidal.py:246-259 | padded segments are at rest; every other segment moves between its waypoints in their time gap |
| ApproximateProperties.DerivedDurationsSlowest | robots/planning/trajectories/trapezoidal.py:243-244 | derived durations are the times of the slowest axis |
| ApproximateProperties.DerivedSpeedsWithinLimit | robots/planning/trajectories/trapezoidal.py:243-249 | with derived durations no axis exceeds dq_max, and on every real segment some axis reaches it |
| ApproximateProperties.BlendAccelerationBounds | robots/planning/trajectories/trapezoidal.py:251-257 | each blend performs exactly its velocity change within ddq_max; zero-time blends have zero acceleration |
| ApproximateProperties.TimesCoherent | robots/planning/trajectories/trapezoidal.py:253-262 | times start at 0 and never decrease; bin k is where blend k+1 starts, after blend k ends |
| ApproximateProperties.ConstructTables | robots/planning/trajectories/trapezoidal.py:241-262 | the defining facts of the constructed tables; the total time is not before the last waypoint time, and corrected it is not before the end of the last blend |
| ApproximateProperties.TablesTimed | robots/planning/trajectories/trapezoidal.py:253-262 | the timing part of the invariant holds for tables whose blends fit |
| ApproximateProperties.TablesRamped | robots/planning/trajectories/trapezoidal.py:251-257 | the blend part of the invariant |
| ApproximateProperties.TablesAnchored | robots/planning/trajectories/trapezoidal.py:246-249 | the waypoint part of the invariant, and that padded row N is the last waypoint |
| ApproximateProperties.TablesCoherent | robots/planning/trajectories/trapezoidal.py:241-262 | tables with those facts satisfy the invariant Coherent |
| ApproximateProperties.ConstructCoherent | robots/planning/trajectories/trapezoidal.py:241-262 | Construct's tables satisfy Coherent when the blends fit; corrected, the total time also covers the last blend |
| ApproximateProperties.BuiltCoherent | robots/planning/trajectories/trapezoidal.py:212-262 | every trajectory the constructor returns, as written or corrected, satisfies Coherent; corrected, its total time covers the last blend |
| ApproximateProperties.TotalTimesOrdered | robots/planning/trajectories/trapezoidal.py:259-261 | the total time as written is at least the sum of the durations and at most the corrected one, which covers the last blend; the as-written start is no earlier than the corrected one; as written covers the last blend when axis 0 is its slowest axis |
| ApproximateProperties.ConstructVariants | robots/planning/trajectories/trapezoidal.py:241-262 | the tables as written and corrected differ only in start and total time, the corrected interval containing the other |
| ApproximateProperties.CorrectionKeepsTables | robots/planning/trajectories/trapezoidal.py:212-262 | the constructor as written and corrected succeed or fail together, with the same error, and differ only in start and total time |
| ApproximateEvaluation.BinsNonDecreasing | robots/planning/trajectories/trapezoidal.py:262 | the bins of a coherent trajectory never decrease |
| ApproximateEvaluation.QueryWindow | robots/planning/trajectories/trapezoidal.py:286-289 | the clipped time lies in [-tb[0]/2, total]; in window i, blend i has started and blend i+1 has not |
| ApproximateEvaluation.WindowPhases | robots/planning/trajectories/trapezoidal.py:289-304 | inside blend i the axis follows the parabola; outside, the next line without acceleration |
| ApproximateEvaluation.BlendFacts | robots/planning/trajectories/trapezoidal.py:251-257 | a blend's length is non-negative, and it performs its change of velocity |
| ApproximateEvaluation.BlendEndJoinsLine | robots/planning/trajectories/trapezoidal.py:294-300 | at the end of blend i, the parabola and the following line agree |
| ApproximateEvaluation.EndOfRamp | robots/planning/trajectories/trapezoidal.py:294-300 | the end of a blend lies on the following line |
| ApproximateEvaluation.BlendStartJoinsLine | robots/planning/trajectories/trapezoidal.py:294-300 | where blend i starts, windows i-1 and i agree in position and velocity |
| ApproximateEvaluation.SegmentFacts | robots/planning/trajectories/trapezoidal.py:253-259 | blend i-1 ends before blend i starts; the line between reaches its waypoint |
| ApproximateEvaluation.StartOfRamp | robots/planning/trajectories/trapezoidal.py:294-296 | a blend that starts after the previous one ended starts on the line between them |
| ApproximateEvaluation.FirstBlendStartsAtRest | robots/planning/trajectories/trapezoidal.py:286-300 | at -tb[0]/2 the trajectory is at the first waypoint, at rest |
| ApproximateEvaluation.AccelerationWithinLimit | robots/planning/trajectories/trapezoidal.py:302-304 | every sampled acceleration is within a bound that all blend accelerations satisfy |
| ApproximateEvaluation.VelocityWithinLimit | robots/planning/trajectories/trapezoidal.py:298-300 | every sampled velocity is within a bound that all segment velocities satisfy |
| ApproximateEvaluation.AxisVelocityWithin | robots/planning/trajectories/trapezoidal.py:298-300 | in window i, the velocity stays between dq[i] and dq[i+1] |
| ApproximateEvaluation.LastWindow | robots/planning/trajectories/trapezoidal.py:286-287 | when the total time covers the last blend, a query from the total time on falls in the last window, after the last blend |
| ApproximateEvaluation.ReachesFinalWaypoint | robots/planning/trajectories/trapezoidal.py:286-300 | when the total time covers the last blend, the trajectory is at the last padded waypoint with zero velocity from the total time on |
| ApproximateEvaluation.BuiltReachesFinalWaypoint | robots/planning/trajectories/trapezoidal.py:212-306 | a trajectory built corrected is at the last waypoint with zero velocity on every axis from its total time on |
| ApproximateEvaluation.AsWrittenReachesFinalWaypoint | robots/planning/trajectories/trapezoidal.py:212-306 | as written, a built trajectory is at the last waypoint at rest from its total time on when axis 0 is the slowest axis of the last blend |
| ApproximateEvaluation.AsWrittenCompletes | robots/planning/trajectories/trapezoidal.py:259-261 | the as-written total time covers the last blend when axis 0 is its slowest axis |
| ApproximateEvaluation.BuiltAccelerations | robots/planning/trajectories/trapezoidal.py:251-257 | the blend accelerations of a constructed trajectory, as written or corrected, are within ddq_max |
| ApproximateEvaluation.TablesAccelerations | robots/planning/trajectories/trapezoidal.py:251-257 | blend accelerations whose blend times cover their changes are within ddq_max |
| ApproximateEvaluation.BuiltVelocities | robots/planning/trajectories/trapezoidal.py:243-249 | with derived durations, segment velocities are within dq_max, as written or corrected |
| ApproximateEvaluation.BuiltAccelerationWithinLimit | robots/planning/trajectories/trapezoidal.py:251-304 | every sample of a constructed trajectory, as written or corrected, accelerates within ddq_max |
| ApproximateEvaluation.BuiltVelocityWithinLimit | robots/planning/trajectories/trapezoidal.py:243-300 | with derived durations, every sample of a constructed trajectory, as written or corrected, moves within dq_max |
| ApproximateEvaluation.ExampleSegmentVelocities | robots/planning/trajectories/trapezoidal.py:246-249 | the padded velocities of the example [[0,0],[1,4]], dt = [2] |
| ApproximateEvaluation.ExampleAxisBlendTimes | robots/planning/trajectories/trapezoidal.py:251 | per-axis blend times of the example: 0.25 on axis 0 and 1 on axis 1 |
| ApproximateEvaluation.ExampleBlendTimes | robots/planning/trajectories/trapezoidal.py:252 | the example's blend times are [1, 1] |
| ApproximateEvaluation.ExampleTimes | robots/planning/trajectories/trapezoidal.py:256-262 | the example's accelerations, waypoint times, bins and corrected total time 3 |
| ApproximateEvaluation.ExampleTables | robots/planning/trajectories/trapezoidal.py:212-262 | the constructor accepts the example and builds exactly these tables |
| ApproximateEvaluation.FinalBlendCutShort | robots/planning/trajectories/trapezoidal.py:260-261 | as written, the total time is 2.25, and at t = 3 the example is short of [1, 4] and still moving |
| ApproximateEvaluation.CutShortSample | robots/planning/trajectories/trapezoidal.py:286-300 | the as-written sample at time 3: q = [0.984375, 3.9375], dq = [0.125, 0.5] |
| ApproximateEvaluation.FinalBlendCompleted | robots/planning/trajectories/trapezoidal.py:260-262 | corrected: the total time is 3, and at t = 3 the example is at [1, 4] with zero velocity |
| DottedPath.Split | robots/posenode.py:105 | str.split('.'): at least one piece, and no piece contains a dot |
| DottedPath.JoinSplit | robots/posenode.py:105 | joining the pieces of a split with '.' gives the name back |
| DottedPath.SplitDotted | robots/posenode.py:90-105 | 'x.y'.split('.') is x's pieces followed by y's pieces |
| DottedPath.SplitPlain | robots/posenode.py:105 | a name without dots splits into itself alone |
| DottedPath.SplitJoin | robots/posenode.py:105 | splitting the join of dot-free pieces gives the pieces back |
| PoseTree.PoseNode.constructor | robots/posenode.py:51-57 | a new node has its name, no parent and no children |
| PoseTree.PoseNode.Create | robots/posenode.py:38-61 | PoseNode(name, parent=p) is p.add_node(new): fails only on a duplicate name (with p unchanged), otherwise adds the one entry; keeps the tree linked |
| PoseTree.PoseNode.RemoveNode | robots/posenode.py:77-85 | deletes exactly the entry for node.name, or raises KeyError (MissingChild) and changes nothing; node's parent link is kept |
| PoseTree.PoseNode.AddNode | robots/posenode.py:63-75 | fails on a duplicate name; otherwise registers the node, removes it from its previous parent and sets the parent, including the KeyError case; in a linked tree it succeeds iff the name is free and stays linked |
| PoseTree.PoseNode.AddNodeAcyclic | robots/posenode.py:63-75 | corrected add_node: refuses node exactly when it is the new parent or one of its ancestors, changing nothing; otherwise it is add_node, and an added node has a path to the root through its parent |
| PoseTree.PoseNode.Detach | robots/posenode.py:77-85 | corrected removal: deletes the entry exactly when it holds node, and clears node's parent; keeps the tree linked |
| PoseTree.PoseNode.Get | robots/posenode.py:87-109 | the lookup loop returns exactly the walk along name.split('.'); it fails with the first missing piece |
| PoseTree.PoseNode.RootNode | robots/posenode.py:111-116 | along an acyclic parent chain, returns its last node, which has no parent; a parentless node is its own root |
| PoseTree.AddKeepsLinked | robots/posenode.py:63-75 | re-parenting one node and updating both children maps keeps parents and children consistent |
| PoseTree.FreshNodeLinked | robots/posenode.py:56-57 | a new node without parent and children keeps the tree linked |
| PoseTree.DetachKeepsLinked | robots/posenode.py:77-85 | removing the entry and clearing the parent together keeps the tree linked |
| PoseTree.WalkAppend | robots/posenode.py:106-108 | walking along a + b walks a, then b from there; the first error stops the walk |
| PoseTree.LookupPlain | robots/posenode.py:107-108 | node['x'] for a dot-free x is the child named x, or KeyError |
| PoseTree.LookupDotted | robots/posenode.py:90-94 | node['x.y'] == node['x']['y'], and it fails when node['x'] fails |
| PoseTree.ChainOfParent | robots/posenode.py:113-115 | the path from a node's parent to the root is the rest of the node's path |
| PoseTree.ChainOfRoot | robots/posenode.py:112-116 | a node's path to the root is the node alone exactly when it has no parent |
| PoseTree.ChainSuffix | robots/posenode.py:113-115 | every suffix of a path to the root is the path of its first node |
| PoseTree.ChainDistinct | robots/posenode.py:111-116 | a path to the root visits no node twice |
| PoseTree.ChainUnique | robots/posenode.py:111-116 | a node has at most one path to the root, so root_node has one answer |
| PoseTree.StaysOnCycle | robots/posenode.py:113-115 | following the parents from a two-node cycle never leaves it |
| PoseTree.MutualParentsHaveNoRoot | robots/posenode.py:111-116 | two nodes that are each other's parent have no path to a root |
| PoseTree.AncestorUnderDescendant | robots/posenode.py:63-75 | add_node accepts a.add_node(b); b.add_node(a), after which a has no path to a root |
| PoseTree.AncestorRefused | robots/posenode.py:63-75 | corrected: after a.add_node(b), b.add_node(a) is refused and b keeps its path to the root a |
| PoseTree.ReattachAfterRemove | robots/posenode.py:77-85 | as written: add to p, remove from p, add to q raises KeyError, yet leaves c under q with parent p |
| PoseTree.ReattachAfterDetach | robots/posenode.py:77-85 | corrected: the same sequence moves c under q and keeps the tree linked |

## Left out

- Floating point: every quantity is a `real`. Rounding, NaN propagation and division by
  zero are not modelled.
  - The rows of `0 / 0` at trapezoidal.py:256-257 are set to zero directly.
  - A zero or negative given duration in the approximate planner is reported as
    `InfeasibleTrajectory` directly. The source's feasibility assertion at line 253 fails on
    both. A negative duration leaves every value finite, and the assertion fails because
    the blend times are non-negative while the right-hand side is negative. A zero duration
    divides by zero, and the assertion fails on the infinities or NaN this produces.
- `math.sqrt` and `np.sqrt` are a parameter `sqrt`. A negative argument of `np.sqrt` at
  line 185 (NaN in NumPy) is not modelled as NaN.
  - The lemmas about the coordinated speed assume that argument is non-negative.
- NumPy shapes: vectors are sequences and matrices are sequences of rows.
  - Scalar inputs and the `isscalar` unwrapping of `__call__` (lines 102-104, 135 and
    283-285, 306) are left out. `__call__` is modelled at one query time.
  - A one-dimensional `q` (reshape at lines 47-48 and 234-235) is given as rows of one entry.
  - Waypoints with no coordinates (M = 0) are excluded by the requires of both planners. In
    the source, `np.argmax` (line 156) and `np.amax` (lines 244 and 252) raise ValueError on
    them.
- Keyword handling (`kwargs.pop`) is replaced by the `Velocities` and `Durations` datatypes.
  - The datatypes rule out a missing `dq_max` in both planners.
    - `TrapezoidalTrajectory` without `dq` and without `dq_max` uses `None` in the heuristic
      at line 70 and in `solve`, which raises TypeError.
    - `ApproximateTrapezoidalTrajectory` without `dt` and without `dq_max` fails the
      assertion at line 241.
  - A missing `ddq_max` (KeyError from `kwargs.pop`, lines 52 and 237) is impossible as well.
- `Trapezoidal.PlanSpec` reports a non-positive `dq_max` or `ddq_max` as an error, and so
  does `Approximate.BuildSpec`. The source would divide by zero or produce meaningless
  profiles. This includes the `dq_max` derived from given velocities at line 76.
- `Trapezoidal.PlanSpec` reports as `VelocityShape` given velocities of shape (N, 1) with
  M > 1. The assertion at line 75 accepts them, but `solve` then fails on its mask index at
  line 185.
- ApproximateEvaluation.BuiltReachesFinalWaypoint: stated for the corrected constructor.
  As written, the same holds only when axis 0 is the slowest axis of the last blend
  (`AsWrittenReachesFinalWaypoint`). Otherwise the trajectory stops short (`FinalBlendCutShort`).
- PlanProperties.AtWaypoint and PlanProperties.AtFinalWaypoint: stated for an axis that joins
  its phases. As written, only the dominant axis of each segment is proved to join
  (`HeuristicDominantJoins`). The other axes coast and miss their waypoints (`PlanMissesWaypoint`).
- `robots/planning/trajectories.py` is not part of this model.
- The transforms of `PoseNode` (posenode.py:118-152) and the `pose` field are left out.
  They are numeric matrix code outside the tree structure.
- UUID names (posenode.py:52-54) are left out. Randomness has no deterministic model, so
  every node is given a name.
- PoseTree.PoseNode.RootNode: requires a ghost parent chain to a root (`Chain`). On a cycle,
  which `add_node` accepts, root_node does not terminate, and the model does not describe
  that non-termination.
- PoseTree.PoseNode.AddNodeAcyclic: requires the path from the new parent to its root as a
  ghost witness, because its check walks that path. It proves a path to the root for the
  added node only. The nodes below the added node are not followed.
- PoseTree.PoseNode.AddNode: the linked-tree guarantees are stated for a ghost set `tree`
  that contains both nodes. Nodes outside it are only covered by the frame ensures.
- PoseTree.PoseNode.Create: `Linked` is preserved only for a set `tree` that contains the
  parent.
- Python's exceptions are `Err` results. An `AssertionError` is `DuplicateName` or the
  planners' error values; a `KeyError` is `MissingChild`.

## Findings

| source | as written | input that shows it | evidently intended | confidence | as-written member | corrected member |
|---|---|---|---|---|---|---|
| robots/planning/trajectories/trapezoidal.py:164-190 | `solve` sets `ta` and `td` only for the dominant axis; every other axis keeps `ta = td = 0` and coasts at its coordinated speed for the whole segment | q0 = [0, 0], q1 = [4, 3], dq0 = dq1 = [0, 0], dq_max = 10, ddq_max = 1: t = 4, axis 1 gets speed 1, so `__call__` moves it to 4 instead of 3 | every axis ramps from its waypoint speed to its coordinated speed and back, `ta = (vlim - dq0) / ddq_max`, `td = (vlim - dq1) / ddq_max`, and ends at its waypoint | high (not executed) | PlanProperties.PlanMissesWaypoint | PlanProperties.PlanReachesWaypoint |
| robots/planning/trajectories/trapezoidal.py:260-261 | `start_time` and `total_time` use `tb[0, 0]` and `tb[-1, 0]`, the per-axis blend times of axis 0, instead of the blend times `self.tb` | q = [[0, 0], [1, 4]], dt = [2], ddq_max = 2: the total time is 2.25 instead of 3; at t = 3 the sample is q = [0.984375, 3.9375], dq = [0.125, 0.5] | the total time uses the blend times of the slowest axis, and the trajectory ends at rest at the last waypoint | high (not executed) | ApproximateEvaluation.FinalBlendCutShort | ApproximateEvaluation.FinalBlendCompleted |
| robots/posenode.py:77-85 | `remove_node` deletes the entry but keeps `node_parent` | p.add_node(c); p.remove_node(c); q.add_node(c) registers c under q, then raises KeyError from p.remove_node, leaving c's parent as p | removing a child also clears its parent link, so the node can be re-added elsewhere | medium (not executed) | PoseTree.ReattachAfterRemove | PoseTree.PoseNode.Detach |
| robots/posenode.py:63-75 | `add_node` accepts a node that is the new parent's own ancestor | a.add_node(b); b.add_node(a): a and b become each other's parent, and root_node on either loops forever | a node is never added under itself or its own descendant, so every node keeps a path to a root | medium (not executed) | PoseTree.AncestorUnderDescendant | PoseTree.PoseNode.AddNodeAcyclic |
