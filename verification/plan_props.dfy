/**
 * What the constructor of TrapezoidalTrajectory guarantees about the whole plan: the
 * heuristic waypoint velocities, the error cases, the start-time table, the segment
 * __call__ picks for a query time, and that the trajectory passes through the waypoints.
 */
module PlanProperties {
  import opened Wrappers
  import opened Variants
  import opened RealMath
  import opened Segment
  import opened SegmentProperties
  import opened Trapezoidal
  import opened TrapezoidalProperties

  /**
   * The heuristic velocity of an interior waypoint is either 0 or dq_max in magnitude and
   * points along the motion of both neighbouring segments (or is zero).
   */
  lemma AnticipatedVelocityAligned(before: real, after: real, dqMax: real)
    requires dqMax > 0.0
    ensures var r := AnticipatedVelocity(before, after, dqMax);
      && (Abs(r) == 0.0 || Abs(r) == dqMax)
      && r == Sign(before) * Abs(r) && r == Sign(after) * Abs(r)
      && (Sign(before) == Sign(after) && before != 0.0 ==> Abs(r) == dqMax)
  {
  }

  /**
   * With the heuristic, the waypoint velocities of every segment point along the motion
   * of each axis and stay within dq_max; the first and last waypoint are at rest.
   */
  lemma HeuristicAligned(q: seq<seq<real>>, dqMax: real, k: nat, j: nat)
    requires Rectangular(q) && dqMax > 0.0 && k + 1 < |q| && j < |q[0]|
    ensures var v0 := HeuristicRows(q, dqMax);
      && Aligned(q[k], q[k + 1], v0[k], v0[k + 1], j)
      && Abs(v0[k][j]) <= dqMax && Abs(v0[k + 1][j]) <= dqMax
    ensures var v0 := HeuristicRows(q, dqMax); v0[0][j] == 0.0 && v0[|q| - 1][j] == 0.0
  {
    var v0 := HeuristicRows(q, dqMax);
    if 0 < k {
      AnticipatedVelocityAligned(q[k][j] - q[k - 1][j], q[k + 1][j] - q[k][j], dqMax);
    }
    if k + 1 < |q| - 1 {
      AnticipatedVelocityAligned(q[k + 1][j] - q[k][j], q[k + 2][j] - q[k + 1][j], dqMax);
    }
  }

  /** The error cases of the constructor, in the order it meets them. */
  lemma PlanErrors(variant: Variant, q: seq<seq<real>>, vel: Velocities, ddqMax: real, sqrt: real -> real)
    requires Rectangular(q)
    ensures var r := PlanSpec(variant, q, vel, ddqMax, sqrt);
      && (r == Err(TooFewWaypoints) <==> |q| < 2)
      && (r == Err(VelocityShape) <==> |q| >= 2 && vel.Given? && !GivenShape(q, vel.dq))
      && (r == Err(NonPositiveVelocityLimit) <==>
            |q| >= 2 && (vel.Given? ==> GivenShape(q, vel.dq)) && WaypointVelocities(q, vel).1 <= 0.0)
      && (r == Err(NonPositiveAccelerationLimit) <==>
            |q| >= 2 && (vel.Given? ==> GivenShape(q, vel.dq)) && WaypointVelocities(q, vel).1 > 0.0 && ddqMax <= 0.0)
      && (r == Err(NonPositiveVelocityLimit) ==> vel.Heuristic? ==> vel.dqMax <= 0.0)
  {
  }

  /**
   * A plan fails at segment k exactly when solve's assertion fails there and holds on
   * every segment before it; a plan that succeeds passed the assertion on every segment.
   */
  lemma PlanInfeasibleAt(variant: Variant, q: seq<seq<real>>, vel: Velocities, ddqMax: real, sqrt: real -> real)
    requires Rectangular(q) && |q| >= 2 && (vel.Given? ==> GivenShape(q, vel.dq))
    ensures var r := PlanSpec(variant, q, vel, ddqMax, sqrt);
      var v0 := WaypointVelocities(q, vel).0;
      && (r.Err? && r.error.Infeasible? ==>
            && r.error.segment < |q| - 1 && !SegmentFeasible(q, v0, r.error.segment, ddqMax)
            && forall k :: 0 <= k < r.error.segment ==> SegmentFeasible(q, v0, k, ddqMax))
      && (r.Ok? ==> forall k :: 0 <= k < |q| - 1 ==> SegmentFeasible(q, v0, k, ddqMax))
  {
    var (v0, dqMax) := WaypointVelocities(q, vel);
    if dqMax > 0.0 && ddqMax > 0.0 {
      var f := FirstInfeasible(q, v0, ddqMax, 0);
    }
  }

  /** Row k of the tables the segment loop fills is the solution solve gives segment k. */
  lemma SegmentRows(variant: Variant, q: seq<seq<real>>, v0: seq<seq<real>>, dqMax: real, ddqMax: real, sqrt: real -> real,
                    tr: Trajectory, k: nat)
    requires Rectangular(q) && |q| >= 2 && |v0| == |q|
    requires forall r :: 0 <= r < |q| ==> |v0[r]| == |q[0]|
    requires dqMax > 0.0 && ddqMax > 0.0
    requires SegmentsSpec(variant, q, v0, dqMax, ddqMax, sqrt) == Ok(tr) && k < |tr.dt|
    ensures Valid(tr) && tr.q == q && tr.v0 == v0 && |tr.dt| == |q| - 1 && tr.t == StartTimes(tr.dt)
    ensures SolveWith(variant, q[k], q[k + 1], v0[k], v0[k + 1], dqMax, ddqMax, sqrt)
              == Ok(Solution(tr.dt[k], tr.ta[k], tr.td[k], tr.v[k], tr.a[k]))
  {
    assert FirstInfeasible(q, v0, ddqMax, 0).None?;
    var sols := Solutions(variant, q, v0, dqMax, ddqMax, sqrt);
    assert tr == TablesFrom(q, v0, sols);
    assert SegmentFeasible(q, v0, k, ddqMax);
    assert sols[k] == SegmentSolution(variant, q, v0, k, dqMax, ddqMax, sqrt);
  }

  /**
   * A successful plan keeps the waypoints and their velocities, has one row per segment,
   * row k of its tables is what solve gives segment k, and the start times
   * accumulate the durations from 0.
   */
  lemma PlannedRows(variant: Variant, q: seq<seq<real>>, vel: Velocities, ddqMax: real, sqrt: real -> real, tr: Trajectory, k: nat)
    requires Rectangular(q) && PlanSpec(variant, q, vel, ddqMax, sqrt) == Ok(tr) && k < |tr.dt|
    ensures |q| >= 2 && (vel.Given? ==> GivenShape(q, vel.dq))
    ensures var (v0, dqMax) := WaypointVelocities(q, vel);
      && Valid(tr) && tr.q == q && tr.v0 == v0 && |tr.dt| == |q| - 1 && tr.t == StartTimes(tr.dt)
      && dqMax > 0.0 && ddqMax > 0.0
      && SolveWith(variant, q[k], q[k + 1], v0[k], v0[k + 1], dqMax, ddqMax, sqrt)
           == Ok(Solution(tr.dt[k], tr.ta[k], tr.td[k], tr.v[k], tr.a[k]))
  {
    var (v0, dqMax) := WaypointVelocities(q, vel);
    SegmentRows(variant, q, v0, dqMax, ddqMax, sqrt, tr, k);
  }

  /** The duration of a feasible segment is never negative. */
  lemma SegmentDurationNonNegative(q0: seq<real>, q1: seq<real>, dq0: seq<real>, dq1: seq<real>,
                                   dqMax: real, a: real, sqrt: real -> real)
    requires SameAxes(q0, q1, dq0, dq1) && dqMax > 0.0 && a > 0.0 && IsSqrt(sqrt)
    requires Feasible(q0, q1, dq0, dq1, a)
    ensures 0.0 <= SegmentProfile(q0, q1, dq0, dq1, dqMax, a, sqrt).t
  {
    var i := DominantAxis(q0, q1);
    var h := Abs(q1[i] - q0[i]);
    assert EvalConstraint(q0[i], q1[i], Abs(dq0[i]), Abs(dq1[i]), a);
    DisplacementConstraint(q0[i], q1[i], Abs(dq0[i]), Abs(dq1[i]), a);
    DurationNonNegative(h, Abs(dq0[i]), Abs(dq1[i]), dqMax, a, sqrt);
  }

  /**
   * Every segment of a successful plan has a non-negative duration, so the start times
   * never decrease, begin at 0 and end at the total duration.
   */
  lemma PlanTimes(variant: Variant, q: seq<seq<real>>, vel: Velocities, ddqMax: real, sqrt: real -> real, tr: Trajectory)
    requires Rectangular(q) && IsSqrt(sqrt) && PlanSpec(variant, q, vel, ddqMax, sqrt) == Ok(tr)
    ensures forall k :: 0 <= k < |tr.dt| ==> 0.0 <= tr.dt[k]
    ensures |tr.t| == |tr.dt| + 1 && tr.t[0] == 0.0 && tr.t[|tr.dt|] == Sum(tr.dt)
    ensures NonDecreasing(tr.t)
  {
    forall k | 0 <= k < |tr.dt|
      ensures 0.0 <= tr.dt[k]
    {
      PlannedRows(variant, q, vel, ddqMax, sqrt, tr, k);
      var (v0, dqMax) := WaypointVelocities(q, vel);
      PlanInfeasibleAt(variant, q, vel, ddqMax, sqrt);
      assert SegmentFeasible(q, v0, k, ddqMax);
      SegmentDurationNonNegative(q[k], q[k + 1], v0[k], v0[k + 1], dqMax, ddqMax, sqrt);
    }
    PlannedRows(variant, q, vel, ddqMax, sqrt, tr, 0);
    StartTimesNonDecreasing(tr.dt);
  }

  /**
   * __call__ on a plan with non-negative durations: the query time is clipped into
   * [0, t[-1]] (and kept when it lies there), and the segment chosen by digitize starts
   * at or before it and lasts at least until it, so 0 <= tau <= dt[i].
   */
  lemma QueryInSegment(tr: Trajectory, time: real)
    requires Valid(tr) && tr.t == StartTimes(tr.dt)
    requires forall k :: 0 <= k < |tr.dt| ==> 0.0 <= tr.dt[k]
    ensures var x := ClippedTime(tr, time);
      var i := SegmentIndex(tr, x);
      && 0.0 <= x <= tr.t[|tr.dt|]
      && (0.0 <= time <= tr.t[|tr.dt|] ==> x == time)
      && tr.t[i] <= x <= tr.t[i] + tr.dt[i]
  {
    var n := |tr.dt|;
    StartTimesNonDecreasing(tr.dt);
    assert 0.0 <= tr.t[n] by { assert tr.t[0] <= tr.t[n]; }
    var x := ClippedTime(tr, time);
    var d := Digitize(x, tr.t);
    assert tr.t[0] <= x;
    if d <= n {
      assert tr.t[d - 1] <= x < tr.t[d];
    } else {
      assert tr.t[n] <= x;
    }
  }

  /**
   * At the start time of segment k, when the durations are positive, __call__ evaluates
   * segment k at tau = 0: an axis that joins its phases there is at waypoint k with the
   * waypoint's velocity.
   */
  lemma AtWaypoint(tr: Trajectory, k: nat, j: nat)
    requires Valid(tr) && tr.t == StartTimes(tr.dt)
    requires forall i :: 0 <= i < |tr.dt| ==> 0.0 < tr.dt[i]
    requires k < |tr.dt| && j < |tr.q[0]|
    requires AxisJoins(tr, k, j)
    ensures Evaluate(tr, tr.t[k]).q[j] == tr.q[k][j] && Evaluate(tr, tr.t[k]).dq[j] == tr.v0[k][j]
  {
    StartLocated(tr, k);
    AxisOf(tr, tr.t[k], j);
    StartOfSegment(tr, k, j);
  }

  /** Axis j of segment k joins its phases. */
  predicate AxisJoins(tr: Trajectory, k: nat, j: nat)
    requires Valid(tr) && k < |tr.dt| && j < |tr.q[0]|
  {
    Joins(tr.q[k][j], tr.q[k + 1][j], tr.v0[k][j], tr.v0[k + 1][j], tr.dt[k],
          tr.ta[k][j], tr.td[k][j], tr.v[k][j], tr.a[k][j])
  }

  /** An axis that joins its phases starts segment k at waypoint k with its velocity. */
  lemma StartOfSegment(tr: Trajectory, k: nat, j: nat)
    requires Valid(tr) && k < |tr.dt| && j < |tr.q[0]| && AxisJoins(tr, k, j)
    ensures SegmentAxis(tr, k, j, 0.0).q == tr.q[k][j] && SegmentAxis(tr, k, j, 0.0).dq == tr.v0[k][j]
  {
    SegmentEndpoints(tr.q[k][j], tr.q[k + 1][j], tr.v0[k][j], tr.v0[k + 1][j], tr.dt[k],
                     tr.ta[k][j], tr.td[k][j], tr.v[k][j], tr.a[k][j]);
  }

  /** An axis that joins its phases ends segment k at waypoint k + 1 with its velocity. */
  lemma EndOfSegment(tr: Trajectory, k: nat, j: nat)
    requires Valid(tr) && k < |tr.dt| && j < |tr.q[0]| && AxisJoins(tr, k, j)
    ensures SegmentAxis(tr, k, j, tr.dt[k]).q == tr.q[k + 1][j]
    ensures SegmentAxis(tr, k, j, tr.dt[k]).dq == tr.v0[k + 1][j]
  {
    SegmentEndpoints(tr.q[k][j], tr.q[k + 1][j], tr.v0[k][j], tr.v0[k + 1][j], tr.dt[k],
                     tr.ta[k][j], tr.td[k][j], tr.v[k][j], tr.a[k][j]);
  }

  /** The start time of segment k is inside the time range and digitizes to segment k. */
  lemma StartLocated(tr: Trajectory, k: nat)
    requires Valid(tr) && tr.t == StartTimes(tr.dt)
    requires forall i :: 0 <= i < |tr.dt| ==> 0.0 < tr.dt[i]
    requires k < |tr.dt|
    ensures ClippedTime(tr, tr.t[k]) == tr.t[k] && SegmentIndex(tr, tr.t[k]) == k
  {
    var n := |tr.dt|;
    StartTimesNonDecreasing(tr.dt);
    assert 0.0 <= tr.t[k] <= tr.t[n] by { assert tr.t[0] <= tr.t[k]; }
    assert tr.t[k] < tr.t[k + 1];
  }

  /** Axis j of __call__ is axis j of the segment the clipped query time falls in. */
  lemma AxisOf(tr: Trajectory, time: real, j: nat)
    requires Valid(tr) && j < |tr.q[0]|
    ensures var x := ClippedTime(tr, time); var i := SegmentIndex(tr, x);
      Evaluate(tr, time).q[j] == SegmentAxis(tr, i, j, x - tr.t[i]).q
      && Evaluate(tr, time).dq[j] == SegmentAxis(tr, i, j, x - tr.t[i]).dq
  {
  }

  /**
   * At the end time (and every later query, which is clipped to it) __call__ evaluates
   * the last segment at tau = dt: an axis that joins its phases there is at the last
   * waypoint with the last waypoint's velocity.
   */
  lemma AtFinalWaypoint(tr: Trajectory, time: real, j: nat)
    requires Valid(tr) && tr.t == StartTimes(tr.dt)
    requires forall i :: 0 <= i < |tr.dt| ==> 0.0 <= tr.dt[i]
    requires j < |tr.q[0]| && tr.t[|tr.dt|] <= time
    requires AxisJoins(tr, |tr.dt| - 1, j)
    ensures Evaluate(tr, time).q[j] == tr.q[|tr.dt|][j] && Evaluate(tr, time).dq[j] == tr.v0[|tr.dt|][j]
  {
    var n := |tr.dt|;
    var k := n - 1;
    StartTimesNonDecreasing(tr.dt);
    assert 0.0 <= tr.t[n] by { assert tr.t[0] <= tr.t[n]; }
    var x := ClippedTime(tr, time);
    assert x == tr.t[n];
    assert Digitize(x, tr.t) == n + 1;
    assert SegmentIndex(tr, x) == k;
    assert x - tr.t[k] == tr.dt[k];
    AxisOf(tr, time, j);
    EndOfSegment(tr, k, j);
  }

  /**
   * With the heuristic velocities, the dominant axis of every segment of a successful plan,
   * as written or corrected, joins its phases, so it starts the segment at its first
   * waypoint and ends it at its second.
   */
  lemma HeuristicDominantJoins(variant: Variant, q: seq<seq<real>>, dqMax: real, ddqMax: real, sqrt: real -> real,
                               tr: Trajectory, k: nat)
    requires Rectangular(q) && IsSqrt(sqrt)
    requires PlanSpec(variant, q, Heuristic(dqMax), ddqMax, sqrt) == Ok(tr) && k < |tr.dt|
    ensures k + 1 < |q|
    ensures var j := DominantAxis(q[k], q[k + 1]);
      Joins(tr.q[k][j], tr.q[k + 1][j], tr.v0[k][j], tr.v0[k + 1][j], tr.dt[k],
            tr.ta[k][j], tr.td[k][j], tr.v[k][j], tr.a[k][j])
  {
    PlannedRows(variant, q, Heuristic(dqMax), ddqMax, sqrt, tr, k);
    var v0 := HeuristicRows(q, dqMax);
    var j := DominantAxis(q[k], q[k + 1]);
    HeuristicAligned(q, dqMax, k, j);
    SolvedDominantColumnJoins(variant, q[k], q[k + 1], v0[k], v0[k + 1], dqMax, ddqMax, sqrt,
                              Solution(tr.dt[k], tr.ta[k], tr.td[k], tr.v[k], tr.a[k]), j);
  }

  /**
   * The constructor as written on two waypoints, from (0, 0) to (4, 3) at rest with
   * dq_max = 10 and ddq_max = 1: the plan has one segment of 4, and at its end __call__
   * puts axis 1 at 4 instead of its waypoint 3, because solve left it no ramps.
   */
  lemma PlanMissesWaypoint(sqrt: real -> real)
    requires IsSqrt(sqrt)
    ensures var r := PlanSpec(AsWritten, [[0.0, 0.0], [4.0, 3.0]], Heuristic(10.0), 1.0, sqrt);
      r.Ok? && r.value.t == [0.0, 4.0] && Evaluate(r.value, 4.0).q == [4.0, 4.0]
  {
    ExamplePlanEnd(AsWritten, sqrt);
    CoastingAxisMissesWaypoint(sqrt);
    var z := [0.0, 0.0];
    assert SolveWith(AsWritten, [0.0, 0.0], [4.0, 3.0], z, z, 10.0, 1.0, sqrt)
      == SolveSpec([0.0, 0.0], [4.0, 3.0], z, z, 10.0, 1.0, sqrt);
  }

  /** The same plan corrected: at the end of its segment both axes are at (4, 3). */
  lemma PlanReachesWaypoint(sqrt: real -> real)
    requires IsSqrt(sqrt)
    ensures var r := PlanSpec(Corrected, [[0.0, 0.0], [4.0, 3.0]], Heuristic(10.0), 1.0, sqrt);
      r.Ok? && r.value.t == [0.0, 4.0] && Evaluate(r.value, 4.0).q == [4.0, 3.0]
  {
    ExamplePlanEnd(Corrected, sqrt);
    CoordinatedAxisReachesWaypoint(sqrt);
    var z := [0.0, 0.0];
    assert SolveWith(Corrected, [0.0, 0.0], [4.0, 3.0], z, z, 10.0, 1.0, sqrt)
      == CoordinatedSolveSpec([0.0, 0.0], [4.0, 3.0], z, z, 10.0, 1.0, sqrt);
  }

  /**
   * At the end of the example plan's one segment axis 0 is at its waypoint 4 and axis 1 is
   * wherever the solution of the segment leaves it, as written or corrected.
   */
  lemma ExamplePlanEnd(variant: Variant, sqrt: real -> real)
    requires IsSqrt(sqrt)
    ensures var z := [0.0, 0.0];
      var r := PlanSpec(variant, [[0.0, 0.0], [4.0, 3.0]], Heuristic(10.0), 1.0, sqrt);
      var sol := SolveWith(variant, [0.0, 0.0], [4.0, 3.0], z, z, 10.0, 1.0, sqrt);
      && r.Ok? && r.value.t == [0.0, 4.0] && sol.Ok?
      && Evaluate(r.value, 4.0).q
         == [4.0, AxisState(0.0, 3.0, 0.0, 0.0, 4.0, sol.value.ta[1], sol.value.td[1], sol.value.v[1], sol.value.a[1], 4.0).q]
  {
    var z := [0.0, 0.0];
    ExampleTables(variant, sqrt);
    ExampleDominantColumn(variant, sqrt);
    var sol := SolveWith(variant, [0.0, 0.0], [4.0, 3.0], z, z, 10.0, 1.0, sqrt).value;
    ExampleEnd(TablesFrom([[0.0, 0.0], [4.0, 3.0]], [z, z], [sol]), sol);
  }

  /** Axis 0 of the example segment ramps for 2 on each side at rate 1, as written or corrected. */
  lemma ExampleDominantColumn(variant: Variant, sqrt: real -> real)
    requires IsSqrt(sqrt)
    ensures var z := [0.0, 0.0];
      var sol := SolveWith(variant, [0.0, 0.0], [4.0, 3.0], z, z, 10.0, 1.0, sqrt);
      sol.Ok? && SolutionShape(sol.value, 2) && sol.value.ta[0] == 2.0 && sol.value.td[0] == 2.0 && sol.value.a[0] == 1.0
  {
    FindingSegment(sqrt);
  }

  /** At time 4 the one-segment example plan is at the end of its segment on both axes. */
  lemma ExampleEnd(tr: Trajectory, sol: Solution)
    requires SolutionShape(sol, 2) && sol.dt == 4.0 && sol.ta[0] == 2.0 && sol.td[0] == 2.0 && sol.a[0] == 1.0
    requires tr == TablesFrom([[0.0, 0.0], [4.0, 3.0]], [[0.0, 0.0], [0.0, 0.0]], [sol])
    ensures Valid(tr) && tr.t == [0.0, 4.0]
    ensures Evaluate(tr, 4.0).q == [4.0, AxisState(0.0, 3.0, 0.0, 0.0, 4.0, sol.ta[1], sol.td[1], sol.v[1], sol.a[1], 4.0).q]
  {
    assert tr.dt == [4.0];
    EndOfExample(tr);
    assert SegmentAxis(tr, 0, 0, 4.0) == AxisState(0.0, 4.0, 0.0, 0.0, 4.0, 2.0, 2.0, sol.v[0], 1.0, 4.0);
    DecelerationEnd(sol.v[0]);
    assert SegmentAxis(tr, 0, 1, 4.0)
      == AxisState(0.0, 3.0, 0.0, 0.0, 4.0, sol.ta[1], sol.td[1], sol.v[1], sol.a[1], 4.0);
  }

  /** An axis decelerating over the last 2 of 4 at rate 1 ends at its waypoint 4. */
  lemma DecelerationEnd(v: real)
    ensures AxisState(0.0, 4.0, 0.0, 0.0, 4.0, 2.0, 2.0, v, 1.0, 4.0).q == 4.0
  {
  }

  /** The example plan is the tables of the one solution of its segment, at rest at both ends. */
  lemma ExampleTables(variant: Variant, sqrt: real -> real)
    requires IsSqrt(sqrt)
    ensures var q, z := [[0.0, 0.0], [4.0, 3.0]], [0.0, 0.0];
      var sol := SolveWith(variant, q[0], q[1], z, z, 10.0, 1.0, sqrt);
      && sol.Ok? && sol.value.dt == 4.0 && SolutionShape(sol.value, 2)
      && PlanSpec(variant, q, Heuristic(10.0), 1.0, sqrt) == Ok(TablesFrom(q, [z, z], [sol.value]))
  {
    var q, z := [[0.0, 0.0], [4.0, 3.0]], [0.0, 0.0];
    FindingSegment(sqrt);
    var v0 := HeuristicRows(q, 10.0);
    assert Zeros(2) == z;
    assert v0[0] == HeuristicRow(q, 0, 10.0) && v0[1] == HeuristicRow(q, 1, 10.0);
    assert v0 == [z, z];
    assert SegmentFeasible(q, v0, 0, 1.0);
    assert FirstInfeasible(q, v0, 1.0, 0) == None;
    var sol := SolveWith(variant, q[0], q[1], z, z, 10.0, 1.0, sqrt).value;
    assert Solutions(variant, q, v0, 10.0, 1.0, sqrt) == [sol];
  }

  /** __call__ at time 4 on a one-segment plan of duration 4 evaluates the segment at its end. */
  lemma EndOfExample(tr: Trajectory)
    requires Valid(tr) && tr.dt == [4.0] && tr.t == StartTimes(tr.dt) && |tr.q[0]| == 2
    ensures tr.t == [0.0, 4.0]
    ensures Evaluate(tr, 4.0).q == [SegmentAxis(tr, 0, 0, 4.0).q, SegmentAxis(tr, 0, 1, 4.0).q]
  {
    assert tr.t == [0.0, 4.0];
    assert ClippedTime(tr, 4.0) == 4.0;
    assert Digitize(4.0, tr.t) == 2;
    assert SegmentIndex(tr, 4.0) == 0;
  }
}
