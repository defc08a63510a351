/**
 * TrapezoidalTrajectory: plans a coordinated multi-axis motion through N waypoints,
 * one trapezoidal segment per pair of consecutive waypoints, and evaluates it at a
 * query time. Waypoints are rows (one entry per axis); the tables have one row per
 * segment.
 */
module Trapezoidal {
  import opened Wrappers
  import opened Variants
  import opened RealMath
  import opened Segment

  /** How the waypoint velocities are chosen: the heuristic with a limit dq_max, or given. */
  datatype Velocities = Heuristic(dqMax: real) | Given(dq: seq<seq<real>>)

  datatype PlanError =
    | TooFewWaypoints             // the constructor's len(q) > 1 assertion
    | VelocityShape               // given velocities that are not one row per waypoint and axis
    | NonPositiveVelocityLimit    // dq_max <= 0: solve would divide by it
    | NonPositiveAccelerationLimit
    | Infeasible(segment: nat)    // solve's assertion fails on this segment

  /**
   * The precomputed data of a trajectory: waypoints q, waypoint velocities v0, segment
   * durations dt, segment start times t (one more than segments), and per segment and
   * axis the ramp times ta, td, the coast velocity v and the acceleration a.
   */
  datatype Trajectory = Trajectory(q: seq<seq<real>>, v0: seq<seq<real>>, dt: seq<real>, t: seq<real>,
                                   ta: seq<seq<real>>, td: seq<seq<real>>, v: seq<seq<real>>, a: seq<seq<real>>)

  /** Position, velocity and acceleration of every axis at one instant. */
  datatype Sample = Sample(q: seq<real>, dq: seq<real>, ddq: seq<real>)

  /** Position, velocity and acceleration of one axis. */
  datatype State = State(q: real, dq: real, ddq: real)

  /** An N x M array with M >= 1. */
  predicate Rectangular(m: seq<seq<real>>)
  {
    forall r :: 0 <= r < |m| ==> 0 < |m[r]| == |m[0]|
  }

  function Zeros(n: nat): (r: seq<real>)
    ensures |r| == n && forall k :: 0 <= k < n ==> r[k] == 0.0
  {
    seq(n, _ => 0.0)
  }

  /**
   * The heuristic velocity of one axis at an interior waypoint, from the displacements
   * of the segments before and after it: dq_max in their common direction when both
   * move the same way, zero otherwise.
   */
  function AnticipatedVelocity(before: real, after: real, dqMax: real): (v: real)
  {
    if Sign(before) == Sign(after) then Sign(before) * dqMax else 0.0
  }

  /** One row of the heuristic: zero at the first and last waypoint. */
  function HeuristicRow(q: seq<seq<real>>, i: nat, dqMax: real): (r: seq<real>)
    requires Rectangular(q) && i < |q|
    ensures |r| == |q[0]|
  {
    if i == 0 || i == |q| - 1 then Zeros(|q[0]|)
    else seq(|q[0]|, j requires 0 <= j < |q[0]| => AnticipatedVelocity(q[i][j] - q[i - 1][j], q[i + 1][j] - q[i][j], dqMax))
  }

  /** The heuristic's rows as a value. */
  function HeuristicRows(q: seq<seq<real>>, dqMax: real): (r: seq<seq<real>>)
    requires Rectangular(q)
    ensures |r| == |q|
  {
    seq(|q|, i requires 0 <= i < |q| => HeuristicRow(q, i, dqMax))
  }

  /**
   * The velocity heuristic of __init__: starts from zeros and fills the interior rows
   * one by one.
   */
  method HeuristicVelocities(q: seq<seq<real>>, dqMax: real) returns (v0: seq<seq<real>>)
    requires Rectangular(q) && |q| >= 2
    ensures v0 == HeuristicRows(q, dqMax)
  {
    var rows := new seq<real>[|q|](_ => Zeros(|q[0]|));
    for i := 1 to |q| - 1
      invariant forall k :: 0 <= k < |q| ==>
        rows[k] == if k < i || k == |q| - 1 then HeuristicRow(q, k, dqMax) else Zeros(|q[0]|)
    {
      rows[i] := seq(|q[0]|, j requires 0 <= j < |q[0]| => AnticipatedVelocity(q[i][j] - q[i - 1][j], q[i + 1][j] - q[i][j], dqMax));
    }
    v0 := rows[..];
  }

  /** Given velocities have one row per waypoint and one entry per axis. */
  predicate GivenShape(q: seq<seq<real>>, dq: seq<seq<real>>)
    requires Rectangular(q) && |q| > 0
  {
    |dq| == |q| && forall r :: 0 <= r < |dq| ==> |dq[r]| == |q[0]|
  }

  /** The largest entry of a non-empty matrix (ndarray.max()). */
  function MaxEntry(m: seq<seq<real>>): (r: real)
    requires |m| > 0 && forall k :: 0 <= k < |m| ==> |m[k]| > 0
    ensures forall k, j :: 0 <= k < |m| && 0 <= j < |m[k]| ==> m[k][j] <= r
    ensures exists k, j :: 0 <= k < |m| && 0 <= j < |m[k]| && m[k][j] == r
  {
    var rowMax := seq(|m|, k requires 0 <= k < |m| => Max(m[k]));
    var k := ArgMax(rowMax);
    assert Max(m[k]) in m[k];
    var j :| 0 <= j < |m[k]| && m[k][j] == Max(m[k]);
    assert forall k', j' :: 0 <= k' < |m| && 0 <= j' < |m[k']| ==> m[k'][j'] <= rowMax[k'];
    rowMax[k]
  }

  /** The waypoint velocities and the velocity limit the segments are solved with. */
  function WaypointVelocities(q: seq<seq<real>>, vel: Velocities): (r: (seq<seq<real>>, real))
    requires Rectangular(q) && |q| > 0
    requires vel.Given? ==> GivenShape(q, vel.dq)
    ensures |r.0| == |q| && forall k :: 0 <= k < |q| ==> |r.0[k]| == |q[0]|
  {
    match vel
    case Heuristic(dqMax) => (HeuristicRows(q, dqMax), dqMax)
    case Given(dq) => (dq, MaxEntry(dq))
  }

  /** The input solve receives for segment k. */
  predicate SegmentFeasible(q: seq<seq<real>>, v0: seq<seq<real>>, k: nat, ddqMax: real)
    requires Rectangular(q) && |v0| == |q| && k + 1 < |q|
    requires forall r :: 0 <= r < |q| ==> |v0[r]| == |q[0]|
  {
    Feasible(q[k], q[k + 1], v0[k], v0[k + 1], ddqMax)
  }

  /** The first segment at or after `from` whose solve assertion fails, if any. */
  function FirstInfeasible(q: seq<seq<real>>, v0: seq<seq<real>>, ddqMax: real, from: nat): (r: Option<nat>)
    requires Rectangular(q) && |v0| == |q| && from < |q|
    requires forall k :: 0 <= k < |q| ==> |v0[k]| == |q[0]|
    ensures r.Some? ==> from <= r.value < |q| - 1 && !SegmentFeasible(q, v0, r.value, ddqMax)
    ensures r.Some? ==> forall k :: from <= k < r.value ==> SegmentFeasible(q, v0, k, ddqMax)
    ensures r.None? ==> forall k :: from <= k < |q| - 1 ==> SegmentFeasible(q, v0, k, ddqMax)
    decreases |q| - from
  {
    if from == |q| - 1 then None
    else if !SegmentFeasible(q, v0, from, ddqMax) then Some(from)
    else FirstInfeasible(q, v0, ddqMax, from + 1)
  }

  /** The solution solve (as written or corrected) gives segment k. */
  function SegmentSolution(variant: Variant, q: seq<seq<real>>, v0: seq<seq<real>>, k: nat, dqMax: real, ddqMax: real,
                           sqrt: real -> real): (sol: Solution)
    requires Rectangular(q) && |v0| == |q| && k + 1 < |q|
    requires forall r :: 0 <= r < |q| ==> |v0[r]| == |q[0]|
    requires dqMax > 0.0 && ddqMax > 0.0 && SegmentFeasible(q, v0, k, ddqMax)
    ensures SolutionShape(sol, |q[0]|)
  {
    SolveWith(variant, q[k], q[k + 1], v0[k], v0[k + 1], dqMax, ddqMax, sqrt).value
  }

  /** The five tables hold the solutions, one entry per segment. */
  predicate Tabulates(dt: seq<real>, ta: seq<seq<real>>, td: seq<seq<real>>, v: seq<seq<real>>, a: seq<seq<real>>,
                      sols: seq<Solution>)
  {
    && |dt| == |ta| == |td| == |v| == |a| == |sols|
    && forall k :: 0 <= k < |sols| ==>
         dt[k] == sols[k].dt && ta[k] == sols[k].ta && td[k] == sols[k].td && v[k] == sols[k].v && a[k] == sols[k].a
  }

  /** The tables __init__ fills from the solutions of its segments. */
  function TablesFrom(q: seq<seq<real>>, v0: seq<seq<real>>, sols: seq<Solution>): (tr: Trajectory)
    requires Rectangular(q) && |q| == |sols| + 1 && |sols| >= 1 && |v0| == |q|
    requires forall r :: 0 <= r < |q| ==> |v0[r]| == |q[0]|
    requires forall k :: 0 <= k < |sols| ==> SolutionShape(sols[k], |q[0]|)
    ensures Valid(tr) && tr.q == q && tr.v0 == v0 && tr.t == StartTimes(tr.dt)
    ensures Tabulates(tr.dt, tr.ta, tr.td, tr.v, tr.a, sols)
  {
    var dt := seq(|sols|, k requires 0 <= k < |sols| => sols[k].dt);
    Trajectory(q, v0, dt, StartTimes(dt), Table(sols, TA, |q[0]|), Table(sols, TD, |q[0]|),
               Table(sols, V, |q[0]|), Table(sols, A, |q[0]|))
  }

  /** The per-axis rows a solution holds. */
  datatype Row = TA | TD | V | A

  function RowOf(sol: Solution, f: Row): (r: seq<real>)
    ensures r == sol.ta || r == sol.td || r == sol.v || r == sol.a
  {
    match f
    case TA => sol.ta
    case TD => sol.td
    case V => sol.v
    case A => sol.a
  }

  /** One table of __init__: row k is the chosen row of solution k. */
  function Table(sols: seq<Solution>, f: Row, m: nat): (tbl: seq<seq<real>>)
    requires forall k :: 0 <= k < |sols| ==> SolutionShape(sols[k], m)
    ensures |tbl| == |sols|
    ensures forall k :: 0 <= k < |sols| ==> tbl[k] == RowOf(sols[k], f) && |tbl[k]| == m
  {
    var tbl := seq(|sols|, k requires 0 <= k < |sols| => RowOf(sols[k], f));
    assert forall k :: 0 <= k < |sols| ==> tbl[k] == RowOf(sols[k], f) && SolutionShape(sols[k], m);
    tbl
  }

  /** The solutions of all segments, when every segment is feasible. */
  function Solutions(variant: Variant, q: seq<seq<real>>, v0: seq<seq<real>>, dqMax: real, ddqMax: real, sqrt: real -> real): (sols: seq<Solution>)
    requires Rectangular(q) && |q| >= 2 && |v0| == |q|
    requires forall r :: 0 <= r < |q| ==> |v0[r]| == |q[0]|
    requires dqMax > 0.0 && ddqMax > 0.0
    requires forall k :: 0 <= k < |q| - 1 ==> SegmentFeasible(q, v0, k, ddqMax)
    ensures |sols| == |q| - 1
    ensures forall k :: 0 <= k < |sols| ==> SolutionShape(sols[k], |q[0]|)
  {
    seq(|q| - 1, k requires 0 <= k < |q| - 1 => SegmentSolution(variant, q, v0, k, dqMax, ddqMax, sqrt))
  }

  /** What the constructor produces, or the error it stops with (as written, or corrected). */
  function PlanSpec(variant: Variant, q: seq<seq<real>>, vel: Velocities, ddqMax: real, sqrt: real -> real): (r: Result<Trajectory, PlanError>)
    requires Rectangular(q)
    ensures r.Ok? ==> Valid(r.value) && r.value.q == q && |r.value.dt| == |q| - 1
  {
    if |q| < 2 then Err(TooFewWaypoints)
    else if vel.Given? && !GivenShape(q, vel.dq) then Err(VelocityShape)
    else
      var (v0, dqMax) := WaypointVelocities(q, vel);
      if dqMax <= 0.0 then Err(NonPositiveVelocityLimit)
      else if ddqMax <= 0.0 then Err(NonPositiveAccelerationLimit)
      else SegmentsSpec(variant, q, v0, dqMax, ddqMax, sqrt)
  }

  /**
   * TrapezoidalTrajectory.__init__: chooses the waypoint velocities, solves every
   * segment into the preallocated tables row by row, then accumulates the start times.
   * Plan(AsWritten, ...) is the constructor as written; Plan(Corrected, ...) solves
   * every segment with the ramp times of every axis filled in.
   */
  method Plan(variant: Variant, q: seq<seq<real>>, vel: Velocities, ddqMax: real, sqrt: real -> real) returns (r: Result<Trajectory, PlanError>)
    requires Rectangular(q)
    ensures r == PlanSpec(variant, q, vel, ddqMax, sqrt)
  {
    if |q| < 2 {
      return Err(TooFewWaypoints);
    }
    var v0: seq<seq<real>>;
    var dqMax: real;
    match vel {
      case Heuristic(limit) =>
        v0 := HeuristicVelocities(q, limit);
        dqMax := limit;
      case Given(dq) =>
        if !GivenShape(q, dq) {
          return Err(VelocityShape);
        }
        v0 := dq;
        dqMax := MaxEntry(dq);
    }
    assert (v0, dqMax) == WaypointVelocities(q, vel);
    if dqMax <= 0.0 {
      return Err(NonPositiveVelocityLimit);
    }
    if ddqMax <= 0.0 {
      return Err(NonPositiveAccelerationLimit);
    }
    r := SolveSegments(variant, q, v0, dqMax, ddqMax, sqrt);
  }

  /** What the segment loop of __init__ produces, or the first failing segment. */
  function SegmentsSpec(variant: Variant, q: seq<seq<real>>, v0: seq<seq<real>>, dqMax: real, ddqMax: real, sqrt: real -> real)
    : (r: Result<Trajectory, PlanError>)
    requires Rectangular(q) && |q| >= 2 && |v0| == |q|
    requires forall r :: 0 <= r < |q| ==> |v0[r]| == |q[0]|
    requires dqMax > 0.0 && ddqMax > 0.0
    ensures r.Ok? ==> Valid(r.value) && r.value.q == q && r.value.v0 == v0 && |r.value.dt| == |q| - 1
    ensures r.Err? ==> r.error.Infeasible? && r.error.segment < |q| - 1
  {
    match FirstInfeasible(q, v0, ddqMax, 0)
    case Some(k) => Err(Infeasible(k))
    case None => Ok(TablesFrom(q, v0, Solutions(variant, q, v0, dqMax, ddqMax, sqrt)))
  }

  /**
   * The segment loop of __init__: solves segment k into row k of the preallocated tables,
   * stopping at the first segment whose solve assertion fails; then the start times.
   */
  method SolveSegments(variant: Variant, q: seq<seq<real>>, v0: seq<seq<real>>, dqMax: real, ddqMax: real, sqrt: real -> real)
    returns (r: Result<Trajectory, PlanError>)
    requires Rectangular(q) && |q| >= 2 && |v0| == |q|
    requires forall r :: 0 <= r < |q| ==> |v0[r]| == |q[0]|
    requires dqMax > 0.0 && ddqMax > 0.0
    ensures r == SegmentsSpec(variant, q, v0, dqMax, ddqMax, sqrt)
  {
    var m := |q[0]|;
    var n := |q| - 1;
    var dt := seq(n, _ => 0.0);
    var ta, td, v, a := seq(n, _ => Zeros(m)), seq(n, _ => Zeros(m)), seq(n, _ => Zeros(m)), seq(n, _ => Zeros(m));
    ghost var sols: seq<Solution> := [];
    for k := 0 to n
      invariant |sols| == k && |dt| == n && |ta| == n && |td| == n && |v| == n && |a| == n
      invariant SolvedUpTo(variant, q, v0, dqMax, ddqMax, sqrt, sols)
      invariant forall j :: 0 <= j < k ==>
        dt[j] == sols[j].dt && ta[j] == sols[j].ta && td[j] == sols[j].td && v[j] == sols[j].v && a[j] == sols[j].a
    {
      var sol := SolveSegment(variant, q, v0, dqMax, ddqMax, sqrt, k, sols);
      if sol.Err? {
        return Err(Infeasible(k));
      }
      RowStep(dt, ta, td, v, a, sols, sol.value);
      dt, ta, td, v, a := dt[k := sol.value.dt], ta[k := sol.value.ta], td[k := sol.value.td], v[k := sol.value.v], a[k := sol.value.a];
      sols := sols + [sol.value];
    }
    var t := CumulativeTimes(dt);
    SegmentsSolved(variant, q, v0, dqMax, ddqMax, sqrt, sols, dt, ta, td, v, a);
    r := Ok(Trajectory(q, v0, dt, t, ta, td, v, a));
  }

  /** When the loop has solved every segment, its tables are the planned trajectory. */
  lemma SegmentsSolved(variant: Variant, q: seq<seq<real>>, v0: seq<seq<real>>, dqMax: real, ddqMax: real, sqrt: real -> real,
                       sols: seq<Solution>, dt: seq<real>, ta: seq<seq<real>>, td: seq<seq<real>>,
                       v: seq<seq<real>>, a: seq<seq<real>>)
    requires Rectangular(q) && |q| >= 2 && |v0| == |q|
    requires forall r :: 0 <= r < |q| ==> |v0[r]| == |q[0]|
    requires dqMax > 0.0 && ddqMax > 0.0 && |sols| == |q| - 1
    requires SolvedUpTo(variant, q, v0, dqMax, ddqMax, sqrt, sols) && Tabulates(dt, ta, td, v, a, sols)
    ensures SegmentsSpec(variant, q, v0, dqMax, ddqMax, sqrt) == Ok(Trajectory(q, v0, dt, StartTimes(dt), ta, td, v, a))
  {
    SolvedSegments(variant, q, v0, dqMax, ddqMax, sqrt, sols);
    TablesOf(q, v0, sols, dt, ta, td, v, a);
  }

  /** Tables whose rows are those of the solutions are the ones TablesFrom builds. */
  lemma TablesOf(q: seq<seq<real>>, v0: seq<seq<real>>, sols: seq<Solution>,
                 dt: seq<real>, ta: seq<seq<real>>, td: seq<seq<real>>, v: seq<seq<real>>, a: seq<seq<real>>)
    requires Rectangular(q) && |q| == |sols| + 1 && |sols| >= 1 && |v0| == |q|
    requires forall r :: 0 <= r < |q| ==> |v0[r]| == |q[0]|
    requires forall k :: 0 <= k < |sols| ==> SolutionShape(sols[k], |q[0]|)
    requires Tabulates(dt, ta, td, v, a, sols)
    ensures TablesFrom(q, v0, sols) == Trajectory(q, v0, dt, StartTimes(dt), ta, td, v, a)
  {
    TablesEqual(TablesFrom(q, v0, sols), q, v0, sols, dt, ta, td, v, a);
  }

  /** Two sets of tables that hold the same solutions, waypoints and start times are equal. */
  lemma TablesEqual(tr: Trajectory, q: seq<seq<real>>, v0: seq<seq<real>>, sols: seq<Solution>,
                    dt: seq<real>, ta: seq<seq<real>>, td: seq<seq<real>>, v: seq<seq<real>>, a: seq<seq<real>>)
    requires tr.q == q && tr.v0 == v0 && tr.t == StartTimes(tr.dt)
    requires Tabulates(tr.dt, tr.ta, tr.td, tr.v, tr.a, sols) && Tabulates(dt, ta, td, v, a, sols)
    ensures tr == Trajectory(q, v0, dt, StartTimes(dt), ta, td, v, a)
  {
    SameDurations(tr.dt, tr.ta, tr.td, tr.v, tr.a, dt, ta, td, v, a, sols);
    SameRampsUp(tr.dt, tr.ta, tr.td, tr.v, tr.a, dt, ta, td, v, a, sols);
    SameRampsDown(tr.dt, tr.ta, tr.td, tr.v, tr.a, dt, ta, td, v, a, sols);
    SamePeaks(tr.dt, tr.ta, tr.td, tr.v, tr.a, dt, ta, td, v, a, sols);
    SameAccelerations(tr.dt, tr.ta, tr.td, tr.v, tr.a, dt, ta, td, v, a, sols);
  }

  lemma SameDurations(dt: seq<real>, ta: seq<seq<real>>, td: seq<seq<real>>, v: seq<seq<real>>, a: seq<seq<real>>,
                      dt': seq<real>, ta': seq<seq<real>>, td': seq<seq<real>>, v': seq<seq<real>>, a': seq<seq<real>>,
                      sols: seq<Solution>)
    requires Tabulates(dt, ta, td, v, a, sols) && Tabulates(dt', ta', td', v', a', sols)
    ensures dt == dt'
  {
    Extensional(dt, dt');
  }

  lemma SameRampsUp(dt: seq<real>, ta: seq<seq<real>>, td: seq<seq<real>>, v: seq<seq<real>>, a: seq<seq<real>>,
                    dt': seq<real>, ta': seq<seq<real>>, td': seq<seq<real>>, v': seq<seq<real>>, a': seq<seq<real>>,
                    sols: seq<Solution>)
    requires Tabulates(dt, ta, td, v, a, sols) && Tabulates(dt', ta', td', v', a', sols)
    ensures ta == ta'
  {
    Extensional(ta, ta');
  }

  lemma SameRampsDown(dt: seq<real>, ta: seq<seq<real>>, td: seq<seq<real>>, v: seq<seq<real>>, a: seq<seq<real>>,
                      dt': seq<real>, ta': seq<seq<real>>, td': seq<seq<real>>, v': seq<seq<real>>, a': seq<seq<real>>,
                      sols: seq<Solution>)
    requires Tabulates(dt, ta, td, v, a, sols) && Tabulates(dt', ta', td', v', a', sols)
    ensures td == td'
  {
    Extensional(td, td');
  }

  lemma SamePeaks(dt: seq<real>, ta: seq<seq<real>>, td: seq<seq<real>>, v: seq<seq<real>>, a: seq<seq<real>>,
                  dt': seq<real>, ta': seq<seq<real>>, td': seq<seq<real>>, v': seq<seq<real>>, a': seq<seq<real>>,
                  sols: seq<Solution>)
    requires Tabulates(dt, ta, td, v, a, sols) && Tabulates(dt', ta', td', v', a', sols)
    ensures v == v'
  {
    Extensional(v, v');
  }

  lemma SameAccelerations(dt: seq<real>, ta: seq<seq<real>>, td: seq<seq<real>>, v: seq<seq<real>>, a: seq<seq<real>>,
                          dt': seq<real>, ta': seq<seq<real>>, td': seq<seq<real>>, v': seq<seq<real>>, a': seq<seq<real>>,
                          sols: seq<Solution>)
    requires Tabulates(dt, ta, td, v, a, sols) && Tabulates(dt', ta', td', v', a', sols)
    ensures a == a'
  {
    Extensional(a, a');
  }

  lemma Extensional<T>(x: seq<T>, y: seq<T>)
    requires |x| == |y| && forall k :: 0 <= k < |x| ==> x[k] == y[k]
    ensures x == y
  {
  }

  /** Solutions that solve returned for every segment are the planned ones. */
  lemma SolvedSegments(variant: Variant, q: seq<seq<real>>, v0: seq<seq<real>>, dqMax: real, ddqMax: real, sqrt: real -> real,
                       sols: seq<Solution>)
    requires Rectangular(q) && |q| >= 2 && |v0| == |q|
    requires forall r :: 0 <= r < |q| ==> |v0[r]| == |q[0]|
    requires dqMax > 0.0 && ddqMax > 0.0 && |sols| == |q| - 1
    requires forall j :: 0 <= j < |q| - 1 ==> SolveWith(variant, q[j], q[j + 1], v0[j], v0[j + 1], dqMax, ddqMax, sqrt) == Ok(sols[j])
    ensures forall j :: 0 <= j < |q| - 1 ==> SegmentFeasible(q, v0, j, ddqMax)
    ensures sols == Solutions(variant, q, v0, dqMax, ddqMax, sqrt)
  {
  }

  /**
   * One iteration's solve: segment k = |sols| between waypoints k and k + 1. It fails exactly
   * where the planner does, and otherwise extends the solved prefix.
   */
  method SolveSegment(variant: Variant, q: seq<seq<real>>, v0: seq<seq<real>>, dqMax: real, ddqMax: real, sqrt: real -> real,
                      k: nat, ghost sols: seq<Solution>) returns (r: Result<Solution, SolveError>)
    requires Rectangular(q) && |q| >= 2 && |v0| == |q| && k == |sols| && k + 1 < |q|
    requires forall r :: 0 <= r < |q| ==> |v0[r]| == |q[0]|
    requires dqMax > 0.0 && ddqMax > 0.0
    requires SolvedUpTo(variant, q, v0, dqMax, ddqMax, sqrt, sols)
    ensures r.Err? ==> SegmentsSpec(variant, q, v0, dqMax, ddqMax, sqrt) == Err(Infeasible(k))
    ensures r.Ok? ==> SolvedUpTo(variant, q, v0, dqMax, ddqMax, sqrt, sols + [r.value])
  {
    match variant {
      case AsWritten => r := Solve(q[k], q[k + 1], v0[k], v0[k + 1], dqMax, ddqMax, sqrt);
      case Corrected => r := SolveCoordinated(q[k], q[k + 1], v0[k], v0[k + 1], dqMax, ddqMax, sqrt);
    }
    if r.Err? {
      StopsAt(variant, q, v0, dqMax, ddqMax, sqrt, sols);
    } else {
      SolvedStep(variant, q, v0, dqMax, ddqMax, sqrt, sols, r.value);
    }
  }

  /** Writing the next solution into row |sols| of the tables extends the rows that hold the solutions. */
  lemma RowStep(dt: seq<real>, ta: seq<seq<real>>, td: seq<seq<real>>, v: seq<seq<real>>, a: seq<seq<real>>,
                sols: seq<Solution>, sol: Solution)
    requires |sols| < |dt| == |ta| == |td| == |v| == |a|
    requires forall j :: 0 <= j < |sols| ==>
      dt[j] == sols[j].dt && ta[j] == sols[j].ta && td[j] == sols[j].td && v[j] == sols[j].v && a[j] == sols[j].a
    ensures var k, sols' := |sols|, sols + [sol];
      forall j :: 0 <= j < k + 1 ==>
        && dt[k := sol.dt][j] == sols'[j].dt && ta[k := sol.ta][j] == sols'[j].ta && td[k := sol.td][j] == sols'[j].td
        && v[k := sol.v][j] == sols'[j].v && a[k := sol.a][j] == sols'[j].a
  {
  }

  /** The segments before |sols| are feasible and solve to sols, in order. */
  predicate SolvedUpTo(variant: Variant, q: seq<seq<real>>, v0: seq<seq<real>>, dqMax: real, ddqMax: real, sqrt: real -> real,
                       sols: seq<Solution>)
    requires Rectangular(q) && |v0| == |q| && |sols| < |q|
    requires forall r :: 0 <= r < |q| ==> |v0[r]| == |q[0]|
    requires dqMax > 0.0 && ddqMax > 0.0
  {
    && FirstInfeasible(q, v0, ddqMax, 0) == FirstInfeasible(q, v0, ddqMax, |sols|)
    && forall j :: 0 <= j < |sols| ==> SolveWith(variant, q[j], q[j + 1], v0[j], v0[j + 1], dqMax, ddqMax, sqrt) == Ok(sols[j])
  }

  /** Solving one more feasible segment extends the solved prefix. */
  lemma SolvedStep(variant: Variant, q: seq<seq<real>>, v0: seq<seq<real>>, dqMax: real, ddqMax: real, sqrt: real -> real,
                   sols: seq<Solution>, sol: Solution)
    requires Rectangular(q) && |v0| == |q| && |sols| + 1 < |q|
    requires forall r :: 0 <= r < |q| ==> |v0[r]| == |q[0]|
    requires dqMax > 0.0 && ddqMax > 0.0
    requires SolvedUpTo(variant, q, v0, dqMax, ddqMax, sqrt, sols)
    requires SolveWith(variant, q[|sols|], q[|sols| + 1], v0[|sols|], v0[|sols| + 1], dqMax, ddqMax, sqrt) == Ok(sol)
    ensures SolvedUpTo(variant, q, v0, dqMax, ddqMax, sqrt, sols + [sol])
  {
    SegmentStep(variant, q, v0, dqMax, ddqMax, sqrt, |sols|);
  }

  /** When the segments before k = |sols| are feasible and segment k is not, the planner fails at k. */
  lemma StopsAt(variant: Variant, q: seq<seq<real>>, v0: seq<seq<real>>, dqMax: real, ddqMax: real, sqrt: real -> real, sols: seq<Solution>)
    requires Rectangular(q) && |q| >= 2 && |v0| == |q| && |sols| + 1 < |q|
    requires forall r :: 0 <= r < |q| ==> |v0[r]| == |q[0]|
    requires dqMax > 0.0 && ddqMax > 0.0
    requires SolvedUpTo(variant, q, v0, dqMax, ddqMax, sqrt, sols)
    requires SolveWith(variant, q[|sols|], q[|sols| + 1], v0[|sols|], v0[|sols| + 1], dqMax, ddqMax, sqrt).Err?
    ensures SegmentsSpec(variant, q, v0, dqMax, ddqMax, sqrt) == Err(Infeasible(|sols|))
  {
    SegmentStep(variant, q, v0, dqMax, ddqMax, sqrt, |sols|);
  }

  /** Segment k fails to solve exactly when it is the first infeasible segment from k on. */
  lemma SegmentStep(variant: Variant, q: seq<seq<real>>, v0: seq<seq<real>>, dqMax: real, ddqMax: real, sqrt: real -> real, k: nat)
    requires Rectangular(q) && |v0| == |q| && k + 1 < |q|
    requires forall r :: 0 <= r < |q| ==> |v0[r]| == |q[0]|
    requires dqMax > 0.0 && ddqMax > 0.0
    ensures SolveWith(variant, q[k], q[k + 1], v0[k], v0[k + 1], dqMax, ddqMax, sqrt).Err? ==>
      FirstInfeasible(q, v0, ddqMax, k) == Some(k)
    ensures SolveWith(variant, q[k], q[k + 1], v0[k], v0[k + 1], dqMax, ddqMax, sqrt).Ok? ==>
      FirstInfeasible(q, v0, ddqMax, k) == FirstInfeasible(q, v0, ddqMax, k + 1)
  {
  }

  /** The shape every constructed trajectory has. */
  predicate Valid(tr: Trajectory)
  {
    var n := |tr.dt|;
    && n >= 1 && |tr.q| == n + 1 && Rectangular(tr.q)
    && |tr.v0| == n + 1 && |tr.t| == n + 1
    && |tr.ta| == n && |tr.td| == n && |tr.v| == n && |tr.a| == n
    && (forall k :: 0 <= k <= n ==> |tr.v0[k]| == |tr.q[0]|)
    && (forall k :: 0 <= k < n ==> |tr.ta[k]| == |tr.q[0]| && |tr.td[k]| == |tr.q[0]|)
    && (forall k :: 0 <= k < n ==> |tr.v[k]| == |tr.q[0]| && |tr.a[k]| == |tr.q[0]|)
  }

  /** Position during the acceleration phase, from the segment start. */
  function AccelPosition(q0: real, v0: real, a: real, tau: real): (pos: real)
  {
    q0 + v0 * tau + 0.5 * a * tau * tau
  }

  /** Position during the coast phase. */
  function CoastPosition(q0: real, v0: real, ta: real, v: real, tau: real): (pos: real)
  {
    q0 + v0 * ta * 0.5 + v * (tau - ta * 0.5)
  }

  /** Position during the deceleration phase, back from the segment end. */
  function DecelPosition(q1: real, v1: real, a: real, dt: real, tau: real): (pos: real)
  {
    q1 - v1 * (dt - tau) - 0.5 * a * (dt - tau) * (dt - tau)
  }

  /**
   * One axis of __call__ at time tau into a segment: the sum of the three phase
   * formulas, each weighted by its mask (tau < ta, tau > dt - td, neither).
   */
  function AxisState(q0: real, q1: real, v0: real, v1: real, dt: real,
                     ta: real, td: real, v: real, a: real, tau: real): State
  {
    var isa := Mask(tau < ta);
    var isd := Mask(tau > dt - td);
    var isl := Mask(!(tau < ta) && !(tau > dt - td));
    State(AccelPosition(q0, v0, a, tau) * isa + CoastPosition(q0, v0, ta, v, tau) * isl + DecelPosition(q1, v1, a, dt, tau) * isd,
          (v0 + a * tau) * isa + v * isl + (v1 + a * (dt - tau)) * isd,
          a * isa + 0.0 * isl + -a * isd)
  }

  /** Axis j of segment i at time tau into it. */
  function SegmentAxis(tr: Trajectory, i: nat, j: nat, tau: real): (st: State)
    requires Valid(tr) && i < |tr.dt| && j < |tr.q[0]|
  {
    AxisState(tr.q[i][j], tr.q[i + 1][j], tr.v0[i][j], tr.v0[i + 1][j], tr.dt[i],
              tr.ta[i][j], tr.td[i][j], tr.v[i][j], tr.a[i][j], tau)
  }

  /** The segment a (clipped) query time falls in: digitize over the start times, less one, clipped. */
  function SegmentIndex(tr: Trajectory, x: real): (i: nat)
    requires Valid(tr)
    ensures i < |tr.dt|
  {
    ClipIndex(Digitize(x, tr.t) - 1, 0, |tr.dt| - 1)
  }

  /** The query time clipped to [0, t[-1]]. */
  function ClippedTime(tr: Trajectory, time: real): (x: real)
    requires Valid(tr)
  {
    Clip(time, 0.0, tr.t[|tr.dt|])
  }

  /** TrapezoidalTrajectory.__call__ at one query time. */
  function Evaluate(tr: Trajectory, time: real): (s: Sample)
    requires Valid(tr)
    ensures |s.q| == |tr.q[0]| && |s.dq| == |tr.q[0]| && |s.ddq| == |tr.q[0]|
  {
    var x := ClippedTime(tr, time);
    var i := SegmentIndex(tr, x);
    var tau := x - tr.t[i];
    var m := |tr.q[0]|;
    Sample(seq(m, j requires 0 <= j < m => SegmentAxis(tr, i, j, tau).q),
           seq(m, j requires 0 <= j < m => SegmentAxis(tr, i, j, tau).dq),
           seq(m, j requires 0 <= j < m => SegmentAxis(tr, i, j, tau).ddq))
  }
}
