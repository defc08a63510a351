/**
 * ApproximateTrapezoidalTrajectory: a linear-parabolic-blend trajectory that moves
 * along straight segments between the waypoints at constant velocity and blends
 * between consecutive segments with constant acceleration. The interior waypoints are
 * passed near, not through; the first and the last are repeated so that the motion
 * starts and ends at rest.
 */
module Approximate {
  import opened Wrappers
  import opened Variants
  import opened RealMath

  /** Segment durations: derived from a velocity limit dq_max, or given one per segment. */
  datatype Durations = Derived(dqMax: real) | Explicit(dt: seq<real>)

  datatype BuildError =
    | TooFewWaypoints               // the constructor's len(q) > 1 assertion
    | DurationShape                 // given durations that are not one per segment
    | NonPositiveVelocityLimit      // dq_max <= 0
    | NonPositiveAccelerationLimit  // ddq_max <= 0
    | InfeasibleTrajectory          // 'Trajectory not feasible.' (or NaN from a zero duration)

  /**
   * The precomputed data: the padded waypoints q (N + 2 rows), the velocities dq of the
   * N + 1 linear segments between them, and per blend (one per original waypoint) the
   * blend time tb and the acceleration ddq; the waypoint times t, the start and total
   * times, and the N - 1 bin edges that select the blend window of a query time.
   */
  datatype Blended = Blended(q: seq<seq<real>>, dq: seq<seq<real>>, tb: seq<real>, ddq: seq<seq<real>>,
                             t: seq<real>, startTime: real, totalTime: real, bins: seq<real>)

  /** Position, velocity and acceleration of every axis at one instant. */
  datatype Sample = Sample(q: seq<real>, dq: seq<real>, ddq: seq<real>)

  /** Position, velocity and acceleration of one axis. */
  datatype State = State(q: real, dq: real, ddq: real)

  /** Every row has w entries. */
  predicate Table(m: seq<seq<real>>, w: nat)
  {
    forall k :: 0 <= k < |m| ==> |m[k]| == w
  }

  /** N waypoints in M >= 1 coordinates. */
  predicate Waypoints(q: seq<seq<real>>)
  {
    |q| > 0 && |q[0]| > 0 && Table(q, |q[0]|)
  }

  /** |q[k+1] - q[k]| / dq_max: per axis, the time segment k takes at speed dq_max. */
  function AxisDurations(q: seq<seq<real>>, k: nat, dqMax: real): (r: seq<real>)
    requires Waypoints(q) && k + 1 < |q| && dqMax > 0.0
    ensures |r| == |q[0]|
    ensures forall j :: 0 <= j < |q[0]| ==> r[j] == Abs(q[k + 1][j] - q[k][j]) / dqMax
  {
    seq(|q[0]|, j requires 0 <= j < |q[0]| => Abs(q[k + 1][j] - q[k][j]) / dqMax)
  }

  /**
   * dt = amax(|diff(q)| / dq_max, axis=1): each segment takes as long as its slowest
   * axis needs at speed dq_max.
   */
  function DerivedDurations(q: seq<seq<real>>, dqMax: real): (dt: seq<real>)
    requires Waypoints(q) && dqMax > 0.0
    ensures |dt| == |q| - 1
    ensures forall k, j :: 0 <= k < |dt| && 0 <= j < |q[0]| ==> AxisDurations(q, k, dqMax)[j] <= dt[k]
    ensures forall k :: 0 <= k < |dt| ==> dt[k] in AxisDurations(q, k, dqMax)
  {
    seq(|q| - 1, k requires 0 <= k < |q| - 1 => Max(AxisDurations(q, k, dqMax)))
  }

  /** concatenate(([1], dt, [1])): the durations of the two artificial segments are 1. */
  function PaddedDurations(dt: seq<real>): (d: seq<real>)
    ensures |d| == |dt| + 2 && d[0] == 1.0 && d[|dt| + 1] == 1.0
    ensures forall k :: 1 <= k <= |dt| ==> d[k] == dt[k - 1]
  {
    [1.0] + dt + [1.0]
  }

  /** concatenate(([q[0]], q, [q[-1]])): the first and last waypoint repeated. */
  function Padded(q: seq<seq<real>>): (p: seq<seq<real>>)
    requires |q| > 0
    ensures |p| == |q| + 2 && p[0] == q[0] && p[|q| + 1] == q[|q| - 1]
    ensures forall k :: 1 <= k <= |q| ==> p[k] == q[k - 1]
  {
    [q[0]] + q + [q[|q| - 1]]
  }

  /** diff(q, axis=0) / dt: the velocity of every linear segment. */
  function SegmentVelocities(p: seq<seq<real>>, d: seq<real>, m: nat): (v: seq<seq<real>>)
    requires |p| == |d| + 1 && Table(p, m)
    requires forall k :: 0 <= k < |d| ==> d[k] != 0.0
    ensures |v| == |d| && Table(v, m)
    ensures forall k, j :: 0 <= k < |d| && 0 <= j < m ==> v[k][j] == (p[k + 1][j] - p[k][j]) / d[k]
  {
    seq(|d|, k requires 0 <= k < |d| => seq(m, j requires 0 <= j < m => (p[k + 1][j] - p[k][j]) / d[k]))
  }

  /** |diff(dq, axis=0)| / ddq_max: per blend and axis, the time the change of velocity takes. */
  function AxisBlendTimes(v: seq<seq<real>>, m: nat, ddqMax: real): (tb: seq<seq<real>>)
    requires |v| > 0 && Table(v, m) && ddqMax > 0.0
    ensures |tb| == |v| - 1 && Table(tb, m)
    ensures forall k, j :: 0 <= k < |tb| && 0 <= j < m ==> tb[k][j] == Abs(v[k + 1][j] - v[k][j]) / ddqMax
  {
    seq(|v| - 1, k requires 0 <= k < |v| - 1 => seq(m, j requires 0 <= j < m => Abs(v[k + 1][j] - v[k][j]) / ddqMax))
  }

  /** amax(tb, axis=1): every blend lasts as long as its slowest axis needs. */
  function BlendTimes(tb: seq<seq<real>>, m: nat): (r: seq<real>)
    requires Table(tb, m) && m > 0
    ensures |r| == |tb|
    ensures forall k, j :: 0 <= k < |tb| && 0 <= j < m ==> tb[k][j] <= r[k]
    ensures forall k :: 0 <= k < |tb| ==> r[k] in tb[k]
  {
    seq(|tb|, k requires 0 <= k < |tb| => Max(tb[k]))
  }

  /** The feasibility assertion: two consecutive blends fit into the segment between them. */
  predicate BlendsFit(tb: seq<real>, dt: seq<real>)
    requires |tb| == |dt| + 1
  {
    forall k :: 0 <= k < |dt| ==> tb[k] + tb[k + 1] <= 2.0 * dt[k]
  }

  /**
   * diff(dq, axis=0) / tb, with the rows of zero blend time (0 / 0 in the source) set
   * to zero afterwards.
   */
  function BlendAccelerations(v: seq<seq<real>>, tb: seq<real>, m: nat): (a: seq<seq<real>>)
    requires |v| == |tb| + 1 && Table(v, m)
    ensures |a| == |tb| && Table(a, m)
    ensures forall k, j :: 0 <= k < |tb| && 0 <= j < m ==>
      a[k][j] == if tb[k] == 0.0 then 0.0 else (v[k + 1][j] - v[k][j]) / tb[k]
  {
    seq(|tb|, k requires 0 <= k < |tb| =>
      if tb[k] == 0.0 then seq(m, _ => 0.0)
      else seq(m, j requires 0 <= j < m => (v[k + 1][j] - v[k][j]) / tb[k]))
  }

  /** t[:-1] + (dt - tb[1:] / 2): where the linear part of segment k ends and blend k + 1 starts. */
  function Bins(t: seq<real>, dt: seq<real>, tb: seq<real>): (bins: seq<real>)
    requires |t| == |dt| + 1 && |tb| == |dt| + 1
    ensures |bins| == |dt|
    ensures forall k {:trigger bins[k]} :: 0 <= k < |dt| ==> bins[k] == t[k] + (dt[k] - tb[k + 1] * 0.5)
  {
    seq(|dt|, k requires 0 <= k < |dt| => t[k] + (dt[k] - tb[k + 1] * 0.5))
  }

  /** The start of the first blend. */
  function StartTime(tb: seq<real>): (start: real)
    requires |tb| > 0
  {
    -tb[0] * 0.5
  }

  /** Half the first blend, all segments and half the last blend. */
  function TotalTime(tb: seq<real>, dt: seq<real>): (total: real)
    requires |tb| > 0
  {
    tb[0] * 0.5 + Sum(dt) + tb[|tb| - 1] * 0.5
  }

  /** start_time as written: half the first blend time of the FIRST AXIS, not of the blend. */
  function FirstAxisStartTime(tba: seq<seq<real>>): (start: real)
    requires |tba| > 0 && |tba[0]| > 0
  {
    -tba[0][0] * 0.5
  }

  /** total_time as written: from the first and last blend times of the FIRST AXIS. */
  function FirstAxisTotalTime(tba: seq<seq<real>>, dt: seq<real>): (total: real)
    requires |tba| > 0 && |tba[0]| > 0 && |tba[|tba| - 1]| > 0
  {
    tba[0][0] * 0.5 + Sum(dt) + tba[|tba| - 1][0] * 0.5
  }

  /**
   * start_time from the per-axis blend times tba: as written from the first axis, or
   * corrected from the blend times tb (the slowest axis of each blend).
   */
  function StartTimeOf(variant: Variant, tba: seq<seq<real>>, tb: seq<real>): (start: real)
    requires |tba| > 0 && |tba[0]| > 0 && |tb| > 0
  {
    match variant
    case AsWritten => FirstAxisStartTime(tba)
    case Corrected => StartTime(tb)
  }

  /** total_time, as written from the first axis or corrected from the blend times. */
  function TotalTimeOf(variant: Variant, tba: seq<seq<real>>, tb: seq<real>, dt: seq<real>): (total: real)
    requires |tba| > 0 && |tba[0]| > 0 && |tba[|tba| - 1]| > 0 && |tb| > 0
  {
    match variant
    case AsWritten => FirstAxisTotalTime(tba, dt)
    case Corrected => TotalTime(tb, dt)
  }

  /** The tables of a constructed trajectory fit together (N >= 2 waypoints, M >= 1 axes). */
  predicate WellFormed(tr: Blended)
  {
    var n := |tr.t|;
    && n >= 2 && |tr.q| == n + 2 && |tr.dq| == n + 1 && |tr.tb| == n && |tr.ddq| == n
    && |tr.bins| == n - 1 && |tr.q[0]| > 0
    && Table(tr.q, |tr.q[0]|) && Table(tr.dq, |tr.q[0]|) && Table(tr.ddq, |tr.q[0]|)
  }

  /** The trajectory record of the constructor's tables; tba are the per-axis blend times. */
  function Assemble(variant: Variant, p: seq<seq<real>>, v: seq<seq<real>>, tba: seq<seq<real>>, tb: seq<real>,
                    a: seq<seq<real>>, t: seq<real>, dt: seq<real>, m: nat): (tr: Blended)
    requires |dt| >= 1 && |t| == |dt| + 1 && |p| == |t| + 2 && |v| == |t| + 1 && |tb| == |t| && |a| == |t|
    requires m > 0 && |p[0]| == m && Table(p, m) && Table(v, m) && Table(a, m) && |tba| == |t| && Table(tba, m)
    ensures WellFormed(tr) && tr.q == p && tr.dq == v && tr.tb == tb && tr.ddq == a && tr.t == t
    ensures tr.startTime == StartTimeOf(variant, tba, tb) && tr.totalTime == TotalTimeOf(variant, tba, tb, dt)
    ensures tr.bins == Bins(t, dt, tb)
  {
    Blended(p, v, tb, a, t, StartTimeOf(variant, tba, tb), TotalTimeOf(variant, tba, tb, dt), Bins(t, dt, tb))
  }

  /** Every duration is positive. */
  predicate Positive(dt: seq<real>)
  {
    forall k :: 0 <= k < |dt| ==> dt[k] > 0.0
  }

  /** N >= 2 waypoints, one positive duration per segment and a positive acceleration limit. */
  predicate Admissible(q: seq<seq<real>>, dt: seq<real>, ddqMax: real)
  {
    Waypoints(q) && |q| >= 2 && |dt| == |q| - 1 && Positive(dt) && ddqMax > 0.0
  }

  /** The velocities of the N + 1 segments between the padded waypoints. */
  function PaddedVelocities(q: seq<seq<real>>, dt: seq<real>): (v: seq<seq<real>>)
    requires Waypoints(q) && |dt| == |q| - 1 && Positive(dt)
    ensures |v| == |q| + 1 && Table(v, |q[0]|)
    ensures forall j :: 0 <= j < |q[0]| ==> v[0][j] == 0.0 && v[|q|][j] == 0.0
    ensures forall k, j :: 1 <= k < |q| && 0 <= j < |q[0]| ==> v[k][j] == (q[k][j] - q[k - 1][j]) / dt[k - 1]
  {
    var p := Padded(q);
    assert Table(p, |q[0]|);
    SegmentVelocities(p, PaddedDurations(dt), |q[0]|)
  }

  /**
   * The blend time at each waypoint between two consecutive segments of velocities v:
   * the time the slowest axis needs for its change of velocity at acceleration ddq_max.
   */
  function WaypointBlendTimes(v: seq<seq<real>>, m: nat, ddqMax: real): (tb: seq<real>)
    requires |v| > 0 && m > 0 && Table(v, m) && ddqMax > 0.0
    ensures |tb| == |v| - 1
    ensures forall k, j :: 0 <= k < |tb| && 0 <= j < m ==> AxisBlendTimes(v, m, ddqMax)[k][j] <= tb[k]
    ensures forall k :: 0 <= k < |tb| ==> 0.0 <= tb[k]
  {
    var tba := AxisBlendTimes(v, m, ddqMax);
    assert forall k :: 0 <= k < |tba| ==> 0.0 <= tba[k][0];
    BlendTimes(tba, m)
  }

  /**
   * The constructor's tables for positive durations, whether or not the blends fit:
   * Construct(AsWritten, ...) takes start_time and total_time from the first axis' blend
   * times, Construct(Corrected, ...) from the blend times.
   */
  function Construct(variant: Variant, q: seq<seq<real>>, dt: seq<real>, ddqMax: real): (tr: Blended)
    requires Admissible(q, dt, ddqMax)
    ensures WellFormed(tr) && |tr.t| == |q| && |tr.q[0]| == |q[0]|
    ensures tr.q == Padded(q) && tr.dq == PaddedVelocities(q, dt) && tr.tb == WaypointBlendTimes(tr.dq, |q[0]|, ddqMax)
    ensures tr.ddq == BlendAccelerations(tr.dq, tr.tb, |q[0]|) && tr.t == StartTimes(dt)
    ensures var tba := AxisBlendTimes(tr.dq, |q[0]|, ddqMax);
      tr.startTime == StartTimeOf(variant, tba, tr.tb) && tr.totalTime == TotalTimeOf(variant, tba, tr.tb, dt)
    ensures tr.bins == Bins(tr.t, dt, tr.tb)
  {
    var m := |q[0]|;
    var p := Padded(q);
    assert Table(p, m);
    var v := PaddedVelocities(q, dt);
    var tba := AxisBlendTimes(v, m, ddqMax);
    var tb := WaypointBlendTimes(v, m, ddqMax);
    Assemble(variant, p, v, tba, tb, BlendAccelerations(v, tb, m), StartTimes(dt), dt, m)
  }

  /** The construction from positive durations, or the failure of the feasibility assertion. */
  function BlendSpec(variant: Variant, q: seq<seq<real>>, dt: seq<real>, ddqMax: real): (r: Result<Blended, BuildError>)
    requires Admissible(q, dt, ddqMax)
    ensures r.Ok? <==> BlendsFit(WaypointBlendTimes(PaddedVelocities(q, dt), |q[0]|, ddqMax), dt)
    ensures r.Ok? ==> r.value == Construct(variant, q, dt, ddqMax)
  {
    if !BlendsFit(WaypointBlendTimes(PaddedVelocities(q, dt), |q[0]|, ddqMax), dt) then Err(InfeasibleTrajectory)
    else Ok(Construct(variant, q, dt, ddqMax))
  }

  /** The durations the constructor works with. */
  function SegmentDurations(q: seq<seq<real>>, dur: Durations): (dt: seq<real>)
    requires Waypoints(q)
    requires dur.Derived? ==> dur.dqMax > 0.0
    ensures dur.Derived? ==> |dt| == |q| - 1
  {
    match dur
    case Derived(dqMax) => DerivedDurations(q, dqMax)
    case Explicit(dt) => dt
  }

  /** What the constructor produces (as written, or corrected), or the error it stops with. */
  function BuildSpec(variant: Variant, q: seq<seq<real>>, dur: Durations, ddqMax: real): (r: Result<Blended, BuildError>)
    requires |q| > 0 ==> Waypoints(q)
    ensures r == Err(TooFewWaypoints) <==> |q| < 2
    ensures r.Ok? ==> WellFormed(r.value) && |r.value.q| == |q| + 2 && |r.value.q[0]| == |q[0]|
    ensures r.Ok? ==> |q| >= 2 && Waypoints(q) && (dur.Derived? ==> dur.dqMax > 0.0) && ddqMax > 0.0
    ensures r.Ok? ==> Admissible(q, SegmentDurations(q, dur), ddqMax)
    ensures r.Ok? ==> r.value == Construct(variant, q, SegmentDurations(q, dur), ddqMax)
    ensures r.Ok? ==> BlendsFit(r.value.tb, SegmentDurations(q, dur))
  {
    if |q| < 2 then Err(TooFewWaypoints)
    else if dur.Explicit? && |dur.dt| != |q| - 1 then Err(DurationShape)
    else if dur.Derived? && dur.dqMax <= 0.0 then Err(NonPositiveVelocityLimit)
    else if ddqMax <= 0.0 then Err(NonPositiveAccelerationLimit)
    else
      var dt := SegmentDurations(q, dur);
      if !Positive(dt) then Err(InfeasibleTrajectory)
      else BlendSpec(variant, q, dt, ddqMax)
  }

  /**
   * ApproximateTrapezoidalTrajectory.__init__: pads the waypoints and the durations,
   * derives the segment velocities and the blend times, checks that the blends fit, then
   * computes the blend accelerations, the waypoint times and the bins. Build(AsWritten, ...)
   * is the constructor as written; Build(Corrected, ...) takes start_time and total_time
   * from the blend times instead of the first axis' ones.
   */
  method Build(variant: Variant, q: seq<seq<real>>, dur: Durations, ddqMax: real) returns (r: Result<Blended, BuildError>)
    requires |q| > 0 ==> Waypoints(q)
    ensures r == BuildSpec(variant, q, dur, ddqMax)
  {
    if |q| < 2 {
      return Err(TooFewWaypoints);
    }
    if dur.Explicit? && |dur.dt| != |q| - 1 {
      return Err(DurationShape);
    }
    if dur.Derived? && dur.dqMax <= 0.0 {
      return Err(NonPositiveVelocityLimit);
    }
    if ddqMax <= 0.0 {
      return Err(NonPositiveAccelerationLimit);
    }
    var dt := SegmentDurations(q, dur);
    if !Positive(dt) {
      return Err(InfeasibleTrajectory);
    }
    r := Blend(variant, q, dt, ddqMax);
  }

  /** The part of __init__ after the durations are known and positive. */
  method Blend(variant: Variant, q: seq<seq<real>>, dt: seq<real>, ddqMax: real) returns (r: Result<Blended, BuildError>)
    requires Admissible(q, dt, ddqMax)
    ensures r == BlendSpec(variant, q, dt, ddqMax)
  {
    var m := |q[0]|;
    var p := Padded(q);
    assert Table(p, m);
    var v := SegmentVelocities(p, PaddedDurations(dt), m);
    var tba := AxisBlendTimes(v, m, ddqMax);
    var tb := BlendTimes(tba, m);
    assert tb == WaypointBlendTimes(v, m, ddqMax);
    if !BlendsFit(tb, dt) {
      return Err(InfeasibleTrajectory);
    }
    var t := CumulativeTimes(dt);
    r := Ok(Assemble(variant, p, v, tba, tb, BlendAccelerations(v, tb, m), t, dt, m));
  }

  /** The query time clipped to [-tb[0] / 2, total_time]. */
  function ClippedTime(tr: Blended, time: real): (x: real)
    requires WellFormed(tr)
  {
    Clip(time, -tr.tb[0] * 0.5, tr.totalTime)
  }

  /** digitize(t, bins): the blend whose window holds x, in [0, N - 1]. */
  function Window(tr: Blended, x: real): (i: nat)
    requires WellFormed(tr)
    ensures i < |tr.t|
  {
    Digitize(x, tr.bins)
  }

  /** isb: x lies within blend i, which is centred on t[i] and lasts tb[i]. */
  predicate InBlend(tr: Blended, i: nat, x: real)
    requires WellFormed(tr) && i < |tr.t|
  {
    x >= tr.t[i] - tr.tb[i] * 0.5 && x <= tr.t[i] + tr.tb[i] * 0.5
  }

  /** Position within a blend centred on t: it leaves velocity v at acceleration a. */
  function BlendPosition(next: real, v: real, a: real, tb: real, t: real, x: real): (pos: real)
  {
    next + v * (x - t) + 0.5 * a * (x - t + tb * 0.5) * (x - t + tb * 0.5)
  }

  /** Position on the linear segment after waypoint `next`, reached at time t, at velocity v. */
  function LinearPosition(next: real, v: real, t: real, x: real): (pos: real)
  {
    next + v * (x - t)
  }

  /** Axis j in window i at time x: the blend formula inside the blend, the line after it. */
  function AxisAt(tr: Blended, i: nat, j: nat, x: real): (st: State)
    requires WellFormed(tr) && i < |tr.t| && j < |tr.q[0]|
  {
    var isb := Mask(InBlend(tr, i, x));
    var lin := Mask(!InBlend(tr, i, x));
    State(BlendPosition(tr.q[i + 1][j], tr.dq[i][j], tr.ddq[i][j], tr.tb[i], tr.t[i], x) * isb
            + LinearPosition(tr.q[i + 1][j], tr.dq[i + 1][j], tr.t[i], x) * lin,
          (tr.dq[i][j] + tr.ddq[i][j] * (x - tr.t[i] + tr.tb[i] * 0.5)) * isb + tr.dq[i + 1][j] * lin,
          tr.ddq[i][j] * isb + 0.0 * lin)
  }

  /** ApproximateTrapezoidalTrajectory.__call__ at one query time. */
  function Evaluate(tr: Blended, time: real): (s: Sample)
    requires WellFormed(tr)
    ensures |s.q| == |tr.q[0]| && |s.dq| == |tr.q[0]| && |s.ddq| == |tr.q[0]|
  {
    var x := ClippedTime(tr, time);
    var i := Window(tr, x);
    var m := |tr.q[0]|;
    Sample(seq(m, j requires 0 <= j < m => AxisAt(tr, i, j, x).q),
           seq(m, j requires 0 <= j < m => AxisAt(tr, i, j, x).dq),
           seq(m, j requires 0 <= j < m => AxisAt(tr, i, j, x).ddq))
  }
}
