/**
 * Evaluation of the linear-parabolic-blend trajectory: the bin lookup picks the window
 * whose blend has started and whose successor has not, the blend and the line agree
 * where they meet, the limits the tables respect carry over to every sample, and from
 * the total time on the trajectory rests at the last waypoint, which the total time as
 * written does not always reach.
 */
module ApproximateEvaluation {
  import opened Wrappers
  import opened Variants
  import opened RealMath
  import opened Approximate
  import opened ApproximateProperties

  // ---------------------------------------------------------------------------------
  // Windows
  // ---------------------------------------------------------------------------------

  /** The bins never decrease, so the bin search splits the time axis into windows. */
  lemma BinsNonDecreasing(tr: Blended)
    requires WellFormed(tr) && Coherent(tr)
    ensures NonDecreasing(tr.bins)
  {
    forall j, k | 0 <= j <= k < |tr.bins|
      ensures tr.bins[j] <= tr.bins[k]
    {
      if j < k {
        assert tr.bins[j] <= tr.t[j + 1];
        assert tr.t[j + 1] <= tr.t[k];
        assert tr.t[k] + tr.tb[k] * 0.5 <= tr.bins[k];
      }
    }
  }

  /**
   * The clipped query time lies in window i = digitize(x, bins): blend i has started and
   * blend i + 1 has not; the clip keeps it between the start of the first blend and the
   * total time.
   */
  lemma QueryWindow(tr: Blended, time: real)
    requires WellFormed(tr) && Coherent(tr)
    ensures -tr.tb[0] * 0.5 <= ClippedTime(tr, time) <= tr.totalTime
    ensures var x := ClippedTime(tr, time); var i := Window(tr, x);
      && tr.t[i] - tr.tb[i] * 0.5 <= x
      && (i + 1 < |tr.t| ==> x < tr.t[i + 1] - tr.tb[i + 1] * 0.5)
  {
    var n := |tr.t|;
    BinsNonDecreasing(tr);
    assert tr.t[0] <= tr.t[n - 1];
    var x := ClippedTime(tr, time);
    var i := Window(tr, x);
    if i > 0 {
      assert tr.bins[i - 1] <= x;
    }
    if i + 1 < n {
      assert x < tr.bins[i];
    }
  }

  /**
   * Inside blend i the axis follows the parabola at acceleration ddq[i]; outside it, the
   * line at velocity dq[i + 1] with no acceleration.
   */
  lemma WindowPhases(tr: Blended, i: nat, j: nat, x: real)
    requires WellFormed(tr) && i < |tr.t| && j < |tr.q[0]|
    ensures InBlend(tr, i, x) ==> (AxisAt(tr, i, j, x) ==
      State(BlendPosition(tr.q[i + 1][j], tr.dq[i][j], tr.ddq[i][j], tr.tb[i], tr.t[i], x),
            tr.dq[i][j] + tr.ddq[i][j] * (x - tr.t[i] + tr.tb[i] * 0.5),
            tr.ddq[i][j]))
    ensures !InBlend(tr, i, x) ==> (AxisAt(tr, i, j, x) ==
      State(LinearPosition(tr.q[i + 1][j], tr.dq[i + 1][j], tr.t[i], x), tr.dq[i + 1][j], 0.0))
  {
  }

  /** One blend of the invariant: its length is non-negative and it performs its change of velocity. */
  lemma BlendFacts(tr: Blended, i: nat, j: nat)
    requires WellFormed(tr) && Coherent(tr) && i < |tr.t| && j < |tr.q[0]|
    ensures 0.0 <= tr.tb[i] && tr.ddq[i][j] * tr.tb[i] == tr.dq[i + 1][j] - tr.dq[i][j]
  {
    assert Timed(tr) && Ramped(tr);
    BlendTimeNonNegative(tr, i);
    RampedAt(tr, i, j);
  }

  lemma BlendTimeNonNegative(tr: Blended, i: nat)
    requires WellFormed(tr) && Timed(tr) && i < |tr.t|
    ensures 0.0 <= tr.tb[i]
  {
  }

  lemma RampedAt(tr: Blended, i: nat, j: nat)
    requires WellFormed(tr) && Ramped(tr) && i < |tr.t| && j < |tr.q[0]|
    ensures tr.ddq[i][j] * tr.tb[i] == tr.dq[i + 1][j] - tr.dq[i][j]
  {
  }

  // ---------------------------------------------------------------------------------
  // The pieces join
  // ---------------------------------------------------------------------------------

  /** At the end of blend i the parabola meets the line that follows, in position and velocity. */
  lemma BlendEndJoinsLine(tr: Blended, i: nat, j: nat)
    requires WellFormed(tr) && Coherent(tr) && i < |tr.t| && j < |tr.q[0]|
    ensures var e := tr.t[i] + tr.tb[i] * 0.5;
      && AxisAt(tr, i, j, e).q == LinearPosition(tr.q[i + 1][j], tr.dq[i + 1][j], tr.t[i], e)
      && AxisAt(tr, i, j, e).dq == tr.dq[i + 1][j]
  {
    BlendFacts(tr, i, j);
    EndOfRamp(tr, i, j);
  }

  /** The end of a blend that performs its change of velocity lies on the following line. */
  lemma EndOfRamp(tr: Blended, i: nat, j: nat)
    requires WellFormed(tr) && i < |tr.t| && j < |tr.q[0]|
    requires 0.0 <= tr.tb[i] && tr.ddq[i][j] * tr.tb[i] == tr.dq[i + 1][j] - tr.dq[i][j]
    ensures var e := tr.t[i] + tr.tb[i] * 0.5;
      && AxisAt(tr, i, j, e).q == LinearPosition(tr.q[i + 1][j], tr.dq[i + 1][j], tr.t[i], e)
      && AxisAt(tr, i, j, e).dq == tr.dq[i + 1][j]
  {
    var e := tr.t[i] + tr.tb[i] * 0.5;
    assert InBlend(tr, i, e);
    WindowPhases(tr, i, j, e);
    BlendEndsOnLine(tr.q[i + 1][j], tr.dq[i][j], tr.dq[i + 1][j], tr.ddq[i][j], tr.tb[i], tr.t[i]);
  }

  /**
   * Where blend i > 0 starts, window i - 1 and window i give the same position and
   * velocity, so the move from one window to the next is continuous.
   */
  lemma BlendStartJoinsLine(tr: Blended, i: nat, j: nat)
    requires WellFormed(tr) && Coherent(tr) && 0 < i < |tr.t| && j < |tr.q[0]|
    ensures var s := tr.t[i] - tr.tb[i] * 0.5;
      && AxisAt(tr, i, j, s).q == AxisAt(tr, i - 1, j, s).q
      && AxisAt(tr, i, j, s).dq == AxisAt(tr, i - 1, j, s).dq
  {
    StartFacts(tr, i, j);
    RampBefore(tr, i, j);
    StartOfRamp(tr, i, j);
  }

  /** Blend i - 1 performs the change of velocity from segment i - 1 to segment i. */
  lemma RampBefore(tr: Blended, i: nat, j: nat)
    requires WellFormed(tr) && Ramped(tr) && 0 < i <= |tr.t| && j < |tr.q[0]|
    ensures tr.ddq[i - 1][j] * tr.tb[i - 1] == tr.dq[i][j] - tr.dq[i - 1][j]
  {
    RampedAt(tr, i - 1, j);
  }

  /** What a coherent trajectory guarantees around the start of blend i > 0. */
  lemma StartFacts(tr: Blended, i: nat, j: nat)
    requires WellFormed(tr) && Coherent(tr) && 0 < i < |tr.t| && j < |tr.q[0]|
    ensures 0.0 <= tr.tb[i] && 0.0 <= tr.tb[i - 1]
    ensures tr.t[i - 1] + tr.tb[i - 1] * 0.5 <= tr.t[i] - tr.tb[i] * 0.5
    ensures tr.dq[i][j] * (tr.t[i] - tr.t[i - 1]) == tr.q[i + 1][j] - tr.q[i][j]
  {
    assert Timed(tr);
    SegmentFacts(tr, i, j);
  }

  /** One segment of the invariant: blend i - 1 ends before blend i starts, and the line between reaches its waypoint. */
  lemma SegmentFacts(tr: Blended, i: nat, j: nat)
    requires WellFormed(tr) && Coherent(tr) && 0 < i < |tr.t| && j < |tr.q[0]|
    ensures tr.t[i - 1] + tr.tb[i - 1] * 0.5 <= tr.t[i] - tr.tb[i] * 0.5
    ensures tr.dq[i][j] * (tr.t[i] - tr.t[i - 1]) == tr.q[i + 1][j] - tr.q[i][j]
  {
    assert tr.bins[i - 1] == tr.t[i] - tr.tb[i] * 0.5;
  }

  /** A blend that starts after the previous one has ended starts on the line between them. */
  lemma StartOfRamp(tr: Blended, i: nat, j: nat)
    requires WellFormed(tr) && 0 < i < |tr.t| && j < |tr.q[0]|
    requires 0.0 <= tr.tb[i] && 0.0 <= tr.tb[i - 1]
    requires tr.ddq[i - 1][j] * tr.tb[i - 1] == tr.dq[i][j] - tr.dq[i - 1][j]
    requires tr.t[i - 1] + tr.tb[i - 1] * 0.5 <= tr.t[i] - tr.tb[i] * 0.5
    requires tr.dq[i][j] * (tr.t[i] - tr.t[i - 1]) == tr.q[i + 1][j] - tr.q[i][j]
    ensures var s := tr.t[i] - tr.tb[i] * 0.5;
      && AxisAt(tr, i, j, s).q == AxisAt(tr, i - 1, j, s).q
      && AxisAt(tr, i, j, s).dq == AxisAt(tr, i - 1, j, s).dq
  {
    var s := tr.t[i] - tr.tb[i] * 0.5;
    assert InBlend(tr, i, s);
    WindowPhases(tr, i, j, s);
    BlendStartsOnLine(tr.q[i][j], tr.q[i + 1][j], tr.dq[i][j], tr.ddq[i][j], tr.tb[i], tr.t[i - 1], tr.t[i]);
    if s == tr.t[i - 1] + tr.tb[i - 1] * 0.5 {
      EndOfRamp(tr, i - 1, j);
    } else {
      WindowPhases(tr, i - 1, j, s);
    }
  }

  /** The first blend starts at rest at the first waypoint. */
  lemma FirstBlendStartsAtRest(tr: Blended, j: nat)
    requires WellFormed(tr) && Coherent(tr) && j < |tr.q[0]|
    ensures var s := -tr.tb[0] * 0.5;
      && AxisAt(tr, 0, j, s).q == tr.q[0][j]
      && AxisAt(tr, 0, j, s).dq == 0.0
  {
    var s := -tr.tb[0] * 0.5;
    assert 0.0 <= tr.tb[0];
    assert InBlend(tr, 0, s);
    WindowPhases(tr, 0, j, s);
  }

  // ---------------------------------------------------------------------------------
  // Limits
  // ---------------------------------------------------------------------------------

  /** Every blend acceleration is within the limit. */
  ghost predicate AccelerationsWithin(tr: Blended, limit: real)
    requires WellFormed(tr)
  {
    forall k, j :: 0 <= k < |tr.t| && 0 <= j < |tr.q[0]| ==> Abs(tr.ddq[k][j]) <= limit
  }

  /** Every segment velocity is within the limit. */
  ghost predicate VelocitiesWithin(tr: Blended, limit: real)
    requires WellFormed(tr)
  {
    forall k, j :: 0 <= k < |tr.dq| && 0 <= j < |tr.q[0]| ==> Abs(tr.dq[k][j]) <= limit
  }

  /** Every entry of a sampled row is within the limit in magnitude. */
  predicate WithinLimit(row: seq<real>, limit: real)
  {
    forall j :: 0 <= j < |row| ==> Abs(row[j]) <= limit
  }

  /** Every sampled acceleration is one of the blend accelerations or 0. */
  lemma AccelerationWithinLimit(tr: Blended, time: real, limit: real)
    requires WellFormed(tr) && 0.0 <= limit && AccelerationsWithin(tr, limit)
    ensures WithinLimit(Evaluate(tr, time).ddq, limit)
  {
    var x := ClippedTime(tr, time);
    var i := Window(tr, x);
    forall j | 0 <= j < |tr.q[0]|
      ensures Abs(Evaluate(tr, time).ddq[j]) <= limit
    {
      WindowPhases(tr, i, j, x);
    }
  }

  /** Every sampled velocity lies between two segment velocities, so within their bound. */
  lemma VelocityWithinLimit(tr: Blended, time: real, limit: real)
    requires WellFormed(tr) && Coherent(tr) && VelocitiesWithin(tr, limit)
    ensures WithinLimit(Evaluate(tr, time).dq, limit)
  {
    var x := ClippedTime(tr, time);
    var i := Window(tr, x);
    forall j | 0 <= j < |tr.q[0]|
      ensures Abs(Evaluate(tr, time).dq[j]) <= limit
    {
      BlendFacts(tr, i, j);
      AxisVelocityWithin(tr, i, j, x, limit);
    }
  }

  /** In window i, an axis moves at a velocity between dq[i] and dq[i + 1]. */
  lemma AxisVelocityWithin(tr: Blended, i: nat, j: nat, x: real, limit: real)
    requires WellFormed(tr) && i < |tr.t| && j < |tr.q[0]|
    requires 0.0 <= tr.tb[i] && tr.ddq[i][j] * tr.tb[i] == tr.dq[i + 1][j] - tr.dq[i][j]
    requires Abs(tr.dq[i][j]) <= limit && Abs(tr.dq[i + 1][j]) <= limit
    ensures Abs(AxisAt(tr, i, j, x).dq) <= limit
  {
    WindowPhases(tr, i, j, x);
    if InBlend(tr, i, x) {
      VelocityBetween(tr.dq[i][j], tr.dq[i + 1][j], tr.ddq[i][j], tr.tb[i], x - tr.t[i] + tr.tb[i] * 0.5, limit);
    }
  }

  // ---------------------------------------------------------------------------------
  // The end of the motion
  // ---------------------------------------------------------------------------------

  /**
   * When the total time lasts until the last blend has ended, every query from the total
   * time on falls after the last bin, in the last window.
   */
  lemma LastWindow(tr: Blended, time: real)
    requires WellFormed(tr) && Coherent(tr) && Completes(tr) && tr.totalTime <= time
    ensures ClippedTime(tr, time) == tr.totalTime
    ensures Window(tr, tr.totalTime) == |tr.t| - 1
  {
    var n := |tr.t|;
    BinsNonDecreasing(tr);
    assert tr.t[0] <= tr.t[n - 1];
    assert tr.bins[n - 2] <= tr.totalTime;
  }

  /**
   * When the total time lasts until the last blend has ended, from the total time on
   * the trajectory rests at the last padded waypoint: position q[N], velocity 0.
   */
  lemma ReachesFinalWaypoint(tr: Blended, time: real)
    requires WellFormed(tr) && Coherent(tr) && Completes(tr) && tr.totalTime <= time
    ensures Evaluate(tr, time).q == tr.q[|tr.t|]
    ensures forall j :: 0 <= j < |tr.q[0]| ==> Evaluate(tr, time).dq[j] == 0.0
  {
    forall j | 0 <= j < |tr.q[0]|
      ensures Evaluate(tr, time).q[j] == tr.q[|tr.t|][j] && Evaluate(tr, time).dq[j] == 0.0
    {
      FinalAxis(tr, time, j);
    }
  }

  /** One axis of ReachesFinalWaypoint. */
  lemma FinalAxis(tr: Blended, time: real, j: nat)
    requires WellFormed(tr) && Coherent(tr) && Completes(tr) && tr.totalTime <= time && j < |tr.q[0]|
    ensures Evaluate(tr, time).q[j] == tr.q[|tr.t|][j] && Evaluate(tr, time).dq[j] == 0.0
  {
    LastWindow(tr, time);
    RampBefore(tr, |tr.t|, j);
    BlendTimeNonNegative(tr, |tr.t| - 1);
    assert tr.dq[|tr.t|][j] == 0.0;
    RestsAt(tr, time, j);
  }

  /** An axis whose last blend ends at rest, queried in the last window after that blend has started, rests at q[N]. */
  lemma RestsAt(tr: Blended, time: real, j: nat)
    requires WellFormed(tr) && j < |tr.q[0]|
    requires ClippedTime(tr, time) == tr.totalTime && Window(tr, tr.totalTime) == |tr.t| - 1
    requires tr.t[|tr.t| - 1] + tr.tb[|tr.t| - 1] * 0.5 <= tr.totalTime
    requires 0.0 <= tr.tb[|tr.t| - 1]
    requires tr.ddq[|tr.t| - 1][j] * tr.tb[|tr.t| - 1] == tr.dq[|tr.t|][j] - tr.dq[|tr.t| - 1][j]
    requires tr.dq[|tr.t|][j] == 0.0
    ensures Evaluate(tr, time).q[j] == tr.q[|tr.t|][j] && Evaluate(tr, time).dq[j] == 0.0
  {
    var n := |tr.t|;
    if tr.totalTime == tr.t[n - 1] + tr.tb[n - 1] * 0.5 {
      EndOfRamp(tr, n - 1, j);
    } else {
      WindowPhases(tr, n - 1, j, tr.totalTime);
    }
  }

  // ---------------------------------------------------------------------------------
  // Constructed trajectories
  // ---------------------------------------------------------------------------------

  /** A trajectory the corrected constructor builds rests at the last waypoint from its total time on. */
  lemma BuiltReachesFinalWaypoint(q: seq<seq<real>>, dur: Durations, ddqMax: real, tr: Blended, time: real)
    requires Waypoints(q) && BuildSpec(Corrected, q, dur, ddqMax) == Ok(tr)
    requires WellFormed(tr) && tr.totalTime <= time
    ensures Evaluate(tr, time).q == q[|q| - 1]
    ensures forall j :: 0 <= j < |tr.q[0]| ==> Evaluate(tr, time).dq[j] == 0.0
  {
    BuiltCoherent(Corrected, q, dur, ddqMax, tr);
    ReachesFinalWaypoint(tr, time);
  }

  /**
   * The constructor as written rests at the last waypoint from its total time on when
   * the first axis is the slowest one in the last blend (its blend time there is the
   * blend's).
   */
  lemma AsWrittenReachesFinalWaypoint(q: seq<seq<real>>, dur: Durations, ddqMax: real, tr: Blended, time: real)
    requires Waypoints(q) && BuildSpec(AsWritten, q, dur, ddqMax) == Ok(tr)
    requires WellFormed(tr) && ddqMax > 0.0 && FirstAxisSlowestLast(tr, ddqMax)
    requires tr.totalTime <= time
    ensures Evaluate(tr, time).q == q[|q| - 1]
    ensures forall j :: 0 <= j < |tr.q[0]| ==> Evaluate(tr, time).dq[j] == 0.0
  {
    var dt := SegmentDurations(q, dur);
    BuiltCoherent(AsWritten, q, dur, ddqMax, tr);
    ConstructTables(AsWritten, q, dt, ddqMax, tr);
    AsWrittenCompletes(tr, dt, ddqMax);
    ReachesFinalWaypoint(tr, time);
  }

  /** The first axis needs the whole last blend: its change of velocity there takes tb[N - 1]. */
  predicate FirstAxisSlowestLast(tr: Blended, ddqMax: real)
    requires WellFormed(tr) && ddqMax > 0.0
  {
    AxisBlendTimes(tr.dq, |tr.q[0]|, ddqMax)[|tr.t| - 1][0] == tr.tb[|tr.t| - 1]
  }

  /** The total time as written lasts until the last blend has ended when axis 0 is slowest there. */
  lemma AsWrittenCompletes(tr: Blended, dt: seq<real>, ddqMax: real)
    requires WellFormed(tr) && ddqMax > 0.0 && |dt| + 1 == |tr.t| && tr.t[|dt|] == Sum(dt)
    requires tr.tb == WaypointBlendTimes(tr.dq, |tr.q[0]|, ddqMax)
    requires tr.totalTime == TotalTimeOf(AsWritten, AxisBlendTimes(tr.dq, |tr.q[0]|, ddqMax), tr.tb, dt)
    requires FirstAxisSlowestLast(tr, ddqMax)
    ensures Completes(tr)
  {
    TotalTimesOrdered(tr.dq, |tr.q[0]|, ddqMax, dt);
  }

  /** The blend accelerations of a constructed trajectory are within ddq_max. */
  lemma BuiltAccelerations(variant: Variant, q: seq<seq<real>>, dur: Durations, ddqMax: real, tr: Blended)
    requires Waypoints(q) && BuildSpec(variant, q, dur, ddqMax) == Ok(tr)
    ensures WellFormed(tr) && 0.0 <= ddqMax && AccelerationsWithin(tr, ddqMax)
  {
    ConstructTables(variant, q, SegmentDurations(q, dur), ddqMax, tr);
    TablesAccelerations(tr, |q[0]|, ddqMax);
  }

  /** Blend accelerations that cover their blend times at ddq_max are within ddq_max. */
  lemma TablesAccelerations(tr: Blended, m: nat, ddqMax: real)
    requires WellFormed(tr) && m == |tr.q[0]| && ddqMax > 0.0
    requires BlendTimesCover(tr.dq, m, ddqMax, tr.tb) && tr.ddq == BlendAccelerations(tr.dq, tr.tb, m)
    ensures AccelerationsWithin(tr, ddqMax)
  {
    BlendAccelerationBounds(tr.dq, m, ddqMax, tr.tb, tr.ddq);
  }

  /** With durations derived from dq_max, the segment velocities of a constructed trajectory are within dq_max. */
  lemma BuiltVelocities(variant: Variant, q: seq<seq<real>>, dqMax: real, ddqMax: real, tr: Blended)
    requires Waypoints(q) && BuildSpec(variant, q, Derived(dqMax), ddqMax) == Ok(tr)
    ensures WellFormed(tr) && VelocitiesWithin(tr, dqMax)
  {
    var dt := SegmentDurations(q, Derived(dqMax));
    ConstructTables(variant, q, dt, ddqMax, tr);
    DerivedDurationsSlowest(q, dqMax);
    DerivedSpeedsWithinLimit(q, dqMax, dt, tr.dq);
  }

  /** Every sample of a constructed trajectory accelerates within ddq_max. */
  lemma BuiltAccelerationWithinLimit(variant: Variant, q: seq<seq<real>>, dur: Durations, ddqMax: real, tr: Blended, time: real)
    requires Waypoints(q) && BuildSpec(variant, q, dur, ddqMax) == Ok(tr)
    ensures WithinLimit(Evaluate(tr, time).ddq, ddqMax)
  {
    BuiltAccelerations(variant, q, dur, ddqMax, tr);
    AccelerationWithinLimit(tr, time, ddqMax);
  }

  /** With durations derived from dq_max, every sample of a constructed trajectory moves within dq_max. */
  lemma BuiltVelocityWithinLimit(variant: Variant, q: seq<seq<real>>, dqMax: real, ddqMax: real, tr: Blended, time: real)
    requires Waypoints(q) && BuildSpec(variant, q, Derived(dqMax), ddqMax) == Ok(tr)
    ensures WithinLimit(Evaluate(tr, time).dq, dqMax)
  {
    BuiltCoherent(variant, q, Derived(dqMax), ddqMax, tr);
    BuiltVelocities(variant, q, dqMax, ddqMax, tr);
    VelocityWithinLimit(tr, time, dqMax);
  }

  // ---------------------------------------------------------------------------------
  // The total time as written
  // ---------------------------------------------------------------------------------

  /**
   * Two waypoints in two axes, two time units apart, at ddq_max = 2: axis 1 needs a blend
   * of 1 at each end, axis 0 only 0.25.
   */
  const ExampleWaypoints: seq<seq<real>> := [[0.0, 0.0], [1.0, 4.0]]
  const ExampleVelocities: seq<seq<real>> := [[0.0, 0.0], [0.5, 2.0], [0.0, 0.0]]
  const ExampleTrajectory: Blended :=
    Blended([[0.0, 0.0], [0.0, 0.0], [1.0, 4.0], [1.0, 4.0]], ExampleVelocities, [1.0, 1.0],
            [[0.5, 2.0], [-0.5, -2.0]], [0.0, 2.0], -0.5, 3.0, [1.5])

  /** The padded segment velocities of the example. */
  lemma ExampleSegmentVelocities()
    ensures Waypoints(ExampleWaypoints) && Positive([2.0])
    ensures PaddedVelocities(ExampleWaypoints, [2.0]) == ExampleVelocities
  {
    var v := PaddedVelocities(ExampleWaypoints, [2.0]);
    assert v[0] == [0.0, 0.0] && v[2] == [0.0, 0.0];
    assert v[1] == [0.5, 2.0];
  }

  /** The blend times of the example per axis. */
  lemma ExampleAxisBlendTimes()
    ensures AxisBlendTimes(ExampleVelocities, 2, 2.0) == [[0.25, 1.0], [0.25, 1.0]]
  {
    var tba := AxisBlendTimes(ExampleVelocities, 2, 2.0);
    assert tba[0] == [0.25, 1.0] && tba[1] == [0.25, 1.0];
  }

  /** The blend times of the example: the slowest axis per blend. */
  lemma ExampleBlendTimes()
    ensures WaypointBlendTimes(ExampleVelocities, 2, 2.0) == [1.0, 1.0]
  {
    ExampleAxisBlendTimes();
    var tb := BlendTimes([[0.25, 1.0], [0.25, 1.0]], 2);
    assert tb[0] in [0.25, 1.0] && tb[1] in [0.25, 1.0];
    assert WaypointBlendTimes(ExampleVelocities, 2, 2.0) == tb;
  }

  /** The blend accelerations, waypoint times, bins and total time of the example. */
  lemma ExampleTimes()
    ensures BlendAccelerations(ExampleVelocities, [1.0, 1.0], 2) == [[0.5, 2.0], [-0.5, -2.0]]
    ensures StartTimes([2.0]) == [0.0, 2.0]
    ensures Bins([0.0, 2.0], [2.0], [1.0, 1.0]) == [1.5]
    ensures TotalTime([1.0, 1.0], [2.0]) == 3.0
  {
    var a := BlendAccelerations(ExampleVelocities, [1.0, 1.0], 2);
    assert a[0] == [0.5, 2.0] && a[1] == [-0.5, -2.0];
    assert Sum([2.0]) == 2.0 by {
      assert [2.0][..0] == [];
    }
  }

  /** The corrected constructor accepts the example and builds exactly these tables. */
  lemma ExampleTables()
    ensures BuildSpec(Corrected, ExampleWaypoints, Explicit([2.0]), 2.0) == Ok(ExampleTrajectory)
  {
    ExampleConstructed();
    ExampleSegmentVelocities();
    ExampleBlendTimes();
  }

  /** The tables the construction builds for the example. */
  lemma ExampleConstructed()
    ensures Admissible(ExampleWaypoints, [2.0], 2.0)
    ensures Construct(Corrected, ExampleWaypoints, [2.0], 2.0) == ExampleTrajectory
  {
    ExampleSegmentVelocities();
    ExampleBlendTimes();
    ExampleTimes();
    ExamplePadded();
    var tr := Construct(Corrected, ExampleWaypoints, [2.0], 2.0);
    assert tr.q == ExampleTrajectory.q && tr.dq == ExampleTrajectory.dq && tr.tb == ExampleTrajectory.tb;
    assert tr.ddq == ExampleTrajectory.ddq && tr.t == ExampleTrajectory.t && tr.bins == ExampleTrajectory.bins;
  }

  /** The example's waypoints with the first and last repeated. */
  lemma ExamplePadded()
    ensures Padded(ExampleWaypoints) == ExampleTrajectory.q
  {
    assert Padded(ExampleWaypoints) == [[0.0, 0.0]] + ExampleWaypoints + [[1.0, 4.0]];
  }

  /**
   * The same example as written: the total time takes axis 0's blend times, 2.25 instead
   * of 3, so at time 3 the trajectory is clipped into the middle of the last blend, short
   * of the last waypoint [1, 4] and still moving.
   */
  lemma FinalBlendCutShort()
    ensures var r := BuildSpec(AsWritten, ExampleWaypoints, Explicit([2.0]), 2.0);
      && r.Ok? && r.value.totalTime == 2.25
      && Evaluate(r.value, 3.0).q == [0.984375, 3.9375]
      && Evaluate(r.value, 3.0).dq == [0.125, 0.5]
  {
    ExampleTables();
    ExampleAxisBlendTimes();
    CorrectionKeepsTables(ExampleWaypoints, Explicit([2.0]), 2.0);
    var w := ExampleTrajectory.(startTime := -0.125, totalTime := 2.25);
    assert BuildSpec(AsWritten, ExampleWaypoints, Explicit([2.0]), 2.0) == Ok(w) by {
      assert Sum([2.0]) == 2.0 by {
        assert [2.0][..0] == [];
      }
    }
    CutShortSample(w);
  }

  /** Evaluating the as-written example at time 3. */
  lemma CutShortSample(w: Blended)
    requires w == ExampleTrajectory.(startTime := -0.125, totalTime := 2.25)
    ensures WellFormed(w)
    ensures Evaluate(w, 3.0).q == [0.984375, 3.9375] && Evaluate(w, 3.0).dq == [0.125, 0.5]
  {
    assert ClippedTime(w, 3.0) == 2.25;
    assert Window(w, 2.25) == 1;
    assert InBlend(w, 1, 2.25);
    WindowPhases(w, 1, 0, 2.25);
    WindowPhases(w, 1, 1, 2.25);
  }

  /** The corrected total time of the same example ends the motion at the last waypoint, at rest. */
  lemma FinalBlendCompleted()
    ensures var r := BuildSpec(Corrected, ExampleWaypoints, Explicit([2.0]), 2.0);
      && r.Ok? && r.value.totalTime == 3.0
      && Evaluate(r.value, 3.0).q == [1.0, 4.0]
      && Evaluate(r.value, 3.0).dq == [0.0, 0.0]
  {
    ExampleTables();
    BuiltReachesFinalWaypoint(ExampleWaypoints, Explicit([2.0]), 2.0, ExampleTrajectory, 3.0);
  }
}
