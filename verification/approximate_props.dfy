/**
 * Properties of the linear-parabolic-blend trajectory: the padding brings it to rest at
 * both ends, derived durations keep every segment within the velocity limit, every blend
 * performs exactly its change of velocity within the acceleration limit, the bins split
 * time into one window per blend, the pieces join, and the motion ends at the last
 * waypoint, which the total time as written does not always reach.
 */
module ApproximateProperties {
  import opened Wrappers
  import opened Variants
  import opened RealMath
  import opened Approximate

  // ---------------------------------------------------------------------------------
  // Scalar facts
  // ---------------------------------------------------------------------------------

  /** A blend of length tb >= |dv| / A at acceleration dv / tb (0 when tb = 0). */
  lemma AccelerationBound(dv: real, tb: real, a: real, limit: real)
    requires limit > 0.0 && Abs(dv) / limit <= tb
    requires a == if tb == 0.0 then 0.0 else dv / tb
    ensures 0.0 <= tb && a * tb == dv && Abs(a) <= limit
  {
    assert Abs(dv) == (Abs(dv) / limit) * limit;
    assert Abs(dv) <= tb * limit by {
      assert (Abs(dv) / limit) * limit <= tb * limit;
    }
    if tb != 0.0 {
      assert a * tb == dv;
      assert Abs(a) == Abs(dv) / tb;
      assert Abs(dv) / tb <= (tb * limit) / tb;
    }
  }

  /** A distance d covered in T >= |d| / V takes a speed of at most V. */
  lemma SpeedBound(d: real, duration: real, limit: real)
    requires limit > 0.0 && duration > 0.0 && Abs(d) / limit <= duration
    ensures Abs(d / duration) <= limit
  {
    assert Abs(d) == (Abs(d) / limit) * limit;
    assert Abs(d) <= duration * limit by {
      assert (Abs(d) / limit) * limit <= duration * limit;
    }
    assert Abs(d / duration) == Abs(d) / duration;
    assert Abs(d) / duration <= (duration * limit) / duration;
  }

  /** ... and exactly V when T = |d| / V. */
  lemma SpeedAttained(d: real, duration: real, limit: real)
    requires limit > 0.0 && duration > 0.0 && Abs(d) / limit == duration
    ensures Abs(d / duration) == limit
  {
    assert Abs(d) == duration * limit;
    assert Abs(d / duration) == Abs(d) / duration;
  }

  /**
   * A velocity ramping from v0 to v1 within [0, tb] stays between them, so within any
   * bound both satisfy.
   */
  lemma VelocityBetween(v0: real, v1: real, a: real, tb: real, s: real, limit: real)
    requires 0.0 <= s <= tb && a * tb == v1 - v0
    requires Abs(v0) <= limit && Abs(v1) <= limit
    ensures Abs(v0 + a * s) <= limit
  {
    var d, e := a * s, a * tb;
    RampMonotone(a, s, tb, d, e);
    ShareBound(v0, v1, d, e, limit);
  }

  /** A change d that goes the same way as, and no further than, the change e from v0 to v1 stays within their bound. */
  lemma ShareBound(v0: real, v1: real, d: real, e: real, limit: real)
    requires (0.0 <= d <= e || e <= d <= 0.0) && e == v1 - v0
    requires Abs(v0) <= limit && Abs(v1) <= limit
    ensures Abs(v0 + d) <= limit
  {
  }

  /** A ramp of slope a changes, after s <= tb, in the same direction as and no further than after tb. */
  lemma RampMonotone(a: real, s: real, tb: real, d: real, e: real)
    requires 0.0 <= s <= tb && d == a * s && e == a * tb
    ensures 0.0 <= d <= e || e <= d <= 0.0
  {
    assert e - d == a * (tb - s);
    if a >= 0.0 {
      assert 0.0 <= a * s && 0.0 <= a * (tb - s);
    } else {
      assert a * s <= 0.0 && a * (tb - s) <= 0.0;
    }
  }

  /** The parabola of a blend centred on t ends, at t + tb / 2, on the line at velocity v1. */
  lemma BlendEndsOnLine(next: real, v0: real, v1: real, a: real, tb: real, t: real)
    requires a * tb == v1 - v0
    ensures BlendPosition(next, v0, a, tb, t, t + tb * 0.5) == LinearPosition(next, v1, t, t + tb * 0.5)
    ensures v0 + a * tb == v1
  {
    assert 0.5 * a * tb * tb == 0.5 * (v1 - v0) * tb;
  }

  /**
   * The parabola of a blend centred on t1 starts, at t1 - tb / 2, on the line that left
   * prev at t0 at velocity v, when that line reaches next at t1.
   */
  lemma BlendStartsOnLine(prev: real, next: real, v: real, a: real, tb: real, t0: real, t1: real)
    requires v * (t1 - t0) == next - prev
    ensures BlendPosition(next, v, a, tb, t1, t1 - tb * 0.5) == LinearPosition(prev, v, t0, t1 - tb * 0.5)
  {
  }

  // ---------------------------------------------------------------------------------
  // The constructor's tables
  // ---------------------------------------------------------------------------------

  /** A velocity v = d / T, held for T, covers d. */
  lemma Covers(d: real, duration: real, v: real)
    requires duration != 0.0 && v == d / duration
    ensures v * duration == d
  {
  }

  /**
   * The first and the last waypoint are repeated, so the first and the last segment have
   * zero velocity; every other segment moves from its waypoint to the next between their
   * waypoint times.
   */
  lemma PaddedAtRest(q: seq<seq<real>>, dt: seq<real>, p: seq<seq<real>>, v: seq<seq<real>>, t: seq<real>)
    requires Waypoints(q) && |q| >= 2 && |dt| == |q| - 1 && Positive(dt)
    requires p == Padded(q) && v == PaddedVelocities(q, dt)
    requires |t| == |q| && forall k :: 0 <= k < |dt| ==> t[k + 1] == t[k] + dt[k]
    ensures p[0] == q[0] && p[1] == q[0] && p[|q|] == q[|q| - 1] && p[|q| + 1] == q[|q| - 1]
    ensures forall k :: 1 <= k <= |q| ==> p[k] == q[k - 1]
    ensures forall j :: 0 <= j < |q[0]| ==> v[0][j] == 0.0 && v[|q|][j] == 0.0
    ensures forall k, j :: 1 <= k < |q| && 0 <= j < |q[0]| ==> v[k][j] * (t[k] - t[k - 1]) == p[k + 1][j] - p[k][j]
  {
    forall k, j | 1 <= k < |q| && 0 <= j < |q[0]|
      ensures v[k][j] * (t[k] - t[k - 1]) == p[k + 1][j] - p[k][j]
    {
      assert t[k] == t[k - 1] + dt[k - 1];
      Covers(q[k][j] - q[k - 1][j], dt[k - 1], v[k][j]);
    }
  }

  /** Each duration is the time its slowest axis needs at speed dq_max (np.amax over the axes). */
  predicate SlowestAxis(q: seq<seq<real>>, dqMax: real, dt: seq<real>)
    requires Waypoints(q) && dqMax > 0.0
  {
    && |dt| == |q| - 1
    && (forall k, j :: 0 <= k < |dt| && 0 <= j < |q[0]| ==> AxisDurations(q, k, dqMax)[j] <= dt[k])
    && (forall k :: 0 <= k < |dt| ==> dt[k] in AxisDurations(q, k, dqMax))
  }

  /** DerivedDurations picks, for every segment, the time of its slowest axis. */
  lemma DerivedDurationsSlowest(q: seq<seq<real>>, dqMax: real)
    requires Waypoints(q) && dqMax > 0.0
    ensures SlowestAxis(q, dqMax, DerivedDurations(q, dqMax))
  {
  }

  /** Some axis of the row moves at exactly the speed limit. */
  predicate AtLimit(row: seq<real>, limit: real)
  {
    exists j :: 0 <= j < |row| && Abs(row[j]) == limit
  }

  /**
   * With durations derived from dq_max no axis moves faster than dq_max on any segment,
   * and on every segment between two original waypoints some axis moves at exactly dq_max.
   */
  lemma DerivedSpeedsWithinLimit(q: seq<seq<real>>, dqMax: real, dt: seq<real>, v: seq<seq<real>>)
    requires Waypoints(q) && |q| >= 2 && dqMax > 0.0 && SlowestAxis(q, dqMax, dt) && Positive(dt)
    requires v == PaddedVelocities(q, dt)
    ensures forall k, j :: 0 <= k < |v| && 0 <= j < |q[0]| ==> Abs(v[k][j]) <= dqMax
    ensures forall k :: 1 <= k < |v| - 1 ==> AtLimit(v[k], dqMax)
  {
    forall k, j | 0 <= k < |v| && 0 <= j < |q[0]|
      ensures Abs(v[k][j]) <= dqMax
    {
      if 1 <= k < |q| {
        assert AxisDurations(q, k - 1, dqMax)[j] <= dt[k - 1];
        SpeedBound(q[k][j] - q[k - 1][j], dt[k - 1], dqMax);
      }
    }
    forall k | 1 <= k < |v| - 1
      ensures AtLimit(v[k], dqMax)
    {
      var row := AxisDurations(q, k - 1, dqMax);
      assert dt[k - 1] in row;
      var j :| 0 <= j < |row| && row[j] == dt[k - 1];
      SpeedAttained(q[k][j] - q[k - 1][j], dt[k - 1], dqMax);
      assert Abs(v[k][j]) == dqMax;
    }
  }

  /** Every blend lasts at least as long as each axis needs for its change of velocity. */
  predicate BlendTimesCover(v: seq<seq<real>>, m: nat, ddqMax: real, tb: seq<real>)
    requires |v| > 0 && Table(v, m) && ddqMax > 0.0
  {
    |tb| == |v| - 1 && forall k, j :: 0 <= k < |tb| && 0 <= j < m ==> AxisBlendTimes(v, m, ddqMax)[k][j] <= tb[k]
  }

  /**
   * Blend times are non-negative; every blend changes the velocity of every axis by
   * exactly the difference of the two segments it joins, within the acceleration limit;
   * a blend of zero time has zero acceleration.
   */
  lemma BlendAccelerationBounds(v: seq<seq<real>>, m: nat, ddqMax: real, tb: seq<real>, a: seq<seq<real>>)
    requires |v| > 0 && m > 0 && Table(v, m) && ddqMax > 0.0
    requires BlendTimesCover(v, m, ddqMax, tb) && a == BlendAccelerations(v, tb, m)
    ensures forall k :: 0 <= k < |tb| ==> 0.0 <= tb[k]
    ensures forall k, j :: 0 <= k < |tb| && 0 <= j < m ==> a[k][j] * tb[k] == v[k + 1][j] - v[k][j]
    ensures forall k, j :: 0 <= k < |tb| && 0 <= j < m ==> Abs(a[k][j]) <= ddqMax
    ensures forall k, j :: 0 <= k < |tb| && 0 <= j < m && tb[k] == 0.0 ==> a[k][j] == 0.0
  {
    var tba := AxisBlendTimes(v, m, ddqMax);
    forall k, j | 0 <= k < |tb| && 0 <= j < m
      ensures a[k][j] * tb[k] == v[k + 1][j] - v[k][j] && Abs(a[k][j]) <= ddqMax
    {
      assert tba[k][j] <= tb[k];
      AccelerationBound(v[k + 1][j] - v[k][j], tb[k], a[k][j], ddqMax);
    }
    forall k | 0 <= k < |tb|
      ensures 0.0 <= tb[k]
    {
      assert tba[k][0] <= tb[k];
    }
  }

  // ---------------------------------------------------------------------------------
  // The invariant of a constructed trajectory
  // ---------------------------------------------------------------------------------

  /**
   * What evaluation relies on: the timing is consistent, every blend changes the
   * velocity by exactly the difference of its two segments, and the padded segments
   * are at rest while every other segment reaches its next waypoint.
   */
  ghost predicate Coherent(tr: Blended)
    requires WellFormed(tr)
  {
    Timed(tr) && Ramped(tr) && Anchored(tr)
  }

  /**
   * Waypoint times start at 0 and never decrease; blend times are non-negative; bin k is
   * where blend k + 1 starts, and blend k has ended by then; the total time is not before
   * the last waypoint time.
   */
  ghost predicate Timed(tr: Blended)
    requires WellFormed(tr)
  {
    var n := |tr.t|;
    && tr.t[0] == 0.0 && NonDecreasing(tr.t)
    && (forall k :: 0 <= k < n ==> 0.0 <= tr.tb[k])
    && (forall k :: 0 <= k < n - 1 ==>
          tr.bins[k] == tr.t[k + 1] - tr.tb[k + 1] * 0.5 && tr.t[k] + tr.tb[k] * 0.5 <= tr.bins[k])
    && tr.t[n - 1] <= tr.totalTime
  }

  /** The total time lasts until the last blend has ended. */
  ghost predicate Completes(tr: Blended)
    requires WellFormed(tr)
  {
    var n := |tr.t|;
    tr.t[n - 1] + tr.tb[n - 1] * 0.5 <= tr.totalTime
  }

  /** Blend k takes the velocity from segment k to segment k + 1. */
  ghost predicate Ramped(tr: Blended)
    requires WellFormed(tr)
  {
    forall k, j :: 0 <= k < |tr.t| && 0 <= j < |tr.q[0]| ==> tr.ddq[k][j] * tr.tb[k] == tr.dq[k + 1][j] - tr.dq[k][j]
  }

  /** The padded segments rest at the end waypoints; every other segment reaches its next waypoint. */
  ghost predicate Anchored(tr: Blended)
    requires WellFormed(tr)
  {
    var n := |tr.t|;
    var m := |tr.q[0]|;
    && (forall j :: 0 <= j < m ==> tr.dq[0][j] == 0.0 && tr.dq[n][j] == 0.0)
    && tr.q[0] == tr.q[1] && tr.q[n] == tr.q[n + 1]
    && (forall k, j :: 1 <= k < n && 0 <= j < m ==> tr.dq[k][j] * (tr.t[k] - tr.t[k - 1]) == tr.q[k + 1][j] - tr.q[k][j])
  }

  /** The waypoint times and the bins of positive durations whose blends fit. */
  lemma TimesCoherent(dt: seq<real>, tb: seq<real>, t: seq<real>, bins: seq<real>)
    requires |dt| >= 1 && |tb| == |dt| + 1 && Positive(dt) && BlendsFit(tb, dt)
    requires t == StartTimes(dt) && bins == Bins(t, dt, tb)
    ensures t[0] == 0.0 && NonDecreasing(t)
    ensures forall k :: 0 <= k < |bins| ==> bins[k] == t[k + 1] - tb[k + 1] * 0.5 && t[k] + tb[k] * 0.5 <= bins[k]
  {
    StartTimesNonDecreasing(dt);
    forall k | 0 <= k < |bins|
      ensures bins[k] == t[k + 1] - tb[k + 1] * 0.5 && t[k] + tb[k] * 0.5 <= bins[k]
    {
      assert t[k + 1] == t[k] + dt[k];
      assert tb[k] + tb[k + 1] <= 2.0 * dt[k];
    }
  }

  /**
   * The start and total times: as written, from the first axis' blend times, total_time
   * is at least the sum of the durations and at most the corrected total time, which
   * lasts until the last blend has ended; start_time as written is not before the
   * corrected one, and neither is after 0. When the first axis is the slowest in the last
   * blend, total_time as written lasts until that blend has ended too.
   */
  lemma TotalTimesOrdered(v: seq<seq<real>>, m: nat, ddqMax: real, dt: seq<real>)
    requires |v| == |dt| + 2 && m > 0 && Table(v, m) && ddqMax > 0.0
    ensures var tba, tb := AxisBlendTimes(v, m, ddqMax), WaypointBlendTimes(v, m, ddqMax);
      && Sum(dt) <= TotalTimeOf(AsWritten, tba, tb, dt) <= TotalTimeOf(Corrected, tba, tb, dt)
      && Sum(dt) + tb[|dt|] * 0.5 <= TotalTimeOf(Corrected, tba, tb, dt)
      && StartTimeOf(Corrected, tba, tb) <= StartTimeOf(AsWritten, tba, tb) <= 0.0
      && (tba[|dt|][0] == tb[|dt|] ==> Sum(dt) + tb[|dt|] * 0.5 <= TotalTimeOf(AsWritten, tba, tb, dt))
  {
    FirstAxisBlend(v, m, ddqMax, 0);
    FirstAxisBlend(v, m, ddqMax, |dt|);
  }

  /** The first axis' time for blend k is non-negative and at most the blend time. */
  lemma FirstAxisBlend(v: seq<seq<real>>, m: nat, ddqMax: real, k: nat)
    requires |v| > 0 && m > 0 && Table(v, m) && ddqMax > 0.0 && k < |v| - 1
    ensures 0.0 <= AxisBlendTimes(v, m, ddqMax)[k][0] <= WaypointBlendTimes(v, m, ddqMax)[k]
  {
    NonNegativeQuotient(Abs(v[k + 1][0] - v[k][0]), ddqMax);
  }

  /** A non-negative number over a positive one is non-negative. */
  lemma NonNegativeQuotient(x: real, y: real)
    requires 0.0 <= x && 0.0 < y
    ensures 0.0 <= x / y
  {
  }

  /** The defining facts of the tables Construct returns, each in the form the invariant uses. */
  lemma ConstructTables(variant: Variant, q: seq<seq<real>>, dt: seq<real>, ddqMax: real, tr: Blended)
    requires Admissible(q, dt, ddqMax) && tr == Construct(variant, q, dt, ddqMax)
    ensures WellFormed(tr) && |tr.t| == |q| && |tr.q[0]| == |q[0]|
    ensures tr.q == Padded(q) && tr.dq == PaddedVelocities(q, dt)
    ensures BlendTimesCover(tr.dq, |q[0]|, ddqMax, tr.tb)
    ensures tr.ddq == BlendAccelerations(tr.dq, tr.tb, |q[0]|)
    ensures tr.t == StartTimes(dt) && tr.bins == Bins(tr.t, dt, tr.tb) && tr.t[|q| - 1] <= tr.totalTime
    ensures variant == Corrected ==> tr.t[|q| - 1] + tr.tb[|q| - 1] * 0.5 <= tr.totalTime
    ensures tr.tb == WaypointBlendTimes(tr.dq, |q[0]|, ddqMax) && tr.t[|dt|] == Sum(dt)
    ensures tr.totalTime == TotalTimeOf(variant, AxisBlendTimes(tr.dq, |q[0]|, ddqMax), tr.tb, dt)
  {
    TotalTimesOrdered(tr.dq, |q[0]|, ddqMax, dt);
  }

  /** Tables with those defining facts satisfy the invariant when the blends fit. */
  lemma TablesCoherent(q: seq<seq<real>>, dt: seq<real>, ddqMax: real, tr: Blended)
    requires Admissible(q, dt, ddqMax) && WellFormed(tr) && |tr.t| == |q| && |tr.q[0]| == |q[0]|
    requires tr.q == Padded(q) && tr.dq == PaddedVelocities(q, dt)
    requires BlendTimesCover(tr.dq, |q[0]|, ddqMax, tr.tb)
    requires tr.ddq == BlendAccelerations(tr.dq, tr.tb, |q[0]|)
    requires tr.t == StartTimes(dt) && tr.bins == Bins(tr.t, dt, tr.tb) && tr.t[|q| - 1] <= tr.totalTime
    requires BlendsFit(tr.tb, dt)
    ensures Coherent(tr) && tr.q[|q|] == q[|q| - 1]
  {
    TablesTimed(dt, tr, |q[0]|, ddqMax);
    TablesRamped(tr, |q[0]|, ddqMax);
    TablesAnchored(q, dt, tr);
  }

  /** The timing part of the invariant. */
  lemma TablesTimed(dt: seq<real>, tr: Blended, m: nat, ddqMax: real)
    requires WellFormed(tr) && |dt| >= 1 && |tr.t| == |dt| + 1 && m == |tr.q[0]| && ddqMax > 0.0
    requires Positive(dt) && BlendsFit(tr.tb, dt) && BlendTimesCover(tr.dq, m, ddqMax, tr.tb)
    requires tr.t == StartTimes(dt) && tr.bins == Bins(tr.t, dt, tr.tb) && tr.t[|dt|] <= tr.totalTime
    ensures Timed(tr)
  {
    TimesCoherent(dt, tr.tb, tr.t, tr.bins);
    BlendAccelerationBounds(tr.dq, m, ddqMax, tr.tb, BlendAccelerations(tr.dq, tr.tb, m));
  }

  /** The blend part of the invariant. */
  lemma TablesRamped(tr: Blended, m: nat, ddqMax: real)
    requires WellFormed(tr) && m == |tr.q[0]| && ddqMax > 0.0
    requires BlendTimesCover(tr.dq, m, ddqMax, tr.tb) && tr.ddq == BlendAccelerations(tr.dq, tr.tb, m)
    ensures Ramped(tr)
  {
    BlendAccelerationBounds(tr.dq, m, ddqMax, tr.tb, tr.ddq);
  }

  /** The waypoint part of the invariant. */
  lemma TablesAnchored(q: seq<seq<real>>, dt: seq<real>, tr: Blended)
    requires Waypoints(q) && |q| >= 2 && |dt| == |q| - 1 && Positive(dt)
    requires WellFormed(tr) && |tr.t| == |q| && |tr.q[0]| == |q[0]|
    requires tr.q == Padded(q) && tr.dq == PaddedVelocities(q, dt) && tr.t == StartTimes(dt)
    ensures Anchored(tr) && tr.q[|q|] == q[|q| - 1]
  {
    PaddedAtRest(q, dt, tr.q, tr.dq, tr.t);
  }

  /**
   * The tables of Construct satisfy the invariant when the blends fit; corrected, their
   * total time lasts until the last blend has ended.
   */
  lemma ConstructCoherent(variant: Variant, q: seq<seq<real>>, dt: seq<real>, ddqMax: real, tr: Blended)
    requires Admissible(q, dt, ddqMax) && tr == Construct(variant, q, dt, ddqMax) && BlendsFit(tr.tb, dt)
    ensures WellFormed(tr) && Coherent(tr) && (variant == Corrected ==> Completes(tr))
    ensures |tr.t| == |q| && |tr.q[0]| == |q[0]| && tr.q[|q|] == q[|q| - 1]
  {
    ConstructTables(variant, q, dt, ddqMax, tr);
    TablesCoherent(q, dt, ddqMax, tr);
  }

  /**
   * A trajectory the constructor returns, as written or corrected, satisfies the
   * invariant; the corrected one's total time lasts until the last blend has ended.
   */
  lemma BuiltCoherent(variant: Variant, q: seq<seq<real>>, dur: Durations, ddqMax: real, tr: Blended)
    requires Waypoints(q) && BuildSpec(variant, q, dur, ddqMax) == Ok(tr)
    ensures WellFormed(tr) && Coherent(tr) && (variant == Corrected ==> Completes(tr))
    ensures |tr.t| == |q| && |tr.q[0]| == |q[0]| && tr.q[|q|] == q[|q| - 1]
  {
    ConstructCoherent(variant, q, SegmentDurations(q, dur), ddqMax, tr);
  }

  /**
   * The constructor as written and corrected succeed and fail alike and build the same
   * tables; they differ only in start_time and total_time, where the one as written
   * starts no earlier and ends no later.
   */
  lemma CorrectionKeepsTables(q: seq<seq<real>>, dur: Durations, ddqMax: real)
    requires |q| > 0 ==> Waypoints(q)
    ensures var w, c := BuildSpec(AsWritten, q, dur, ddqMax), BuildSpec(Corrected, q, dur, ddqMax);
      && w.Ok? == c.Ok? && (w.Err? ==> w == c)
      && (w.Ok? ==>
            && w.value == c.value.(startTime := w.value.startTime, totalTime := w.value.totalTime)
            && c.value.startTime <= w.value.startTime && w.value.totalTime <= c.value.totalTime)
  {
    var w, c := BuildSpec(AsWritten, q, dur, ddqMax), BuildSpec(Corrected, q, dur, ddqMax);
    if w.Ok? || c.Ok? {
      ConstructVariants(q, SegmentDurations(q, dur), ddqMax);
    }
  }

  /** Construct as written and corrected differ only in the start and total times. */
  lemma ConstructVariants(q: seq<seq<real>>, dt: seq<real>, ddqMax: real)
    requires Admissible(q, dt, ddqMax)
    ensures var w, c := Construct(AsWritten, q, dt, ddqMax), Construct(Corrected, q, dt, ddqMax);
      && w == c.(startTime := w.startTime, totalTime := w.totalTime)
      && c.startTime <= w.startTime && w.totalTime <= c.totalTime
  {
    var w, c := Construct(AsWritten, q, dt, ddqMax), Construct(Corrected, q, dt, ddqMax);
    TotalTimesOrdered(w.dq, |q[0]|, ddqMax, dt);
  }
}
