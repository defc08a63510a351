/**
 * One segment of the exact trapezoidal planner (TrapezoidalTrajectory.solve and
 * eval_constraint): given the two waypoints, the boundary velocities and the limits,
 * the shared segment duration and, per axis, the acceleration and deceleration
 * times, the coast velocity and the acceleration.
 */
module Segment {
  import opened Wrappers
  import opened Variants
  import opened RealMath

  /** The per-axis tables solve returns: t, ta, td, dq (coast velocity) and ddq. */
  datatype Solution = Solution(dt: real, ta: seq<real>, td: seq<real>, v: seq<real>, a: seq<real>)

  /** A solution with one entry per axis in every table. */
  predicate SolutionShape(sol: Solution, m: nat)
  {
    |sol.ta| == m && |sol.td| == m && |sol.v| == m && |sol.a| == m
  }

  /** The assertion of solve failed: no profile meets the limits on some axis. */
  datatype SolveError = InfeasibleConstraint

  /** eval_constraint on one axis (eq. 3.14 of Biagiotti and Melchiorri). */
  predicate EvalConstraint(q0: real, q1: real, dq0: real, dq1: real, ddqMax: real)
  {
    ddqMax * Abs(q1 - q0) >= Abs(dq0 * dq0 - dq1 * dq1) * 0.5
  }

  predicate SameAxes(q0: seq<real>, q1: seq<real>, dq0: seq<real>, dq1: seq<real>)
  {
    |q0| > 0 && |q1| == |q0| && |dq0| == |q0| && |dq1| == |q0|
  }

  /** The assertion of solve: eval_constraint holds on every axis (on |dq0|, |dq1|). */
  predicate Feasible(q0: seq<real>, q1: seq<real>, dq0: seq<real>, dq1: seq<real>, ddqMax: real)
    requires SameAxes(q0, q1, dq0, dq1)
  {
    forall j :: 0 <= j < |q0| ==> EvalConstraint(q0[j], q1[j], Abs(dq0[j]), Abs(dq1[j]), ddqMax)
  }

  /** Absolute displacement per axis, h = |q1 - q0|. */
  function Displacements(q0: seq<real>, q1: seq<real>): (h: seq<real>)
    requires |q1| == |q0|
    ensures |h| == |q0|
    ensures forall j :: 0 <= j < |h| ==> h[j] == Abs(q1[j] - q0[j])
  {
    seq(|q0|, j requires 0 <= j < |q0| => Abs(q1[j] - q0[j]))
  }

  /** The axis whose timing the segment follows: argmax of the displacements. */
  function DominantAxis(q0: seq<real>, q1: seq<real>): (i: nat)
    requires |q0| > 0 && |q1| == |q0|
    ensures i < |q0|
  {
    ArgMax(Displacements(q0, q1))
  }

  /** The branch test of solve: the coast velocity dq_max is reached. */
  predicate ReachesMaxVelocity(h: real, v0: real, v1: real, dqMax: real, ddqMax: real)
  {
    h * ddqMax > dqMax * dqMax - (v0 * v0 + v1 * v1) * 0.5
  }

  /** Timing of the dominant axis: duration t, ta, td and the peak speed vlim. */
  datatype Profile = Profile(t: real, ta: real, td: real, vlim: real)

  /** The first-axis part of solve, on speeds v0 = |dq0|, v1 = |dq1|. */
  function DominantProfile(h: real, v0: real, v1: real, dqMax: real, ddqMax: real, sqrt: real -> real): (p: Profile)
    requires dqMax > 0.0 && ddqMax > 0.0
    ensures p.ta == RampTime(v0, p.vlim, ddqMax) && p.td == RampTime(v1, p.vlim, ddqMax)
  {
    if ReachesMaxVelocity(h, v0, v1, dqMax, ddqMax) then
      var ta := (dqMax - v0) / ddqMax;
      var td := (dqMax - v1) / ddqMax;
      var t := h / dqMax
        + (dqMax / (2.0 * ddqMax)) * (1.0 - v0 / dqMax) * (1.0 - v0 / dqMax)
        + (dqMax / (2.0 * ddqMax)) * (1.0 - v1 / dqMax) * (1.0 - v1 / dqMax);
      Profile(t, ta, td, dqMax)
    else
      var vlim := sqrt(h * ddqMax + (v0 * v0 + v1 * v1) * 0.5);
      var ta := (vlim - v0) / ddqMax;
      var td := (vlim - v1) / ddqMax;
      Profile(ta + td, ta, td, vlim)
  }

  /** The argument of the square root in the coordinated speed of an axis. */
  function Discriminant(h: real, v0: real, v1: real, t: real, ddqMax: real): (d: real)
  {
    ddqMax * ddqMax * t * t - 4.0 * ddqMax * h + 2.0 * ddqMax * (v0 + v1) * t - (v0 - v1) * (v0 - v1)
  }

  /** The coast speed solve gives every other axis for the shared duration t. */
  function CoordinatedSpeed(h: real, v0: real, v1: real, t: real, ddqMax: real, sqrt: real -> real): (v: real)
  {
    0.5 * (v0 + v1 + ddqMax * t - sqrt(Discriminant(h, v0, v1, t, ddqMax)))
  }

  /** A row that is x at axis i and 0 elsewhere (np.zeros then one assignment). */
  function OnlyAt(n: nat, i: nat, x: real): (r: seq<real>)
    ensures |r| == n
    ensures forall k :: 0 <= k < n ==> r[k] == if k == i then x else 0.0
  {
    seq(n, k requires 0 <= k < n => if k == i then x else 0.0)
  }

  /** Elementwise product of two rows (NumPy's `*` on equal shapes). */
  function Times(s: seq<real>, x: seq<real>): (r: seq<real>)
    requires |x| == |s|
    ensures |r| == |s|
    ensures forall k :: 0 <= k < |s| ==> r[k] == s[k] * x[k]
  {
    seq(|s|, k requires 0 <= k < |s| => s[k] * x[k])
  }

  /** A row scaled by a scalar (NumPy broadcasting). */
  function Scaled(s: seq<real>, c: real): (r: seq<real>)
    ensures |r| == |s|
    ensures forall k :: 0 <= k < |s| ==> r[k] == s[k] * c
  {
    seq(|s|, k requires 0 <= k < |s| => s[k] * c)
  }

  /** s = np.sign(q1 - q0). */
  function Directions(q0: seq<real>, q1: seq<real>): (s: seq<real>)
    requires |q1| == |q0|
    ensures |s| == |q0|
    ensures forall k :: 0 <= k < |s| ==> s[k] == Sign(q1[k] - q0[k])
  {
    seq(|q0|, k requires 0 <= k < |q0| => Sign(q1[k] - q0[k]))
  }

  /** vlim of solve: the dominant axis' peak speed at i, the coordinated speed elsewhere. */
  function PeakSpeeds(q0: seq<real>, q1: seq<real>, dq0: seq<real>, dq1: seq<real>,
                      i: nat, p: Profile, ddqMax: real, sqrt: real -> real): (r: seq<real>)
    requires SameAxes(q0, q1, dq0, dq1)
    ensures |r| == |q0|
    ensures forall k :: 0 <= k < |q0| ==>
      r[k] == (if k == i then p.vlim else CoordinatedSpeed(Abs(q1[k] - q0[k]), Abs(dq0[k]), Abs(dq1[k]), p.t, ddqMax, sqrt))
  {
    seq(|q0|, k requires 0 <= k < |q0| =>
      if k == i then p.vlim else CoordinatedSpeed(Abs(q1[k] - q0[k]), Abs(dq0[k]), Abs(dq1[k]), p.t, ddqMax, sqrt))
  }

  /** The speeds of a row of signed velocities (np.abs). */
  function Speeds(dq: seq<real>): (r: seq<real>)
    ensures |r| == |dq|
    ensures forall k :: 0 <= k < |dq| ==> r[k] == Abs(dq[k])
  {
    seq(|dq|, k requires 0 <= k < |dq| => Abs(dq[k]))
  }

  /** The time a ramp at acceleration a takes from speed v to speed vl. */
  function RampTime(v: real, vl: real, a: real): (t: real)
    requires a > 0.0
  {
    (vl - v) / a
  }

  /** Per axis, the time a ramp at ddq_max takes from speed v[k] to the peak speed vl[k]. */
  function RampTimes(vl: seq<real>, v: seq<real>, ddqMax: real): (r: seq<real>)
    requires |v| == |vl| && ddqMax > 0.0
    ensures |r| == |vl|
    ensures forall k :: 0 <= k < |vl| ==> r[k] == RampTime(v[k], vl[k], ddqMax)
  {
    seq(|vl|, k requires 0 <= k < |vl| => RampTime(v[k], vl[k], ddqMax))
  }

  /** The dominant axis' profile of a segment. */
  function SegmentProfile(q0: seq<real>, q1: seq<real>, dq0: seq<real>, dq1: seq<real>,
                          dqMax: real, ddqMax: real, sqrt: real -> real): Profile
    requires SameAxes(q0, q1, dq0, dq1)
    requires dqMax > 0.0 && ddqMax > 0.0
  {
    var i := DominantAxis(q0, q1);
    DominantProfile(Abs(q1[i] - q0[i]), Abs(dq0[i]), Abs(dq1[i]), dqMax, ddqMax, sqrt)
  }

  /** The value solve returns (or the failure of its assertion). */
  function SolveSpec(q0: seq<real>, q1: seq<real>, dq0: seq<real>, dq1: seq<real>,
                     dqMax: real, ddqMax: real, sqrt: real -> real): (r: Result<Solution, SolveError>)
    requires SameAxes(q0, q1, dq0, dq1)
    requires dqMax > 0.0 && ddqMax > 0.0
    ensures r.Ok? <==> Feasible(q0, q1, dq0, dq1, ddqMax)
    ensures r.Ok? ==> SolutionShape(r.value, |q0|)
  {
    if !Feasible(q0, q1, dq0, dq1, ddqMax) then Err(InfeasibleConstraint)
    else
      var i := DominantAxis(q0, q1);
      var p := SegmentProfile(q0, q1, dq0, dq1, dqMax, ddqMax, sqrt);
      var s := Directions(q0, q1);
      Ok(Solution(p.t, OnlyAt(|q0|, i, p.ta), OnlyAt(|q0|, i, p.td),
                  Times(s, PeakSpeeds(q0, q1, dq0, dq1, i, p, ddqMax, sqrt)), Scaled(s, ddqMax)))
  }

  /**
   * solve with the acceleration and deceleration times of every axis filled in, as
   * the comment of solve announces and as __call__ needs for the axes to reach their
   * waypoints; on the dominant axis it agrees with SolveSpec.
   */
  function CoordinatedSolveSpec(q0: seq<real>, q1: seq<real>, dq0: seq<real>, dq1: seq<real>,
                                dqMax: real, ddqMax: real, sqrt: real -> real): (r: Result<Solution, SolveError>)
    requires SameAxes(q0, q1, dq0, dq1)
    requires dqMax > 0.0 && ddqMax > 0.0
    ensures r.Ok? <==> Feasible(q0, q1, dq0, dq1, ddqMax)
    ensures r.Ok? ==> SolutionShape(r.value, |q0|)
  {
    if !Feasible(q0, q1, dq0, dq1, ddqMax) then Err(InfeasibleConstraint)
    else
      var i := DominantAxis(q0, q1);
      var p := SegmentProfile(q0, q1, dq0, dq1, dqMax, ddqMax, sqrt);
      var s := Directions(q0, q1);
      var vl := PeakSpeeds(q0, q1, dq0, dq1, i, p, ddqMax, sqrt);
      Ok(Solution(p.t, RampTimes(vl, Speeds(dq0), ddqMax), RampTimes(vl, Speeds(dq1), ddqMax),
                  Times(s, vl), Scaled(s, ddqMax)))
  }

  /** solve as written, or with the ramp times of every axis filled in. */
  function SolveWith(variant: Variant, q0: seq<real>, q1: seq<real>, dq0: seq<real>, dq1: seq<real>,
                     dqMax: real, ddqMax: real, sqrt: real -> real): (r: Result<Solution, SolveError>)
    requires SameAxes(q0, q1, dq0, dq1)
    requires dqMax > 0.0 && ddqMax > 0.0
    ensures r.Ok? <==> Feasible(q0, q1, dq0, dq1, ddqMax)
    ensures r.Ok? ==> SolutionShape(r.value, |q0|)
  {
    match variant
    case AsWritten => SolveSpec(q0, q1, dq0, dq1, dqMax, ddqMax, sqrt)
    case Corrected => CoordinatedSolveSpec(q0, q1, dq0, dq1, dqMax, ddqMax, sqrt)
  }

  /**
   * solve: finds the dominant axis, checks the constraint, times the dominant axis, fills
   * the ta, td and vlim rows and signs the speeds by the direction of motion.
   */
  method Solve(q0: seq<real>, q1: seq<real>, dq0: seq<real>, dq1: seq<real>,
               dqMax: real, ddqMax: real, sqrt: real -> real) returns (r: Result<Solution, SolveError>)
    requires SameAxes(q0, q1, dq0, dq1)
    requires dqMax > 0.0 && ddqMax > 0.0
    ensures r == SolveSpec(q0, q1, dq0, dq1, dqMax, ddqMax, sqrt)
  {
    var h := Displacements(q0, q1);
    var s := Directions(q0, q1);
    var i := ArgMax(h);
    if !Feasible(q0, q1, dq0, dq1, ddqMax) {
      return Err(InfeasibleConstraint);
    }
    var p := DominantProfile(h[i], Abs(dq0[i]), Abs(dq1[i]), dqMax, ddqMax, sqrt);
    var ta, td, vlim := SolveRows(h, Speeds(dq0), Speeds(dq1), i, p, ddqMax, sqrt);
    SegmentTiming(q0, q1, dq0, dq1, dqMax, ddqMax, sqrt, i, p);
    PeakRow(q0, q1, dq0, dq1, i, p, ddqMax, sqrt, vlim);
    SolveResult(q0, q1, dq0, dq1, dqMax, ddqMax, sqrt, i, p, vlim, ta, td);
    r := Ok(Solution(p.t, ta, td, Times(s, vlim), Scaled(s, ddqMax)));
  }

  /**
   * solve as CoordinatedSolveSpec corrects it: after the peak speeds, the ramp times of
   * the other axes are set from them as well.
   */
  method SolveCoordinated(q0: seq<real>, q1: seq<real>, dq0: seq<real>, dq1: seq<real>,
                          dqMax: real, ddqMax: real, sqrt: real -> real) returns (r: Result<Solution, SolveError>)
    requires SameAxes(q0, q1, dq0, dq1)
    requires dqMax > 0.0 && ddqMax > 0.0
    ensures r == CoordinatedSolveSpec(q0, q1, dq0, dq1, dqMax, ddqMax, sqrt)
  {
    var h := Displacements(q0, q1);
    var s := Directions(q0, q1);
    var i := ArgMax(h);
    if !Feasible(q0, q1, dq0, dq1, ddqMax) {
      return Err(InfeasibleConstraint);
    }
    var p := DominantProfile(h[i], Abs(dq0[i]), Abs(dq1[i]), dqMax, ddqMax, sqrt);
    var ta, td, vlim := CoordinatedRows(h, Speeds(dq0), Speeds(dq1), i, p, ddqMax, sqrt);
    SegmentTiming(q0, q1, dq0, dq1, dqMax, ddqMax, sqrt, i, p);
    PeakRow(q0, q1, dq0, dq1, i, p, ddqMax, sqrt, vlim);
    CoordinatedResult(q0, q1, dq0, dq1, dqMax, ddqMax, sqrt, i, p, vlim, ta, td);
    r := Ok(Solution(p.t, ta, td, Times(s, vlim), Scaled(s, ddqMax)));
  }

  /**
   * The rows of solve on speeds v0 = |dq0|, v1 = |dq1|: ta and td are zero but at the
   * dominant axis i; vlim holds the dominant peak at i and the coordinated speed elsewhere.
   */
  method SolveRows(h: seq<real>, v0: seq<real>, v1: seq<real>, i: nat, p: Profile, ddqMax: real, sqrt: real -> real)
    returns (ta: seq<real>, td: seq<real>, vlim: seq<real>)
    requires |v0| == |h| && |v1| == |h| && i < |h|
    ensures ta == OnlyAt(|h|, i, p.ta) && td == OnlyAt(|h|, i, p.td)
    ensures |vlim| == |h| && vlim[i] == p.vlim
    ensures forall k :: 0 <= k < |h| && k != i ==> vlim[k] == CoordinatedSpeed(h[k], v0[k], v1[k], p.t, ddqMax, sqrt)
  {
    var accel := new real[|h|](_ => 0.0);
    var decel := new real[|h|](_ => 0.0);
    var peak := new real[|h|](_ => 0.0);
    peak[i], accel[i], decel[i] := p.vlim, p.ta, p.td;
    CoordinateSpeeds(h, v0, v1, i, p.t, ddqMax, sqrt, peak);
    OnlyAtRow(accel[..], i, p.ta);
    OnlyAtRow(decel[..], i, p.td);
    ta, td, vlim := accel[..], decel[..], peak[..];
  }

  /** The rows of the corrected solve: as SolveRows, but every axis ramps to its own peak speed. */
  method CoordinatedRows(h: seq<real>, v0: seq<real>, v1: seq<real>, i: nat, p: Profile, ddqMax: real, sqrt: real -> real)
    returns (ta: seq<real>, td: seq<real>, vlim: seq<real>)
    requires |v0| == |h| && |v1| == |h| && i < |h| && ddqMax > 0.0
    requires p.ta == RampTime(v0[i], p.vlim, ddqMax) && p.td == RampTime(v1[i], p.vlim, ddqMax)
    ensures |vlim| == |h| && vlim[i] == p.vlim
    ensures forall k :: 0 <= k < |h| && k != i ==> vlim[k] == CoordinatedSpeed(h[k], v0[k], v1[k], p.t, ddqMax, sqrt)
    ensures ta == RampTimes(vlim, v0, ddqMax) && td == RampTimes(vlim, v1, ddqMax)
  {
    var accel := new real[|h|](_ => 0.0);
    var decel := new real[|h|](_ => 0.0);
    var peak := new real[|h|](_ => 0.0);
    peak[i], accel[i], decel[i] := p.vlim, p.ta, p.td;
    CoordinateSpeeds(h, v0, v1, i, p.t, ddqMax, sqrt, peak);
    RampOtherAxes(peak, v0, i, ddqMax, accel);
    RampOtherAxes(peak, v1, i, ddqMax, decel);
    RampRow(peak[..], v0, ddqMax, i, accel[..]);
    RampRow(peak[..], v1, ddqMax, i, decel[..]);
    ta, td, vlim := accel[..], decel[..], peak[..];
  }

  /** The index and profile solve computes are the segment's dominant axis and profile. */
  lemma SegmentTiming(q0: seq<real>, q1: seq<real>, dq0: seq<real>, dq1: seq<real>, dqMax: real, ddqMax: real,
                      sqrt: real -> real, i: nat, p: Profile)
    requires SameAxes(q0, q1, dq0, dq1) && dqMax > 0.0 && ddqMax > 0.0
    requires i == ArgMax(Displacements(q0, q1))
    requires p == DominantProfile(Displacements(q0, q1)[i], Abs(dq0[i]), Abs(dq1[i]), dqMax, ddqMax, sqrt)
    ensures i == DominantAxis(q0, q1) && p == SegmentProfile(q0, q1, dq0, dq1, dqMax, ddqMax, sqrt)
  {
  }

  /** A row that holds x at i and 0 elsewhere is OnlyAt(|row|, i, x). */
  lemma OnlyAtRow(row: seq<real>, i: nat, x: real)
    requires i < |row| && row[i] == x
    requires forall k :: 0 <= k < |row| && k != i ==> row[k] == 0.0
    ensures row == OnlyAt(|row|, i, x)
  {
  }

  /** A row that holds the dominant peak at i and the coordinated speed elsewhere is the peak-speed row. */
  lemma PeakRow(q0: seq<real>, q1: seq<real>, dq0: seq<real>, dq1: seq<real>,
                i: nat, p: Profile, ddqMax: real, sqrt: real -> real, row: seq<real>)
    requires SameAxes(q0, q1, dq0, dq1) && i < |row| == |q0|
    requires row[i] == p.vlim
    requires forall k :: 0 <= k < |row| && k != i ==>
      row[k] == CoordinatedSpeed(Displacements(q0, q1)[k], Speeds(dq0)[k], Speeds(dq1)[k], p.t, ddqMax, sqrt)
    ensures row == PeakSpeeds(q0, q1, dq0, dq1, i, p, ddqMax, sqrt)
  {
  }

  /** A row that holds the ramp time of every axis is the ramp-time row. */
  lemma RampRow(vl: seq<real>, v: seq<real>, ddqMax: real, i: nat, row: seq<real>)
    requires ddqMax > 0.0 && i < |row| && |row| == |vl| == |v|
    requires row[i] == RampTime(v[i], vl[i], ddqMax)
    requires forall k :: 0 <= k < |row| && k != i ==> row[k] == RampTime(v[k], vl[k], ddqMax)
    ensures row == RampTimes(vl, v, ddqMax)
  {
  }

  /** The rows solve assembles are those of SolveSpec. */
  lemma SolveResult(q0: seq<real>, q1: seq<real>, dq0: seq<real>, dq1: seq<real>, dqMax: real, ddqMax: real,
                    sqrt: real -> real, i: nat, p: Profile, vl: seq<real>, ta: seq<real>, td: seq<real>)
    requires SameAxes(q0, q1, dq0, dq1) && dqMax > 0.0 && ddqMax > 0.0 && Feasible(q0, q1, dq0, dq1, ddqMax)
    requires i == DominantAxis(q0, q1) && p == SegmentProfile(q0, q1, dq0, dq1, dqMax, ddqMax, sqrt)
    requires vl == PeakSpeeds(q0, q1, dq0, dq1, i, p, ddqMax, sqrt)
    requires ta == OnlyAt(|q0|, i, p.ta) && td == OnlyAt(|q0|, i, p.td)
    ensures SolveSpec(q0, q1, dq0, dq1, dqMax, ddqMax, sqrt)
      == Ok(Solution(p.t, ta, td, Times(Directions(q0, q1), vl), Scaled(Directions(q0, q1), ddqMax)))
  {
  }

  /** The rows the corrected solve assembles are those of CoordinatedSolveSpec. */
  lemma CoordinatedResult(q0: seq<real>, q1: seq<real>, dq0: seq<real>, dq1: seq<real>, dqMax: real, ddqMax: real,
                          sqrt: real -> real, i: nat, p: Profile, vl: seq<real>, ta: seq<real>, td: seq<real>)
    requires SameAxes(q0, q1, dq0, dq1) && dqMax > 0.0 && ddqMax > 0.0 && Feasible(q0, q1, dq0, dq1, ddqMax)
    requires i == DominantAxis(q0, q1) && p == SegmentProfile(q0, q1, dq0, dq1, dqMax, ddqMax, sqrt)
    requires vl == PeakSpeeds(q0, q1, dq0, dq1, i, p, ddqMax, sqrt)
    requires ta == RampTimes(vl, Speeds(dq0), ddqMax) && td == RampTimes(vl, Speeds(dq1), ddqMax)
    ensures CoordinatedSolveSpec(q0, q1, dq0, dq1, dqMax, ddqMax, sqrt)
      == Ok(Solution(p.t, ta, td, Times(Directions(q0, q1), vl), Scaled(Directions(q0, q1), ddqMax)))
  {
  }

  /**
   * The masked assignment of solve: every axis but the dominant one i gets the peak
   * speed that lets it cover h[k] in the shared duration t.
   */
  method CoordinateSpeeds(h: seq<real>, v0: seq<real>, v1: seq<real>, i: nat, t: real, ddqMax: real,
                          sqrt: real -> real, vlim: array<real>)
    requires |h| == vlim.Length && |v0| == |h| && |v1| == |h| && i < |h|
    modifies vlim
    ensures vlim[i] == old(vlim[i])
    ensures forall k :: 0 <= k < |h| && k != i ==> vlim[k] == CoordinatedSpeed(h[k], v0[k], v1[k], t, ddqMax, sqrt)
  {
    for j := 0 to |h|
      invariant vlim[i] == old(vlim[i])
      invariant forall k :: 0 <= k < j && k != i ==> vlim[k] == CoordinatedSpeed(h[k], v0[k], v1[k], t, ddqMax, sqrt)
    {
      if j != i {
        vlim[j] := CoordinatedSpeed(h[j], v0[j], v1[j], t, ddqMax, sqrt);
      }
    }
  }

  /** The correction's masked assignment: the other axes ramp between v[k] and vlim[k]. */
  method RampOtherAxes(vlim: array<real>, v: seq<real>, i: nat, ddqMax: real, ramp: array<real>)
    requires ramp.Length == vlim.Length && |v| == vlim.Length && i < vlim.Length && ddqMax > 0.0
    requires ramp != vlim
    modifies ramp
    ensures ramp[i] == old(ramp[i])
    ensures forall k :: 0 <= k < ramp.Length && k != i ==> ramp[k] == RampTime(v[k], vlim[k], ddqMax)
  {
    for j := 0 to ramp.Length
      invariant ramp[i] == old(ramp[i])
      invariant forall k :: 0 <= k < j && k != i ==> ramp[k] == RampTime(v[k], vlim[k], ddqMax)
    {
      if j != i {
        ramp[j] := RampTime(v[j], vlim[j], ddqMax);
      }
    }
  }
}
