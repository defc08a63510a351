/**
 * What __call__ of TrapezoidalTrajectory guarantees about one axis of one segment:
 * the masks select exactly one phase, the phases join, and the segment starts at its
 * first waypoint and ends at its second with the waypoint velocities.
 */
module TrapezoidalProperties {
  import opened Wrappers
  import opened Variants
  import opened RealMath
  import opened Segment
  import opened SegmentProperties
  import opened Trapezoidal

  /**
   * With 0 <= ta, 0 <= td and ta + td <= dt, exactly one mask of __call__ is set: the
   * state is the acceleration formula before ta, the deceleration formula after
   * dt - td and the coast formula in between, and the acceleration is a, -a or 0.
   */
  lemma PhasesExclusive(q0: real, q1: real, v0: real, v1: real, dt: real,
                        ta: real, td: real, v: real, a: real, tau: real)
    requires 0.0 <= ta && 0.0 <= td && ta + td <= dt
    ensures var s := AxisState(q0, q1, v0, v1, dt, ta, td, v, a, tau);
      && (tau < ta ==> s == State(AccelPosition(q0, v0, a, tau), v0 + a * tau, a))
      && (tau > dt - td ==> s == State(DecelPosition(q1, v1, a, dt, tau), v1 + a * (dt - tau), -a))
      && (ta <= tau <= dt - td ==> s == State(CoastPosition(q0, v0, ta, v, tau), v, 0.0))
  {
    if tau < ta {
      assert !(tau > dt - td);
    }
  }

  /**
   * The phase conditions of one axis in the signed values __call__ uses: the coast
   * velocity is reached from v0 after ta and left to v1 during td at acceleration a,
   * and the three phases together cover the displacement q1 - q0.
   */
  predicate Joins(q0: real, q1: real, v0: real, v1: real, dt: real, ta: real, td: real, v: real, a: real)
  {
    && 0.0 <= ta && 0.0 <= td && ta + td <= dt
    && v == v0 + a * ta && v == v1 + a * td
    && q1 - q0 == v0 * ta + 0.5 * a * ta * ta + v * (dt - ta - td) + v1 * td + 0.5 * a * td * td
  }

  lemma CoastMeetsDecel(q0: real, q1: real, v0: real, v1: real, dt: real, ta: real, td: real, v: real, a: real)
    requires Joins(q0, q1, v0, v1, dt, ta, td, v, a)
    ensures CoastPosition(q0, v0, ta, v, dt - td) == DecelPosition(q1, v1, a, dt, dt - td)
  {
    assert dt - (dt - td) == td;
    assert CoastPosition(q0, v0, ta, v, dt - td) - q0 == v0 * ta * 0.5 + v * (dt - td - ta * 0.5);
    assert DecelPosition(q1, v1, a, dt, dt - td) - q0 == (q1 - q0) - v1 * td - 0.5 * a * td * td;
    assert v0 * ta * 0.5 + v * (dt - td - ta * 0.5) == v0 * ta + 0.5 * a * ta * ta + v * (dt - ta - td)
      by { assert ta * 0.5 * (v0 + a * ta - v) == 0.0; }
  }

  /**
   * The phases join: position and velocity of the acceleration formula at ta equal the
   * coast formula's, and the coast formula meets the deceleration formula at dt - td.
   */
  lemma PhasesJoin(q0: real, q1: real, v0: real, v1: real, dt: real, ta: real, td: real, v: real, a: real)
    requires Joins(q0, q1, v0, v1, dt, ta, td, v, a)
    ensures AccelPosition(q0, v0, a, ta) == CoastPosition(q0, v0, ta, v, ta) && v0 + a * ta == v
    ensures CoastPosition(q0, v0, ta, v, dt - td) == DecelPosition(q1, v1, a, dt, dt - td)
    ensures v == v1 + a * (dt - (dt - td))
  {
    assert AccelPosition(q0, v0, a, ta) - CoastPosition(q0, v0, ta, v, ta) == ta * 0.5 * (v0 + a * ta - v);
    CoastMeetsDecel(q0, q1, v0, v1, dt, ta, td, v, a);
  }

  /**
   * A segment evaluated at its start is at its first waypoint with the first waypoint's
   * velocity, and at its end at the second waypoint with the second waypoint's velocity.
   */
  lemma SegmentEndpoints(q0: real, q1: real, v0: real, v1: real, dt: real, ta: real, td: real, v: real, a: real)
    requires Joins(q0, q1, v0, v1, dt, ta, td, v, a)
    ensures var s := AxisState(q0, q1, v0, v1, dt, ta, td, v, a, 0.0); s.q == q0 && s.dq == v0
    ensures var s := AxisState(q0, q1, v0, v1, dt, ta, td, v, a, dt); s.q == q1 && s.dq == v1
  {
    SegmentStart(q0, q1, v0, v1, dt, ta, td, v, a);
    SegmentEnd(q0, q1, v0, v1, dt, ta, td, v, a);
  }

  lemma SegmentStart(q0: real, q1: real, v0: real, v1: real, dt: real, ta: real, td: real, v: real, a: real)
    requires Joins(q0, q1, v0, v1, dt, ta, td, v, a)
    ensures var s := AxisState(q0, q1, v0, v1, dt, ta, td, v, a, 0.0); s.q == q0 && s.dq == v0
  {
    PhasesExclusive(q0, q1, v0, v1, dt, ta, td, v, a, 0.0);
  }

  lemma SegmentEnd(q0: real, q1: real, v0: real, v1: real, dt: real, ta: real, td: real, v: real, a: real)
    requires Joins(q0, q1, v0, v1, dt, ta, td, v, a)
    ensures var s := AxisState(q0, q1, v0, v1, dt, ta, td, v, a, dt); s.q == q1 && s.dq == v1
  {
    PhasesExclusive(q0, q1, v0, v1, dt, ta, td, v, a, dt);
    if td == 0.0 {
      CoastMeetsDecel(q0, q1, v0, v1, dt, ta, td, v, a);
    }
  }

  lemma ScaleJoins(s: real, h: real, v0: real, v1: real, a: real, dt: real, ta: real, td: real, vl: real)
    requires vl == v0 + a * ta && vl == v1 + a * td
    requires h == v0 * ta + 0.5 * a * ta * ta + vl * (dt - ta - td) + v1 * td + 0.5 * a * td * td
    ensures s * vl == s * v0 + (s * a) * ta && s * vl == s * v1 + (s * a) * td
    ensures s * h == (s * v0) * ta + 0.5 * (s * a) * ta * ta + (s * vl) * (dt - ta - td) + (s * v1) * td + 0.5 * (s * a) * td * td
  {
  }

  /**
   * From speeds to signed values: an axis whose waypoint velocities point along its
   * displacement (or are zero) and whose unsigned phases fit and cover |q1 - q0| joins
   * in the signed values, with coast velocity s * vl and acceleration s * ddq_max.
   */
  lemma SignedJoins(q0: real, q1: real, dq0: real, dq1: real, a: real, p: Profile)
    requires dq0 == Sign(q1 - q0) * Abs(dq0) && dq1 == Sign(q1 - q0) * Abs(dq1)
    requires PhasesFit(Abs(dq0), Abs(dq1), a, p) && PhaseDistance(Abs(dq0), Abs(dq1), a, p) == Abs(q1 - q0)
    ensures Joins(q0, q1, dq0, dq1, p.t, p.ta, p.td, Sign(q1 - q0) * p.vlim, Sign(q1 - q0) * a)
  {
    var s := Sign(q1 - q0);
    assert q1 - q0 == s * Abs(q1 - q0);
    ScaleJoins(s, Abs(q1 - q0), Abs(dq0), Abs(dq1), a, p.t, p.ta, p.td, p.vlim);
  }

  /**
   * Waypoint velocities point along the motion of axis j in the segment from q0 to q1
   * (or are zero), as the heuristic chooses them.
   */
  predicate Aligned(q0: seq<real>, q1: seq<real>, dq0: seq<real>, dq1: seq<real>, j: nat)
    requires j < |q0| && |q1| == |q0| && |dq0| == |q0| && |dq1| == |q0|
  {
    dq0[j] == Sign(q1[j] - q0[j]) * Abs(dq0[j]) && dq1[j] == Sign(q1[j] - q0[j]) * Abs(dq1[j])
  }

  /** The peak speed the corrected solve gives axis j: vlim at the dominant axis, else the coordinated speed. */
  function AxisPeak(q0: seq<real>, q1: seq<real>, dq0: seq<real>, dq1: seq<real>,
                    dqMax: real, a: real, sqrt: real -> real, j: nat): real
    requires SameAxes(q0, q1, dq0, dq1) && dqMax > 0.0 && a > 0.0 && j < |q0|
  {
    var p := SegmentProfile(q0, q1, dq0, dq1, dqMax, a, sqrt);
    if j == DominantAxis(q0, q1) then p.vlim
    else CoordinatedSpeed(Abs(q1[j] - q0[j]), Abs(dq0[j]), Abs(dq1[j]), p.t, a, sqrt)
  }

  /** Entry j of the peak speeds solve computes is the peak speed of axis j. */
  lemma PeakAt(q0: seq<real>, q1: seq<real>, dq0: seq<real>, dq1: seq<real>,
               dqMax: real, a: real, sqrt: real -> real, j: nat)
    requires SameAxes(q0, q1, dq0, dq1) && dqMax > 0.0 && a > 0.0 && j < |q0|
    ensures PeakSpeeds(q0, q1, dq0, dq1, DominantAxis(q0, q1), SegmentProfile(q0, q1, dq0, dq1, dqMax, a, sqrt), a, sqrt)[j]
      == AxisPeak(q0, q1, dq0, dq1, dqMax, a, sqrt, j)
  {
  }

  /** A feasible segment satisfies the displacement constraint at every axis. */
  lemma FeasibleAt(q0: seq<real>, q1: seq<real>, dq0: seq<real>, dq1: seq<real>, a: real, j: nat)
    requires SameAxes(q0, q1, dq0, dq1) && j < |q0| && Feasible(q0, q1, dq0, dq1, a)
    ensures EvalConstraint(q0[j], q1[j], Abs(dq0[j]), Abs(dq1[j]), a)
  {
  }

  /** The solution CoordinatedSolveSpec builds, with its rows named. */
  lemma CoordinatedSolution(q0: seq<real>, q1: seq<real>, dq0: seq<real>, dq1: seq<real>,
                            dqMax: real, a: real, sqrt: real -> real)
    requires SameAxes(q0, q1, dq0, dq1) && dqMax > 0.0 && a > 0.0
    requires CoordinatedSolveSpec(q0, q1, dq0, dq1, dqMax, a, sqrt).Ok?
    ensures var p := SegmentProfile(q0, q1, dq0, dq1, dqMax, a, sqrt);
      var s := Directions(q0, q1);
      var vl := PeakSpeeds(q0, q1, dq0, dq1, DominantAxis(q0, q1), p, a, sqrt);
      CoordinatedSolveSpec(q0, q1, dq0, dq1, dqMax, a, sqrt).value
        == Solution(p.t, RampTimes(vl, Speeds(dq0), a), RampTimes(vl, Speeds(dq1), a), Times(s, vl), Scaled(s, a))
  {
  }

  /** Column j of a solution built from rows of speeds and directions, whose entries at j are sj, vlj, v0j and v1j. */
  lemma SolutionColumn(sol: Solution, t: real, s: seq<real>, vl: seq<real>, v0: seq<real>, v1: seq<real>, a: real, j: nat,
                       sj: real, vlj: real, v0j: real, v1j: real)
    requires a > 0.0 && |s| == |vl| == |v0| == |v1| && j < |s|
    requires sol == Solution(t, RampTimes(vl, v0, a), RampTimes(vl, v1, a), Times(s, vl), Scaled(s, a))
    requires s[j] == sj && vl[j] == vlj && v0[j] == v0j && v1[j] == v1j
    ensures sol.dt == t && sol.ta[j] == RampTime(v0j, vlj, a) && sol.td[j] == RampTime(v1j, vlj, a)
    ensures sol.v[j] == sj * vlj && sol.a[j] == sj * a
  {
  }

  /** The dominant axis joins its phases whenever its waypoint speeds are within dq_max. */
  lemma DominantAxisJoins(q0: real, q1: real, dq0: real, dq1: real, dqMax: real, a: real, sqrt: real -> real)
    requires dqMax > 0.0 && a > 0.0 && IsSqrt(sqrt)
    requires dq0 == Sign(q1 - q0) * Abs(dq0) && dq1 == Sign(q1 - q0) * Abs(dq1)
    requires Abs(dq0) <= dqMax && Abs(dq1) <= dqMax
    requires EvalConstraint(q0, q1, Abs(dq0), Abs(dq1), a)
    ensures var p := DominantProfile(Abs(q1 - q0), Abs(dq0), Abs(dq1), dqMax, a, sqrt);
      var s := Sign(q1 - q0);
      Joins(q0, q1, dq0, dq1, p.t, p.ta, p.td, s * p.vlim, s * a)
  {
    var h, v0, v1 := Abs(q1 - q0), Abs(dq0), Abs(dq1);
    var p := DominantProfile(h, v0, v1, dqMax, a, sqrt);
    assert PhasesFit(v0, v1, a, p) && PhaseDistance(v0, v1, a, p) == h by {
      DisplacementConstraint(q0, q1, v0, v1, a);
      DominantProfileFits(h, v0, v1, dqMax, a, sqrt);
    }
    SignedJoins(q0, q1, dq0, dq1, a, p);
  }

  /**
   * Any other axis joins its phases in the shared duration t, with the coordinated peak
   * speed and the ramp times to it, whenever its square root is real and its ramp times
   * fit t.
   */
  lemma OtherAxisJoins(q0: real, q1: real, dq0: real, dq1: real, t: real, a: real, sqrt: real -> real,
                       ta: real, td: real, v: real, acc: real)
    requires a > 0.0 && IsSqrt(sqrt)
    requires dq0 == Sign(q1 - q0) * Abs(dq0) && dq1 == Sign(q1 - q0) * Abs(dq1)
    requires 0.0 <= Discriminant(Abs(q1 - q0), Abs(dq0), Abs(dq1), t, a)
    requires var vl := CoordinatedSpeed(Abs(q1 - q0), Abs(dq0), Abs(dq1), t, a, sqrt);
      && ta == RampTime(Abs(dq0), vl, a) && td == RampTime(Abs(dq1), vl, a)
      && v == Sign(q1 - q0) * vl && acc == Sign(q1 - q0) * a
    requires 0.0 <= ta && 0.0 <= td && ta + td <= t
    ensures Joins(q0, q1, dq0, dq1, t, ta, td, v, acc)
  {
    var h, v0, v1 := Abs(q1 - q0), Abs(dq0), Abs(dq1);
    var vl := CoordinatedSpeed(h, v0, v1, t, a, sqrt);
    CoordinatedDistance(h, v0, v1, t, a, sqrt);
    RampTimeReaches(v0, vl, a);
    RampTimeReaches(v1, vl, a);
    SignedJoins(q0, q1, dq0, dq1, a, Profile(t, ta, td, vl));
  }

  /** DominantAxisJoins for values equal to the dominant profile's. */
  lemma DominantAxisJoinsAt(q0: real, q1: real, dq0: real, dq1: real, dqMax: real, a: real, sqrt: real -> real,
                            dt: real, ta: real, td: real, v: real, acc: real)
    requires dqMax > 0.0 && a > 0.0 && IsSqrt(sqrt)
    requires dq0 == Sign(q1 - q0) * Abs(dq0) && dq1 == Sign(q1 - q0) * Abs(dq1)
    requires Abs(dq0) <= dqMax && Abs(dq1) <= dqMax
    requires EvalConstraint(q0, q1, Abs(dq0), Abs(dq1), a)
    requires var p := DominantProfile(Abs(q1 - q0), Abs(dq0), Abs(dq1), dqMax, a, sqrt);
      dt == p.t && ta == p.ta && td == p.td && v == Sign(q1 - q0) * p.vlim && acc == Sign(q1 - q0) * a
    ensures Joins(q0, q1, dq0, dq1, dt, ta, td, v, acc)
  {
    DominantAxisJoins(q0, q1, dq0, dq1, dqMax, a, sqrt);
  }

  /** Column j of a corrected solution at its dominant axis, in the terms of the dominant profile. */
  lemma DominantColumn(q0: seq<real>, q1: seq<real>, dq0: seq<real>, dq1: seq<real>,
                       dqMax: real, a: real, sqrt: real -> real, sol: Solution, j: nat)
    requires SameAxes(q0, q1, dq0, dq1) && dqMax > 0.0 && a > 0.0 && j < |q0|
    requires CoordinatedSolveSpec(q0, q1, dq0, dq1, dqMax, a, sqrt) == Ok(sol) && j == DominantAxis(q0, q1)
    ensures var p := DominantProfile(Abs(q1[j] - q0[j]), Abs(dq0[j]), Abs(dq1[j]), dqMax, a, sqrt);
      && EvalConstraint(q0[j], q1[j], Abs(dq0[j]), Abs(dq1[j]), a)
      && sol.dt == p.t && sol.ta[j] == p.ta && sol.td[j] == p.td
      && sol.v[j] == Sign(q1[j] - q0[j]) * p.vlim && sol.a[j] == Sign(q1[j] - q0[j]) * a
  {
    CoordinatedSolution(q0, q1, dq0, dq1, dqMax, a, sqrt);
    PeakAt(q0, q1, dq0, dq1, dqMax, a, sqrt, j);
    FeasibleAt(q0, q1, dq0, dq1, a, j);
    var p := DominantProfile(Abs(q1[j] - q0[j]), Abs(dq0[j]), Abs(dq1[j]), dqMax, a, sqrt);
    SolutionColumn(sol, SegmentProfile(q0, q1, dq0, dq1, dqMax, a, sqrt).t, Directions(q0, q1),
                   PeakSpeeds(q0, q1, dq0, dq1, DominantAxis(q0, q1), SegmentProfile(q0, q1, dq0, dq1, dqMax, a, sqrt), a, sqrt),
                   Speeds(dq0), Speeds(dq1), a, j, Sign(q1[j] - q0[j]), p.vlim, Abs(dq0[j]), Abs(dq1[j]));
  }

  /** Column j of a corrected solution at any other axis, in the terms of its coordinated speed. */
  lemma OtherColumn(q0: seq<real>, q1: seq<real>, dq0: seq<real>, dq1: seq<real>,
                    dqMax: real, a: real, sqrt: real -> real, sol: Solution, j: nat)
    requires SameAxes(q0, q1, dq0, dq1) && dqMax > 0.0 && a > 0.0 && j < |q0|
    requires CoordinatedSolveSpec(q0, q1, dq0, dq1, dqMax, a, sqrt) == Ok(sol) && j != DominantAxis(q0, q1)
    ensures var vl := CoordinatedSpeed(Abs(q1[j] - q0[j]), Abs(dq0[j]), Abs(dq1[j]), sol.dt, a, sqrt);
      var vls := PeakSpeeds(q0, q1, dq0, dq1, DominantAxis(q0, q1), SegmentProfile(q0, q1, dq0, dq1, dqMax, a, sqrt), a, sqrt);
      && sol.ta[j] == RampTime(Abs(dq0[j]), vl, a) && sol.td[j] == RampTime(Abs(dq1[j]), vl, a)
      && vls[j] == vl && sol.v == Times(Directions(q0, q1), vls) && sol.a == Scaled(Directions(q0, q1), a)
  {
    CoordinatedSolution(q0, q1, dq0, dq1, dqMax, a, sqrt);
    SolutionColumn(sol, SegmentProfile(q0, q1, dq0, dq1, dqMax, a, sqrt).t, Directions(q0, q1),
                   PeakSpeeds(q0, q1, dq0, dq1, DominantAxis(q0, q1), SegmentProfile(q0, q1, dq0, dq1, dqMax, a, sqrt), a, sqrt),
                   Speeds(dq0), Speeds(dq1), a, j, Sign(q1[j] - q0[j]),
                   CoordinatedSpeed(Abs(q1[j] - q0[j]), Abs(dq0[j]), Abs(dq1[j]), sol.dt, a, sqrt), Abs(dq0[j]), Abs(dq1[j]));
  }

  /** Entry j of the signed rows of a solution. */
  lemma SignedColumn(sol: Solution, s: seq<real>, vl: seq<real>, a: real, j: nat, sj: real, vlj: real)
    requires j < |s| == |vl| && sol.v == Times(s, vl) && sol.a == Scaled(s, a) && s[j] == sj && vl[j] == vlj
    ensures sol.v[j] == sj * vlj && sol.a[j] == sj * a
  {
  }

  /** The dominant axis of a corrected solution joins its phases (speeds within dq_max). */
  lemma DominantColumnJoins(q0: seq<real>, q1: seq<real>, dq0: seq<real>, dq1: seq<real>,
                            dqMax: real, a: real, sqrt: real -> real, sol: Solution, j: nat)
    requires SameAxes(q0, q1, dq0, dq1) && dqMax > 0.0 && a > 0.0 && IsSqrt(sqrt) && j < |q0|
    requires CoordinatedSolveSpec(q0, q1, dq0, dq1, dqMax, a, sqrt) == Ok(sol)
    requires j == DominantAxis(q0, q1) && Aligned(q0, q1, dq0, dq1, j)
    requires Abs(dq0[j]) <= dqMax && Abs(dq1[j]) <= dqMax
    ensures Joins(q0[j], q1[j], dq0[j], dq1[j], sol.dt, sol.ta[j], sol.td[j], sol.v[j], sol.a[j])
  {
    DominantColumn(q0, q1, dq0, dq1, dqMax, a, sqrt, sol, j);
    DominantAxisJoinsAt(q0[j], q1[j], dq0[j], dq1[j], dqMax, a, sqrt, sol.dt, sol.ta[j], sol.td[j], sol.v[j], sol.a[j]);
  }

  /**
   * Any other axis j of a corrected solution joins its phases whenever its square root
   * is real and its ramp times fit the segment duration.
   */
  lemma OtherColumnJoins(q0: seq<real>, q1: seq<real>, dq0: seq<real>, dq1: seq<real>,
                         dqMax: real, a: real, sqrt: real -> real, sol: Solution, j: nat)
    requires SameAxes(q0, q1, dq0, dq1) && dqMax > 0.0 && a > 0.0 && IsSqrt(sqrt) && j < |q0|
    requires CoordinatedSolveSpec(q0, q1, dq0, dq1, dqMax, a, sqrt) == Ok(sol)
    requires j != DominantAxis(q0, q1) && Aligned(q0, q1, dq0, dq1, j)
    requires 0.0 <= Discriminant(Abs(q1[j] - q0[j]), Abs(dq0[j]), Abs(dq1[j]), sol.dt, a)
    requires 0.0 <= sol.ta[j] && 0.0 <= sol.td[j] && sol.ta[j] + sol.td[j] <= sol.dt
    ensures Joins(q0[j], q1[j], dq0[j], dq1[j], sol.dt, sol.ta[j], sol.td[j], sol.v[j], sol.a[j])
  {
    OtherColumn(q0, q1, dq0, dq1, dqMax, a, sqrt, sol, j);
    OtherJoinsAt(q0[j], q1[j], dq0[j], dq1[j], a, sqrt, sol, Directions(q0, q1),
                 PeakSpeeds(q0, q1, dq0, dq1, DominantAxis(q0, q1), SegmentProfile(q0, q1, dq0, dq1, dqMax, a, sqrt), a, sqrt), j);
  }

  /** Entry j of a solution whose signed rows come from s and vl joins its phases at any other axis. */
  lemma OtherJoinsAt(q0: real, q1: real, dq0: real, dq1: real, a: real, sqrt: real -> real,
                     sol: Solution, s: seq<real>, vl: seq<real>, j: nat)
    requires a > 0.0 && IsSqrt(sqrt) && j < |s| == |vl| && j < |sol.ta| && j < |sol.td|
    requires dq0 == Sign(q1 - q0) * Abs(dq0) && dq1 == Sign(q1 - q0) * Abs(dq1)
    requires 0.0 <= Discriminant(Abs(q1 - q0), Abs(dq0), Abs(dq1), sol.dt, a)
    requires sol.v == Times(s, vl) && sol.a == Scaled(s, a) && s[j] == Sign(q1 - q0)
    requires vl[j] == CoordinatedSpeed(Abs(q1 - q0), Abs(dq0), Abs(dq1), sol.dt, a, sqrt)
    requires sol.ta[j] == RampTime(Abs(dq0), vl[j], a) && sol.td[j] == RampTime(Abs(dq1), vl[j], a)
    requires 0.0 <= sol.ta[j] && 0.0 <= sol.td[j] && sol.ta[j] + sol.td[j] <= sol.dt
    ensures |sol.v| == |sol.a| == |s| && Joins(q0, q1, dq0, dq1, sol.dt, sol.ta[j], sol.td[j], sol.v[j], sol.a[j])
  {
    SignedColumn(sol, s, vl, a, j, Sign(q1 - q0), CoordinatedSpeed(Abs(q1 - q0), Abs(dq0), Abs(dq1), sol.dt, a, sqrt));
    OtherAxisJoins(q0, q1, dq0, dq1, sol.dt, a, sqrt, sol.ta[j], sol.td[j], sol.v[j], sol.a[j]);
  }

  /**
   * Both ends of every axis of a corrected solution: at tau = 0 the axis is at q0 with
   * velocity dq0, at tau = dt at q1 with velocity dq1 (under the conditions of
   * DominantColumnJoins and OtherColumnJoins).
   */
  lemma CoordinatedAxisEndpoints(q0: seq<real>, q1: seq<real>, dq0: seq<real>, dq1: seq<real>,
                                 dqMax: real, a: real, sqrt: real -> real, sol: Solution, j: nat)
    requires SameAxes(q0, q1, dq0, dq1) && dqMax > 0.0 && a > 0.0 && IsSqrt(sqrt) && j < |q0|
    requires CoordinatedSolveSpec(q0, q1, dq0, dq1, dqMax, a, sqrt) == Ok(sol)
    requires Aligned(q0, q1, dq0, dq1, j)
    requires j == DominantAxis(q0, q1) ==> Abs(dq0[j]) <= dqMax && Abs(dq1[j]) <= dqMax
    requires j != DominantAxis(q0, q1) ==>
      && 0.0 <= Discriminant(Abs(q1[j] - q0[j]), Abs(dq0[j]), Abs(dq1[j]), sol.dt, a)
      && 0.0 <= sol.ta[j] && 0.0 <= sol.td[j] && sol.ta[j] + sol.td[j] <= sol.dt
    ensures var s := AxisState(q0[j], q1[j], dq0[j], dq1[j], sol.dt, sol.ta[j], sol.td[j], sol.v[j], sol.a[j], 0.0);
      s.q == q0[j] && s.dq == dq0[j]
    ensures var s := AxisState(q0[j], q1[j], dq0[j], dq1[j], sol.dt, sol.ta[j], sol.td[j], sol.v[j], sol.a[j], sol.dt);
      s.q == q1[j] && s.dq == dq1[j]
  {
    if j == DominantAxis(q0, q1) {
      DominantColumnJoins(q0, q1, dq0, dq1, dqMax, a, sqrt, sol, j);
    } else {
      OtherColumnJoins(q0, q1, dq0, dq1, dqMax, a, sqrt, sol, j);
    }
    SegmentEndpoints(q0[j], q1[j], dq0[j], dq1[j], sol.dt, sol.ta[j], sol.td[j], sol.v[j], sol.a[j]);
  }

  /**
   * The corrected solve differs from solve as written only in the ramp times of the axes
   * other than the dominant one, which solve leaves at zero: duration, coast velocities,
   * accelerations and the dominant axis' ramp times agree.
   */
  lemma CorrectionKeepsTiming(q0: seq<real>, q1: seq<real>, dq0: seq<real>, dq1: seq<real>,
                              dqMax: real, a: real, sqrt: real -> real)
    requires SameAxes(q0, q1, dq0, dq1) && dqMax > 0.0 && a > 0.0
    requires Feasible(q0, q1, dq0, dq1, a)
    ensures var w := SolveSpec(q0, q1, dq0, dq1, dqMax, a, sqrt).value;
      var c := CoordinatedSolveSpec(q0, q1, dq0, dq1, dqMax, a, sqrt).value;
      var i := DominantAxis(q0, q1);
      && w.dt == c.dt && w.v == c.v && w.a == c.a
      && w.ta[i] == c.ta[i] && w.td[i] == c.td[i]
      && (forall j :: 0 <= j < |q0| && j != i ==> w.ta[j] == 0.0 && w.td[j] == 0.0)
  {
    var w := SolveSpec(q0, q1, dq0, dq1, dqMax, a, sqrt).value;
    var c := CoordinatedSolveSpec(q0, q1, dq0, dq1, dqMax, a, sqrt).value;
    var i := DominantAxis(q0, q1);
    var p := SegmentProfile(q0, q1, dq0, dq1, dqMax, a, sqrt);
    assert p == DominantProfile(Abs(q1[i] - q0[i]), Abs(dq0[i]), Abs(dq1[i]), dqMax, a, sqrt);
    assert c.ta[i] == RampTime(Abs(dq0[i]), p.vlim, a) && c.td[i] == RampTime(Abs(dq1[i]), p.vlim, a);
  }

  /**
   * The dominant axis of a solution joins its phases whether solve runs as written or
   * corrected: both time the dominant axis alike.
   */
  lemma SolvedDominantColumnJoins(variant: Variant, q0: seq<real>, q1: seq<real>, dq0: seq<real>, dq1: seq<real>,
                                  dqMax: real, a: real, sqrt: real -> real, sol: Solution, j: nat)
    requires SameAxes(q0, q1, dq0, dq1) && dqMax > 0.0 && a > 0.0 && IsSqrt(sqrt) && j < |q0|
    requires SolveWith(variant, q0, q1, dq0, dq1, dqMax, a, sqrt) == Ok(sol)
    requires j == DominantAxis(q0, q1) && Aligned(q0, q1, dq0, dq1, j)
    requires Abs(dq0[j]) <= dqMax && Abs(dq1[j]) <= dqMax
    ensures Joins(q0[j], q1[j], dq0[j], dq1[j], sol.dt, sol.ta[j], sol.td[j], sol.v[j], sol.a[j])
  {
    var c := CoordinatedSolveSpec(q0, q1, dq0, dq1, dqMax, a, sqrt).value;
    DominantColumnJoins(q0, q1, dq0, dq1, dqMax, a, sqrt, c, j);
    if variant == AsWritten {
      CorrectionKeepsTiming(q0, q1, dq0, dq1, dqMax, a, sqrt);
    }
  }

  /** A square root of a square of a non-negative number is that number. */
  lemma SqrtOfSquare(sqrt: real -> real, x: real)
    requires IsSqrt(sqrt) && 0.0 <= x
    ensures sqrt(x * x) == x
  {
    var r := sqrt(x * x);
    assert 0.0 <= r && r * r == x * x;
    SquareMonotone(r, x);
    SquareMonotone(x, r);
  }

  /**
   * solve as written leaves ta = td = 0 on every axis but the dominant one, so such an
   * axis coasts at its coordinated speed for the whole segment and misses its waypoint:
   * from (0, 0) to (4, 3) at rest with dq_max = 10 and ddq_max = 1, axis 0 takes the
   * triangle branch (peak 2, t = 4) and axis 1 gets speed 1, so it ends at 4 instead of 3.
   */
  lemma CoastingAxisMissesWaypoint(sqrt: real -> real)
    requires IsSqrt(sqrt)
    ensures var r := SolveSpec([0.0, 0.0], [4.0, 3.0], [0.0, 0.0], [0.0, 0.0], 10.0, 1.0, sqrt);
      && r.Ok? && r.value.dt == 4.0
      && AxisState(0.0, 3.0, 0.0, 0.0, r.value.dt, r.value.ta[1], r.value.td[1], r.value.v[1], r.value.a[1], r.value.dt).q == 4.0
  {
    var q0, q1, dq0, dq1 := [0.0, 0.0], [4.0, 3.0], [0.0, 0.0], [0.0, 0.0];
    FindingSegment(sqrt);
    var sol := SolveSpec(q0, q1, dq0, dq1, 10.0, 1.0, sqrt).value;
    assert sol.ta[1] == 0.0 && sol.td[1] == 0.0 && sol.v[1] == 1.0 && sol.a[1] == 1.0;
  }

  /** The same segment with the corrected solve: axis 1 ramps for 1 on each side and ends at 3. */
  lemma CoordinatedAxisReachesWaypoint(sqrt: real -> real)
    requires IsSqrt(sqrt)
    ensures var r := CoordinatedSolveSpec([0.0, 0.0], [4.0, 3.0], [0.0, 0.0], [0.0, 0.0], 10.0, 1.0, sqrt);
      && r.Ok? && r.value.dt == 4.0
      && AxisState(0.0, 3.0, 0.0, 0.0, r.value.dt, r.value.ta[1], r.value.td[1], r.value.v[1], r.value.a[1], r.value.dt).q == 3.0
  {
    var q0, q1, dq0, dq1 := [0.0, 0.0], [4.0, 3.0], [0.0, 0.0], [0.0, 0.0];
    FindingSegment(sqrt);
    var sol := CoordinatedSolveSpec(q0, q1, dq0, dq1, 10.0, 1.0, sqrt).value;
    assert sol.ta[1] == 1.0 && sol.td[1] == 1.0 && sol.v[1] == 1.0 && sol.a[1] == 1.0;
  }

  /** The dominant axis, its profile and axis 1's coordinated speed in the example segment. */
  lemma FindingSegment(sqrt: real -> real)
    requires IsSqrt(sqrt)
    ensures Feasible([0.0, 0.0], [4.0, 3.0], [0.0, 0.0], [0.0, 0.0], 1.0)
    ensures DominantAxis([0.0, 0.0], [4.0, 3.0]) == 0
    ensures SegmentProfile([0.0, 0.0], [4.0, 3.0], [0.0, 0.0], [0.0, 0.0], 10.0, 1.0, sqrt) == Profile(4.0, 2.0, 2.0, 2.0)
    ensures CoordinatedSpeed(3.0, 0.0, 0.0, 4.0, 1.0, sqrt) == 1.0
  {
    var q0, q1 := [0.0, 0.0], [4.0, 3.0];
    assert Displacements(q0, q1) == [4.0, 3.0];
    SqrtOfSquare(sqrt, 2.0);
    assert Discriminant(3.0, 0.0, 0.0, 4.0, 1.0) == 2.0 * 2.0;
  }
}
