/**
 * What solve's closed forms guarantee: the dominant axis' acceleration, coast and
 * deceleration phases fit the segment duration and cover exactly its displacement.
 */
module SegmentProperties {
  import opened Wrappers
  import opened RealMath
  import opened Segment

  lemma NonPositiveFactor(u: real, w: real)
    requires w > 0.0 && u * w <= 0.0
    ensures u <= 0.0
  {
  }

  lemma SquareMonotone(x: real, y: real)
    requires 0.0 <= x && 0.0 <= y && x * x <= y * y
    ensures x <= y
  {
    assert (x - y) * (x + y) == x * x - y * y;
    if x + y > 0.0 {
      NonPositiveFactor(x - y, x + y);
    }
  }

  lemma Cancel(c: real, x: real, y: real)
    requires c != 0.0 && c * x == c * y
    ensures x == y
  {
    assert c * (x - y) == 0.0;
  }

  lemma Distribute(x: real, y: real, z: real, k: real)
    ensures (x + y + z) * k == x * k + y * k + z * k
  {
  }

  /** A ramp from speed v0 to vlim at acceleration a takes (vlim - v0) / a. */
  lemma RampDistance(v0: real, vlim: real, a: real)
    requires a > 0.0
    ensures var ta := (vlim - v0) / a;
      v0 + a * ta == vlim && 2.0 * a * (v0 * ta + 0.5 * a * ta * ta) == vlim * vlim - v0 * v0
  {
    var ta := (vlim - v0) / a;
    assert a * ta == vlim - v0;
    calc {
      2.0 * a * (v0 * ta + 0.5 * a * ta * ta);
      2.0 * v0 * (a * ta) + (a * ta) * (a * ta);
      2.0 * v0 * (vlim - v0) + (vlim - v0) * (vlim - v0);
      vlim * vlim - v0 * v0;
    }
  }

  /**
   * The distance travelled by an axis that accelerates from speed v0 for ta, coasts at
   * vlim, and decelerates to v1 during the last td of a segment of duration t.
   */
  function PhaseDistance(v0: real, v1: real, a: real, p: Profile): (d: real)
  {
    v0 * p.ta + 0.5 * a * p.ta * p.ta + p.vlim * (p.t - p.ta - p.td) + v1 * p.td + 0.5 * a * p.td * p.td
  }

  /** The three phases fit the duration and join at the peak speed. */
  predicate PhasesFit(v0: real, v1: real, a: real, p: Profile)
  {
    && 0.0 <= p.ta && 0.0 <= p.td && p.ta + p.td <= p.t
    && p.vlim == v0 + a * p.ta && p.vlim == v1 + a * p.td
  }

  /**
   * Triangle branch (dq_max not reached): t = ta + td, the peak speed stays within dq_max,
   * the phases fit and cover h. The feasibility constraint is what makes ta and td
   * non-negative; TriangleFits also gives vlim^2 = h*ddq_max + (dq0^2 + dq1^2)/2.
   */
  lemma {:induction false} TriangleProfile(h: real, v0: real, v1: real, dqMax: real, a: real, sqrt: real -> real)
    requires dqMax > 0.0 && a > 0.0 && 0.0 <= h && 0.0 <= v0 && 0.0 <= v1
    requires IsSqrt(sqrt)
    requires EvalConstraint(0.0, h, v0, v1, a)
    requires !ReachesMaxVelocity(h, v0, v1, dqMax, a)
    ensures var p := DominantProfile(h, v0, v1, dqMax, a, sqrt);
      && p.t == p.ta + p.td
      && 0.0 <= p.vlim <= dqMax
      && PhasesFit(v0, v1, a, p)
      && PhaseDistance(v0, v1, a, p) == h
  {
    var x := h * a + (v0 * v0 + v1 * v1) * 0.5;
    assert 0.0 <= x by {
      assert 0.0 <= h * a && 0.0 <= v0 * v0 && 0.0 <= v1 * v1;
    }
    var vl := sqrt(x);
    assert 0.0 <= vl && vl * vl == x;
    TriangleBranch(h, v0, v1, dqMax, a, sqrt);
    TriangleFits(h, v0, v1, dqMax, a, vl, DominantProfile(h, v0, v1, dqMax, a, sqrt));
  }

  /** The profile solve computes when dq_max is not reached. */
  lemma TriangleBranch(h: real, v0: real, v1: real, dqMax: real, a: real, sqrt: real -> real)
    requires dqMax > 0.0 && a > 0.0
    requires !ReachesMaxVelocity(h, v0, v1, dqMax, a)
    ensures var vl := sqrt(h * a + (v0 * v0 + v1 * v1) * 0.5);
      DominantProfile(h, v0, v1, dqMax, a, sqrt) == Profile((vl - v0) / a + (vl - v1) / a, (vl - v0) / a, (vl - v1) / a, vl)
  {
  }

  /** The profile solve computes when dq_max is reached. */
  lemma MaxVelocityBranch(h: real, v0: real, v1: real, vm: real, a: real, sqrt: real -> real)
    requires vm > 0.0 && a > 0.0
    requires ReachesMaxVelocity(h, v0, v1, vm, a)
    ensures var p := DominantProfile(h, v0, v1, vm, a, sqrt);
      && p.t == h / vm
        + (vm / (2.0 * a)) * (1.0 - v0 / vm) * (1.0 - v0 / vm)
        + (vm / (2.0 * a)) * (1.0 - v1 / vm) * (1.0 - v1 / vm)
      && p.ta == (vm - v0) / a && p.td == (vm - v1) / a && p.vlim == vm
  {
  }

  /** TriangleProfile with the peak speed vl as a plain number, which solves the peak equation. */
  lemma TriangleFits(h: real, v0: real, v1: real, dqMax: real, a: real, vl: real, p: Profile)
    requires dqMax > 0.0 && a > 0.0 && 0.0 <= h && 0.0 <= v0 && 0.0 <= v1
    requires EvalConstraint(0.0, h, v0, v1, a)
    requires !ReachesMaxVelocity(h, v0, v1, dqMax, a)
    requires 0.0 <= vl && vl * vl == h * a + (v0 * v0 + v1 * v1) * 0.5
    requires p == Profile((vl - v0) / a + (vl - v1) / a, (vl - v0) / a, (vl - v1) / a, vl)
    ensures p.t == p.ta + p.td
    ensures 0.0 <= p.vlim <= dqMax
    ensures p.vlim * p.vlim == h * a + (v0 * v0 + v1 * v1) * 0.5
    ensures PhasesFit(v0, v1, a, p)
    ensures PhaseDistance(v0, v1, a, p) == h
  {
    TrianglePeak(h, v0, v1, dqMax, a, vl);
    TriangleJoin(h, v0, v1, a, vl, p);
  }

  /** The triangle profile built from a peak speed between both boundary speeds. */
  lemma TriangleJoin(h: real, v0: real, v1: real, a: real, vl: real, p: Profile)
    requires a > 0.0 && v0 <= vl && v1 <= vl
    requires vl * vl == h * a + (v0 * v0 + v1 * v1) * 0.5
    requires p == Profile((vl - v0) / a + (vl - v1) / a, (vl - v0) / a, (vl - v1) / a, vl)
    ensures p.t == p.ta + p.td
    ensures p.vlim * p.vlim == h * a + (v0 * v0 + v1 * v1) * 0.5
    ensures PhasesFit(v0, v1, a, p)
    ensures PhaseDistance(v0, v1, a, p) == h
  {
    TriangleShape(h, v0, v1, a, vl, p.ta, p.td);
    PhaseDistanceParts(v0, v1, a, p);
  }

  /** Ramps up to and down from the triangle peak join there and cover h together. */
  lemma TriangleShape(h: real, v0: real, v1: real, a: real, vl: real, ta: real, td: real)
    requires a > 0.0 && v0 <= vl && v1 <= vl
    requires vl * vl == h * a + (v0 * v0 + v1 * v1) * 0.5
    requires ta == (vl - v0) / a && td == (vl - v1) / a
    ensures 0.0 <= ta && 0.0 <= td && vl == v0 + a * ta && vl == v1 + a * td
    ensures v0 * ta + 0.5 * a * ta * ta + v1 * td + 0.5 * a * td * td == h
  {
    RampDistance(v0, vl, a);
    RampDistance(v1, vl, a);
    TriangleAlgebra(h, v0, v1, a, vl, v0 * ta + 0.5 * a * ta * ta, v1 * td + 0.5 * a * td * td);
  }

  /** The triangle peak lies between both boundary speeds and dq_max. */
  lemma TrianglePeak(h: real, v0: real, v1: real, dqMax: real, a: real, vl: real)
    requires dqMax > 0.0 && 0.0 <= h && 0.0 <= v0 && 0.0 <= v1
    requires EvalConstraint(0.0, h, v0, v1, a)
    requires !ReachesMaxVelocity(h, v0, v1, dqMax, a)
    requires 0.0 <= vl && vl * vl == h * a + (v0 * v0 + v1 * v1) * 0.5
    ensures v0 <= vl && v1 <= vl && vl <= dqMax
  {
    SpeedsBelowPeak(h, v0, v1, a);
    SquareMonotone(v0, vl);
    SquareMonotone(v1, vl);
    SquareMonotone(vl, dqMax);
  }

  /** eval_constraint only depends on the displacement |q1 - q0|. */
  lemma DisplacementConstraint(q0: real, q1: real, v0: real, v1: real, a: real)
    requires EvalConstraint(q0, q1, v0, v1, a)
    ensures EvalConstraint(0.0, Abs(q1 - q0), v0, v1, a)
  {
    var h := Abs(q1 - q0);
    assert Abs(h - 0.0) == h;
  }

  /** eval_constraint on a displacement h bounds both boundary speeds by the triangle peak. */
  lemma SpeedsBelowPeak(h: real, v0: real, v1: real, a: real)
    requires 0.0 <= h && EvalConstraint(0.0, h, v0, v1, a)
    ensures v0 * v0 <= h * a + (v0 * v0 + v1 * v1) * 0.5
    ensures v1 * v1 <= h * a + (v0 * v0 + v1 * v1) * 0.5
  {
    assert Abs(h - 0.0) == h;
    var d := v0 * v0 - v1 * v1;
    assert a * h >= Abs(d) * 0.5;
  }

  lemma TriangleAlgebra(h: real, v0: real, v1: real, a: real, vl: real, x0: real, x1: real)
    requires a > 0.0
    requires vl * vl == h * a + (v0 * v0 + v1 * v1) * 0.5
    requires 2.0 * a * x0 == vl * vl - v0 * v0
    requires 2.0 * a * x1 == vl * vl - v1 * v1
    ensures x0 + x1 == h
  {
    Cancel(2.0 * a, x0 + x1, h);
  }

  lemma MaxVelocityAlgebra(h: real, v0: real, v1: real, vm: real, a: real,
                           r: real, c: real, u0: real, u1: real, ta: real, td: real, t: real)
    requires r * vm == h && c * (2.0 * a) == vm && u0 * vm == vm - v0 && u1 * vm == vm - v1
    requires ta * a == vm - v0 && td * a == vm - v1
    requires t == r + c * u0 * u0 + c * u1 * u1
    ensures (t - ta - td) * (2.0 * a * vm) == 2.0 * a * h - 2.0 * vm * vm + v0 * v0 + v1 * v1
  {
  }

  /** (t - ta - td) * 2*ddq_max*dq_max in the branch that reaches dq_max. */
  lemma MaxVelocityCoast(h: real, v0: real, v1: real, vm: real, a: real, sqrt: real -> real)
    requires vm > 0.0 && a > 0.0
    requires ReachesMaxVelocity(h, v0, v1, vm, a)
    ensures var p := DominantProfile(h, v0, v1, vm, a, sqrt);
      (p.t - p.ta - p.td) * (2.0 * a * vm) == 2.0 * a * h - 2.0 * vm * vm + v0 * v0 + v1 * v1
  {
    MaxVelocityBranch(h, v0, v1, vm, a, sqrt);
    CoastTime(h, v0, v1, vm, a, DominantProfile(h, v0, v1, vm, a, sqrt));
  }

  /** MaxVelocityCoast for the closed form of the profile. */
  lemma CoastTime(h: real, v0: real, v1: real, vm: real, a: real, p: Profile)
    requires vm > 0.0 && a > 0.0
    requires p.t == h / vm
        + (vm / (2.0 * a)) * (1.0 - v0 / vm) * (1.0 - v0 / vm)
        + (vm / (2.0 * a)) * (1.0 - v1 / vm) * (1.0 - v1 / vm)
    requires p.ta == (vm - v0) / a && p.td == (vm - v1) / a
    ensures (p.t - p.ta - p.td) * (2.0 * a * vm) == 2.0 * a * h - 2.0 * vm * vm + v0 * v0 + v1 * v1
  {
    var r, c, u0, u1 := h / vm, vm / (2.0 * a), 1.0 - v0 / vm, 1.0 - v1 / vm;
    assert r * vm == h by { DivMul(h, vm); }
    assert c * (2.0 * a) == vm by { DivMul(vm, 2.0 * a); }
    assert u0 * vm == vm - v0 by { OneMinusDiv(v0, vm); }
    assert u1 * vm == vm - v1 by { OneMinusDiv(v1, vm); }
    assert p.ta * a == vm - v0 by { DivMul(vm - v0, a); }
    assert p.td * a == vm - v1 by { DivMul(vm - v1, a); }
    MaxVelocityAlgebra(h, v0, v1, vm, a, r, c, u0, u1, p.ta, p.td, p.t);
  }

  lemma PhaseDistanceAlgebra(h: real, v0: real, v1: real, a: real, vl: real, x0: real, x1: real, coast: real)
    requires a > 0.0
    requires 2.0 * a * x0 == vl * vl - v0 * v0
    requires 2.0 * a * x1 == vl * vl - v1 * v1
    requires coast * (2.0 * a * vl) == 2.0 * a * h - 2.0 * vl * vl + v0 * v0 + v1 * v1
    ensures x0 + vl * coast + x1 == h
  {
    assert 2.0 * a * (x0 + vl * coast + x1) == 2.0 * a * h;
    Cancel(2.0 * a, x0 + vl * coast + x1, h);
  }

  lemma DivMul(x: real, k: real)
    requires k != 0.0
    ensures (x / k) * k == x
  {
  }

  lemma OneMinusDiv(x: real, k: real)
    requires k != 0.0
    ensures (1.0 - x / k) * k == k - x
  {
    DivMul(x, k);
  }

  lemma NonNegativeQuotient(x: real, k: real)
    requires 0.0 <= x && k > 0.0
    ensures 0.0 <= x / k
  {
    DivMul(x, k);
  }

  /** A ramp that reaches vl from v at acceleration a covers (vl^2 - v^2) / 2a. */
  lemma RampSquare(v: real, a: real, ta: real, vl: real, x: real)
    requires v + a * ta == vl && x == v * ta + 0.5 * a * ta * ta
    ensures 2.0 * a * x == vl * vl - v * v
  {
    assert vl * vl == (v + a * ta) * (v + a * ta);
  }

  lemma PositiveQuotient(x: real, k: real)
    requires k > 0.0 && x * k > 0.0
    ensures x > 0.0
  {
  }

  /**
   * Branch that reaches dq_max: the coast speed is dq_max and the branch test is exactly
   * what makes the coast time t - ta - td strictly positive; with boundary speeds within
   * dq_max the phases fit and cover h.
   */
  lemma {:induction false} MaxVelocityProfile(h: real, v0: real, v1: real, dqMax: real, a: real, sqrt: real -> real)
    requires dqMax > 0.0 && a > 0.0 && 0.0 <= h
    requires 0.0 <= v0 <= dqMax && 0.0 <= v1 <= dqMax
    requires ReachesMaxVelocity(h, v0, v1, dqMax, a)
    ensures var p := DominantProfile(h, v0, v1, dqMax, a, sqrt);
      && p.vlim == dqMax
      && p.ta + p.td < p.t
      && PhasesFit(v0, v1, a, p)
      && PhaseDistance(v0, v1, a, p) == h
  {
    MaxVelocityBranch(h, v0, v1, dqMax, a, sqrt);
    MaxVelocityCoast(h, v0, v1, dqMax, a, sqrt);
    MaxVelocityPhases(h, v0, v1, dqMax, a, DominantProfile(h, v0, v1, dqMax, a, sqrt));
  }

  /** The phases of a profile at peak speed dq_max whose coast time balances the ramps. */
  lemma MaxVelocityPhases(h: real, v0: real, v1: real, dqMax: real, a: real, p: Profile)
    requires dqMax > 0.0 && a > 0.0
    requires 0.0 <= v0 <= dqMax && 0.0 <= v1 <= dqMax
    requires ReachesMaxVelocity(h, v0, v1, dqMax, a)
    requires p.vlim == dqMax && p.ta == RampTime(v0, dqMax, a) && p.td == RampTime(v1, dqMax, a)
    requires (p.t - p.ta - p.td) * (2.0 * a * dqMax) == 2.0 * a * h - 2.0 * dqMax * dqMax + v0 * v0 + v1 * v1
    ensures p.ta + p.td < p.t && PhasesFit(v0, v1, a, p) && PhaseDistance(v0, v1, a, p) == h
  {
    var coast := p.t - p.ta - p.td;
    assert coast * (2.0 * a * dqMax) > 0.0;
    PositiveQuotient(coast, 2.0 * a * dqMax);
    NonNegativeQuotient(dqMax - v0, a);
    NonNegativeQuotient(dqMax - v1, a);
    RampTimeReaches(v0, dqMax, a);
    RampTimeReaches(v1, dqMax, a);
    CoverageFromRamps(h, v0, v1, a, p);
  }

  /**
   * Both branches of the dominant axis' timing: with boundary speeds within dq_max and
   * eval_constraint holding, the phases fit the duration, the peak speed stays within
   * dq_max and the motion covers exactly the displacement h.
   */
  lemma DominantProfileFits(h: real, v0: real, v1: real, dqMax: real, a: real, sqrt: real -> real)
    requires dqMax > 0.0 && a > 0.0 && 0.0 <= h
    requires 0.0 <= v0 <= dqMax && 0.0 <= v1 <= dqMax
    requires IsSqrt(sqrt) && EvalConstraint(0.0, h, v0, v1, a)
    ensures var p := DominantProfile(h, v0, v1, dqMax, a, sqrt);
      && PhasesFit(v0, v1, a, p) && p.vlim <= dqMax && PhaseDistance(v0, v1, a, p) == h
  {
    if ReachesMaxVelocity(h, v0, v1, dqMax, a) {
      MaxVelocityProfile(h, v0, v1, dqMax, a, sqrt);
    } else {
      TriangleProfile(h, v0, v1, dqMax, a, sqrt);
    }
  }

  lemma NonNegativeTerms(h: real, m: real, c: real, u0: real, u1: real)
    requires 0.0 <= h && m > 0.0 && c > 0.0
    ensures h / m + c * u0 * u0 + c * u1 * u1 >= 0.0
  {
    assert h / m >= 0.0 by { assert (h / m) * m == h; }
    assert u0 * u0 >= 0.0 && u1 * u1 >= 0.0;
    assert c * u0 * u0 == c * (u0 * u0) >= 0.0;
    assert c * u1 * u1 == c * (u1 * u1) >= 0.0;
  }

  /**
   * The segment duration is never negative: in the branch reaching dq_max it is a sum of
   * non-negative terms, otherwise the sum of two ramp times that eval_constraint keeps
   * non-negative, whatever the boundary speeds are relative to dq_max.
   */
  lemma DurationNonNegative(h: real, v0: real, v1: real, dqMax: real, a: real, sqrt: real -> real)
    requires dqMax > 0.0 && a > 0.0 && 0.0 <= h && 0.0 <= v0 && 0.0 <= v1
    requires IsSqrt(sqrt) && EvalConstraint(0.0, h, v0, v1, a)
    ensures DominantProfile(h, v0, v1, dqMax, a, sqrt).t >= 0.0
  {
    if ReachesMaxVelocity(h, v0, v1, dqMax, a) {
      var c, u0, u1 := dqMax / (2.0 * a), 1.0 - v0 / dqMax, 1.0 - v1 / dqMax;
      assert c > 0.0 by {
        assert c * (2.0 * a) == dqMax;
        PositiveQuotient(c, 2.0 * a);
      }
      NonNegativeTerms(h, dqMax, c, u0, u1);
      assert DominantProfile(h, v0, v1, dqMax, a, sqrt).t == h / dqMax + c * u0 * u0 + c * u1 * u1;
    } else {
      TriangleProfile(h, v0, v1, dqMax, a, sqrt);
    }
  }

  lemma CoordinatedAlgebra(h: real, v0: real, v1: real, t: real, a: real, vl: real, r: real, ta: real, td: real)
    requires r * r == Discriminant(h, v0, v1, t, a)
    requires vl == 0.5 * (v0 + v1 + a * t - r)
    requires v0 + a * ta == vl && v1 + a * td == vl
    ensures (t - ta - td) * (2.0 * a * vl) == 2.0 * a * h - 2.0 * vl * vl + v0 * v0 + v1 * v1
  {
    var S := v0 + v1 + a * t;
    assert S == 2.0 * vl + r;
    assert (t - ta - td) * a == S - 2.0 * vl;
    assert r * r == S * S - 2.0 * v0 * v0 - 2.0 * v1 * v1 - 4.0 * a * h;
  }

  lemma RampTimeReaches(v: real, vl: real, a: real)
    requires a > 0.0
    ensures v + a * RampTime(v, vl, a) == vl
  {
  }

  /**
   * Ramps that join the peak speed, with a coast time that balances them, cover h: the
   * closing step shared by every axis' distance argument.
   */
  lemma CoverageFromRamps(h: real, v0: real, v1: real, a: real, p: Profile)
    requires a > 0.0
    requires v0 + a * p.ta == p.vlim && v1 + a * p.td == p.vlim
    requires (p.t - p.ta - p.td) * (2.0 * a * p.vlim) == 2.0 * a * h - 2.0 * p.vlim * p.vlim + v0 * v0 + v1 * v1
    ensures PhaseDistance(v0, v1, a, p) == h
  {
    var x0, x1 := v0 * p.ta + 0.5 * a * p.ta * p.ta, v1 * p.td + 0.5 * a * p.td * p.td;
    RampSquare(v0, a, p.ta, p.vlim, x0);
    RampSquare(v1, a, p.td, p.vlim, x1);
    PhaseDistanceAlgebra(h, v0, v1, a, p.vlim, x0, x1, p.t - p.ta - p.td);
    PhaseDistanceParts(v0, v1, a, p);
  }

  /** The distance of the three phases, grouped as ramp up, coast and ramp down. */
  lemma PhaseDistanceParts(v0: real, v1: real, a: real, p: Profile)
    ensures PhaseDistance(v0, v1, a, p)
      == (v0 * p.ta + 0.5 * a * p.ta * p.ta) + p.vlim * (p.t - p.ta - p.td) + (v1 * p.td + 0.5 * a * p.td * p.td)
  {
  }

  /**
   * The coordinated peak speed of a non-dominant axis is the one that, with ramps at
   * ddq_max from and to its boundary speeds, covers its displacement h in the shared
   * duration t (whenever the square root's argument is non-negative).
   */
  lemma CoordinatedDistance(h: real, v0: real, v1: real, t: real, a: real, sqrt: real -> real)
    requires a > 0.0 && IsSqrt(sqrt)
    requires 0.0 <= Discriminant(h, v0, v1, t, a)
    ensures var vl := CoordinatedSpeed(h, v0, v1, t, a, sqrt);
      PhaseDistance(v0, v1, a, Profile(t, RampTime(v0, vl, a), RampTime(v1, vl, a), vl)) == h
  {
    var r := sqrt(Discriminant(h, v0, v1, t, a));
    assert r * r == Discriminant(h, v0, v1, t, a);
    CoordinatedCoverage(h, v0, v1, t, a, CoordinatedSpeed(h, v0, v1, t, a, sqrt), r);
  }

  /** The distance step of CoordinatedDistance, with the square root r as a plain number. */
  lemma CoordinatedCoverage(h: real, v0: real, v1: real, t: real, a: real, vl: real, r: real)
    requires a > 0.0
    requires r * r == Discriminant(h, v0, v1, t, a)
    requires vl == 0.5 * (v0 + v1 + a * t - r)
    ensures PhaseDistance(v0, v1, a, Profile(t, RampTime(v0, vl, a), RampTime(v1, vl, a), vl)) == h
  {
    var p := Profile(t, RampTime(v0, vl, a), RampTime(v1, vl, a), vl);
    RampTimeReaches(v0, vl, a);
    RampTimeReaches(v1, vl, a);
    CoordinatedAlgebra(h, v0, v1, t, a, vl, r, p.ta, p.td);
    CoverageFromRamps(h, v0, v1, a, p);
  }
}
