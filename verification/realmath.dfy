/**
 * Scalar helpers standing in for the NumPy element functions the planners use
 * (np.abs, np.sign, np.amax, np.argmax, np.clip, np.digitize) and the contract
 * of the square root they call.
 */
module RealMath {

  /** np.abs on one element. */
  function Abs(x: real): (r: real)
    ensures 0.0 <= r
    ensures r == x || r == -x
  {
    if x < 0.0 then -x else x
  }

  /** np.sign on one element: 1, -1 or 0. */
  function Sign(x: real): (r: real)
    ensures r == 1.0 || r == -1.0 || r == 0.0
    ensures (r == 1.0 <==> x > 0.0) && (r == -1.0 <==> x < 0.0)
  {
    if x > 0.0 then 1.0 else if x < 0.0 then -1.0 else 0.0
  }

  /**
   * What math.sqrt / np.sqrt promise on a non-negative argument. The square root is a
   * parameter of the planners; lemmas that need its values assume this of it.
   */
  ghost predicate IsSqrt(sqrt: real -> real)
  {
    forall x: real :: 0.0 <= x ==> 0.0 <= sqrt(x) && sqrt(x) * sqrt(x) == x
  }

  /** np.amax over a non-empty row. */
  function Max(s: seq<real>): (r: real)
    requires |s| > 0
    ensures r in s
    ensures forall k :: 0 <= k < |s| ==> s[k] <= r
  {
    if |s| == 1 then s[0]
    else
      var rest := Max(s[1..]);
      if s[0] >= rest then s[0] else rest
  }

  /** np.argmax: the FIRST index holding the largest value. */
  function ArgMax(s: seq<real>): (i: nat)
    requires |s| > 0
    ensures i < |s|
    ensures forall k :: 0 <= k < |s| ==> s[k] <= s[i]
    ensures forall k :: 0 <= k < i ==> s[k] < s[i]
  {
    if |s| == 1 then 0
    else
      var j := 1 + ArgMax(s[1..]);
      if s[0] >= s[j] then 0 else j
  }

  /** np.clip(x, lo, hi), i.e. minimum(maximum(x, lo), hi). */
  function Clip(x: real, lo: real, hi: real): (r: real)
    ensures lo <= hi ==> lo <= r <= hi
    ensures lo <= x <= hi ==> r == x
    ensures x < lo && lo <= hi ==> r == lo
    ensures hi < x ==> r == hi
  {
    var y := if x < lo then lo else x;
    if y > hi then hi else y
  }

  /** np.clip on an index. */
  function ClipIndex(i: int, lo: int, hi: int): (r: int)
    requires lo <= hi
    ensures lo <= r <= hi
    ensures lo <= i <= hi ==> r == i
  {
    if i < lo then lo else if i > hi then hi else i
  }

  ghost predicate NonDecreasing(s: seq<real>)
  {
    forall j, k :: 0 <= j <= k < |s| ==> s[j] <= s[k]
  }

  /**
   * np.digitize(x, bins) for non-decreasing bins (right=False): the number of bins
   * that are at most x, so that bins[i-1] <= x < bins[i].
   */
  function Digitize(x: real, bins: seq<real>): (i: nat)
    ensures i <= |bins|
    ensures NonDecreasing(bins) ==>
      (forall k :: 0 <= k < i ==> bins[k] <= x) && (forall k :: i <= k < |bins| ==> x < bins[k])
  {
    if |bins| == 0 then 0
    else if bins[|bins| - 1] <= x then |bins|
    else Digitize(x, bins[..|bins| - 1])
  }

  /** Sum of a sequence (np.sum / the last entry of np.cumsum). */
  function Sum(s: seq<real>): (total: real)
  {
    if |s| == 0 then 0.0 else Sum(s[..|s| - 1]) + s[|s| - 1]
  }

  lemma {:induction false} SumNonNegative(s: seq<real>)
    requires forall k :: 0 <= k < |s| ==> 0.0 <= s[k]
    ensures 0.0 <= Sum(s)
  {
    if |s| > 0 {
      SumNonNegative(s[..|s| - 1]);
    }
  }

  /** np.cumsum with a leading zero: the start time of every segment and the end time. */
  function StartTimes(dt: seq<real>): (t: seq<real>)
    ensures |t| == |dt| + 1 && t[0] == 0.0
    ensures forall k :: 0 <= k < |dt| ==> t[k + 1] == t[k] + dt[k]
    ensures t[|dt|] == Sum(dt)
  {
    if |dt| == 0 then [0.0]
    else
      var t' := StartTimes(dt[..|dt| - 1]);
      assert forall k :: 0 <= k < |dt| - 1 ==> dt[..|dt| - 1][k] == dt[k];
      t' + [Sum(dt)]
  }

  /** np.cumsum with a leading zero, accumulated into a zero-initialised array. */
  method CumulativeTimes(dt: seq<real>) returns (t: seq<real>)
    ensures t == StartTimes(dt)
  {
    var ts := new real[|dt| + 1](_ => 0.0);
    for k := 0 to |dt|
      invariant ts[0] == 0.0
      invariant forall j :: 0 <= j <= k ==> ts[j] == StartTimes(dt)[j]
    {
      ts[k + 1] := ts[k] + dt[k];
    }
    t := ts[..];
  }

  /** Start times accumulated from non-negative durations never decrease. */
  lemma {:induction false} StartTimesNonDecreasing(dt: seq<real>)
    requires forall k :: 0 <= k < |dt| ==> 0.0 <= dt[k]
    ensures NonDecreasing(StartTimes(dt))
  {
    var t := StartTimes(dt);
    forall j, k | 0 <= j <= k < |t|
      ensures t[j] <= t[k]
    {
      StartTimesBetween(dt, j, k);
    }
  }

  lemma {:induction false} StartTimesBetween(dt: seq<real>, j: nat, k: nat)
    requires forall i :: 0 <= i < |dt| ==> 0.0 <= dt[i]
    requires j <= k <= |dt|
    ensures StartTimes(dt)[j] <= StartTimes(dt)[k]
    decreases k - j
  {
    if j < k {
      StartTimesBetween(dt, j, k - 1);
    }
  }

  /** A boolean mask used as a factor (NumPy casts True to 1 and False to 0). */
  function Mask(b: bool): (m: real)
  {
    if b then 1.0 else 0.0
  }
}
