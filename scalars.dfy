/**
 * The scalar helpers of the engine's math library that the car code calls
 * (Mathf.Abs, Mathf.Clamp, Mathf.Clamp01, Mathf.Lerp), over exact reals.
 */
module Scalars {

  import opened RealArith

  function Abs(x: real): (r: real)
    ensures r >= 0.0 && (r == x || r == -x)
  {
    if x < 0.0 then -x else x
  }

  function Min(a: real, b: real): real { if a <= b then a else b }
  function Max(a: real, b: real): real { if a <= b then b else a }

  /** Mathf.Clamp: the lower bound is tested first, so an empty range yields `lo`. */
  function Clamp(x: real, lo: real, hi: real): (r: real)
    ensures lo <= hi ==> lo <= r <= hi
    ensures lo <= x <= hi ==> r == x
    ensures x < lo ==> r == lo
    ensures lo <= hi < x ==> r == hi
  {
    if x < lo then lo else if x > hi then hi else x
  }

  /** Mathf.Clamp01. */
  function Clamp01(x: real): (r: real)
    ensures 0.0 <= r <= 1.0
    ensures 0.0 <= x <= 1.0 ==> r == x
  {
    if x < 0.0 then 0.0 else if x > 1.0 then 1.0 else x
  }

  /** Mathf.Lerp: the interpolation parameter is clamped to [0, 1] first. */
  function Lerp(a: real, b: real, t: real): real
  {
    a + (b - a) * Clamp01(t)
  }

  /** What is left of the gap to the target after one Lerp step: the gap scaled by one minus the clamped parameter. */
  lemma LerpGap(a: real, b: real, t: real)
    ensures Lerp(a, b, t) - b == (a - b) * (1.0 - Clamp01(t))
  {
  }

  /** The value after `n` successive Lerp steps from `a` toward a fixed `b`. */
  function LerpIterate(a: real, b: real, t: real, n: nat): real
  {
    if n == 0 then a else Lerp(LerpIterate(a, b, t, n - 1), b, t)
  }

  /** One Lerp step lands between its start and its target. */
  lemma LerpBetween(a: real, b: real, t: real)
    ensures Min(a, b) <= Lerp(a, b, t) <= Max(a, b)
  {
    LerpGap(a, b, t);
    if a >= b {
      ShrinkTowardTarget(a - b, 1.0 - Clamp01(t), Lerp(a, b, t) - b);
    } else {
      ShrinkTowardTarget(b - a, 1.0 - Clamp01(t), b - Lerp(a, b, t));
    }
  }

  /** A gap `g >= 0` scaled by `k` in [0, 1] lies in [0, g]. */
  lemma ShrinkTowardTarget(g: real, k: real, r: real)
    requires g >= 0.0 && 0.0 <= k <= 1.0 && r == g * k
    ensures 0.0 <= r <= g
  {
    ScaleByUnit(g, k);
  }

  /** Successive Lerp steps never overshoot the target: every iterate lies between the start and the target. */
  lemma {:induction false} LerpIterateBetween(a: real, b: real, t: real, n: nat)
    ensures Min(a, b) <= LerpIterate(a, b, t, n) <= Max(a, b)
  {
    if n > 0 {
      LerpIterateBetween(a, b, t, n - 1);
      LerpBetween(LerpIterate(a, b, t, n - 1), b, t);
    }
  }
}
