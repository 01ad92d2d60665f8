/**
 * Rounding of a currency amount to the nearest whole multiple of a
 * contractual increment (the `deliveryAmount` field of a collateral
 * rounding record). Halves go up, toward +infinity (so -0.25 at an
 * increment of 0.5 rounds to 0, not away from zero to -0.5); an increment
 * of zero means no rounding.
 */
module Rounding {

  /** The number of whole increments nearest to `x`, halves rounded toward
      +infinity. */
  function NearestSteps(x: real, step: real): int
    requires step > 0.0
  {
    (x / step + 0.5).Floor
  }

  /** `k * step` is the multiple the rounding lands on for `x` exactly
      when it lies in the half-open window `(x - step/2, x + step/2]`. */
  ghost predicate NearestWindow(x: real, step: real, k: int)
    requires step > 0.0
  {
    x - step / 2.0 < k as real * step <= x + step / 2.0
  }

  /** Two whole multiples of `step` whose distance is below `step` coincide. */
  lemma SameMultiple(m: int, k: int, step: real)
    requires step > 0.0
    requires -step < (m - k) as real * step < step
    ensures m == k
  {
  }

  /** The multiple chosen by `NearestSteps` lies in the nearest window. */
  lemma NearestStepsInWindow(x: real, step: real)
    requires step > 0.0
    ensures NearestWindow(x, step, NearestSteps(x, step))
  {
    var q := x / step;
    var k := NearestSteps(x, step) as real;
    assert k <= q + 0.5 < k + 1.0;
    var lo, mid, hi := k * step, (q + 0.5) * step, (k + 1.0) * step;
    assert mid == x + step / 2.0 by {
      assert q * step == x;
    }
    assert hi == lo + step;
    assert lo <= mid by {
      assert mid - lo == (q + 0.5 - k) * step;
    }
    assert mid < hi by {
      var gap := k + 1.0 - (q + 0.5);
      assert gap > 0.0;
      assert gap * step > 0.0;
      assert hi - mid == gap * step;
    }
  }

  /**
   * Rounds `x` to the nearest multiple of `step`, halves up; `step == 0`
   * leaves `x` unchanged. The result never moves by more than half a step.
   */
  function RoundToNearest(x: real, step: real): (r: real)
    requires step >= 0.0
    ensures step == 0.0 ==> r == x
    ensures step > 0.0 ==> x - step / 2.0 < r <= x + step / 2.0
  {
    if step == 0.0 then x
    else
      NearestStepsInWindow(x, step);
      NearestSteps(x, step) as real * step
  }

  /** The rounded value is characterised by the window alone: any whole
      multiple of `step` within half a step below or at half a step above `x`
      is the rounded value. */
  lemma RoundToNearestUnique(x: real, step: real, k: int)
    requires step > 0.0
    requires NearestWindow(x, step, k)
    ensures RoundToNearest(x, step) == k as real * step
  {
    var m := NearestSteps(x, step);
    NearestStepsInWindow(x, step);
    var a, b := m as real * step, k as real * step;
    assert x - step / 2.0 < a <= x + step / 2.0;
    assert x - step / 2.0 < b <= x + step / 2.0;
    assert (m - k) as real * step == a - b;
    SameMultiple(m, k, step);
  }

  /** A value already a whole multiple of the increment is left unchanged. */
  lemma RoundToNearestFixesMultiples(k: int, step: real)
    requires step > 0.0
    ensures RoundToNearest(k as real * step, step) == k as real * step
  {
    RoundToNearestUnique(k as real * step, step, k);
  }

  /** The rounded value is a whole multiple of the increment, the one in the
      nearest window. */
  lemma RoundToNearestIsMultiple(x: real, step: real)
    requires step >= 0.0
    ensures step > 0.0 ==>
      exists k: int :: NearestWindow(x, step, k) && RoundToNearest(x, step) == k as real * step
  {
    if step > 0.0 {
      var k := NearestSteps(x, step);
      NearestStepsInWindow(x, step);
      assert NearestWindow(x, step, k) && RoundToNearest(x, step) == k as real * step;
    }
  }

  /** Rounding twice is rounding once. */
  lemma RoundToNearestIdempotent(x: real, step: real)
    requires step >= 0.0
    ensures RoundToNearest(RoundToNearest(x, step), step) == RoundToNearest(x, step)
  {
    if step > 0.0 {
      var m := NearestSteps(x, step);
      var r := RoundToNearest(x, step);
      assert r == m as real * step;
      RoundToNearestFixesMultiples(m, step);
      assert RoundToNearest(r, step) == r;
    }
  }

  /** Tie-breaking: a value exactly half-way between two multiples goes to
      the upper one, toward +infinity, also for negative values. */
  lemma RoundToNearestHalfUp(k: int, step: real)
    requires step > 0.0
    ensures RoundToNearest((k as real + 0.5) * step, step) == (k + 1) as real * step
  {
    RoundToNearestUnique((k as real + 0.5) * step, step, k + 1);
  }

  /** Rounding preserves order. */
  lemma RoundToNearestMonotone(x: real, y: real, step: real)
    requires step >= 0.0
    requires x <= y
    ensures RoundToNearest(x, step) <= RoundToNearest(y, step)
  {
    if step > 0.0 {
      var a, b := x / step, y / step;
      assert a <= b by {
        assert a * step == x && b * step == y;
        assert (b - a) * step == y - x;
      }
      var m, n := NearestSteps(x, step), NearestSteps(y, step);
      assert m <= n;
      assert (n - m) as real * step >= 0.0;
    }
  }

  /** A non-negative amount never rounds to a negative one. */
  lemma RoundToNearestNonNegative(x: real, step: real)
    requires step >= 0.0
    requires x >= 0.0
    ensures RoundToNearest(x, step) >= 0.0
  {
    if step > 0.0 {
      assert x / step >= 0.0;
      assert NearestSteps(x, step) >= 0;
    }
  }
}
