/**
 * The fundraising percentage shown on cards and on the details page:
 * zero for a zero goal, otherwise current/goal as a percentage rounded to
 * the nearest whole number (halves upward, as `Math.round` does) and capped
 * at 100.  Amounts are whole numbers; the ratio is computed exactly.
 */
module Progress {

  /** Floor of `n / d` for a non-zero `d` of either sign. */
  function FloorDiv(n: int, d: int): (q: int)
    requires d != 0
    ensures d > 0 ==> d * q <= n < d * q + d
    ensures d < 0 ==> d * q >= n > d * q + d
  {
    if d > 0 then n / d else (-n) / (-d)
  }

  /** `Math.round(100 * current / goal)`: the nearest integer, halves rounded toward positive infinity. */
  function RoundedPercent(current: int, goal: int): (q: int)
    requires goal != 0
    ensures goal > 0 ==> 2 * goal * q - goal <= 200 * current < 2 * goal * q + goal
  {
    FloorDiv(200 * current + goal, 2 * goal)
  }

  function Min(a: int, b: int): int
  {
    if a <= b then a else b
  }

  /** `calculateProgress(current, goal)`. */
  function CalculateProgress(current: int, goal: int): (r: int)
    ensures goal == 0 ==> r == 0
    ensures r <= 100
  {
    if goal == 0 then 0 else Min(RoundedPercent(current, goal), 100)
  }

  /**
   * For a positive goal the unclamped value is the integer q with
   * q - 1/2 <= 100 * current / goal < q + 1/2, so the result is that q
   * capped at 100.
   */
  lemma ProgressIsNearestPercent(current: int, goal: int, q: int)
    requires goal > 0
    requires 2 * goal * q - goal <= 200 * current < 2 * goal * q + goal
    ensures CalculateProgress(current, goal) == Min(q, 100)
  {
    var p := RoundedPercent(current, goal);
    assert 2 * goal * p - goal <= 200 * current < 2 * goal * p + goal;
    NearestIsUnique(current, goal, p, q);
  }

  lemma NearestIsUnique(current: int, goal: int, p: int, q: int)
    requires goal > 0
    requires 2 * goal * p - goal <= 200 * current < 2 * goal * p + goal
    requires 2 * goal * q - goal <= 200 * current < 2 * goal * q + goal
    ensures p == q
  {
    if p < q {
      MultiplyMonotone(2 * goal, p + 1, q);
    } else if q < p {
      MultiplyMonotone(2 * goal, q + 1, p);
    }
  }

  /** A goal met or exceeded shows exactly 100. */
  lemma ProgressFullWhenGoalMet(current: int, goal: int)
    requires goal > 0 && current >= goal
    ensures CalculateProgress(current, goal) == 100
  {
    var p := RoundedPercent(current, goal);
    assert 2 * goal * p + goal > 200 * current >= 200 * goal;
    assert p >= 100 by {
      if p < 100 {
        assert 2 * goal * p <= 2 * goal * 99 by { MultiplyMonotone(2 * goal, p, 99); }
      }
    }
  }

  /** Non-negative amounts against a positive goal give a percentage between 0 and 100. */
  lemma ProgressInRange(current: int, goal: int)
    requires goal > 0 && current >= 0
    ensures 0 <= CalculateProgress(current, goal) <= 100
  {
    var p := RoundedPercent(current, goal);
    assert 2 * goal * p + goal > 200 * current >= 0;
    if p < 0 {
      MultiplyMonotone(2 * goal, p, -1);
    }
  }

  /** Proof helper: the nonlinear step the solver does not find by itself. */
  lemma MultiplyMonotone(k: int, a: int, b: int)
    requires k > 0 && a <= b
    ensures k * a <= k * b
  {
  }

  /** More money raised toward the same positive goal never shows a smaller percentage. */
  lemma ProgressMonotone(c1: int, c2: int, goal: int)
    requires goal > 0 && c1 <= c2
    ensures CalculateProgress(c1, goal) <= CalculateProgress(c2, goal)
  {
    var p1, p2 := RoundedPercent(c1, goal), RoundedPercent(c2, goal);
    assert 2 * goal * p1 - goal <= 200 * c1 <= 200 * c2 < 2 * goal * p2 + goal;
    if p2 < p1 {
      MultiplyMonotone(2 * goal, p2 + 1, p1);
    }
  }

  /** There is no lower clamp: an amount below zero shows a negative percentage. */
  lemma NegativeProgressPossible()
    ensures CalculateProgress(-1, 1) == -100
  {
    assert RoundedPercent(-1, 1) == -100;
  }
}
