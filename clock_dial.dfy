/**
 * The circular day both generations of the period model test against: a dial of
 * `n` units (seconds or minutes) on which a period runs clockwise from its start
 * to its end, both ends included.
 */
module ClockDial {

  /**
   * The reference meaning of containment on a circular day of `n` units: walking
   * clockwise from `from`, `x` is reached no later than `to`.
   */
  predicate OnClockwiseArc(from: int, to: int, x: int, n: int)
    requires n > 0
  {
    (x - from) % n <= (to - from) % n
  }

  /** Euclidean remainder of a value that is at most one turn away from [0, n). */
  lemma {:induction false} ModWithinOneTurn(a: int, n: int)
    requires n > 0 && -n <= a < n
    ensures a % n == if a >= 0 then a else a + n
  {
    var q, r := a / n, a % n;
    assert a == q * n + r && 0 <= r < n;
    assert q >= 1 ==> q * n >= n;
    assert q <= -2 ==> q * n <= -2 * n;
    assert q == -1 ==> q * n == -n;
  }

  /** On a dial of `n` units the arc is an interval when it does not pass midnight, and two intervals when it does. */
  lemma {:induction false} ClockwiseArcCases(from: int, to: int, x: int, n: int)
    requires n > 0 && 0 <= from < n && 0 <= to < n && 0 <= x < n
    ensures OnClockwiseArc(from, to, x, n) <==>
            if from <= to then from <= x <= to else (x >= from || x <= to)
  {
    ModWithinOneTurn(to - from, n);
    ModWithinOneTurn(x - from, n);
  }
}
