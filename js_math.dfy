/**
 * Integer arithmetic as JavaScript performs it on numbers that hold
 * integers. JavaScript's `%` truncates toward zero (the result takes the
 * sign of the dividend), while Dafny's `%` is Euclidean; `Math.floor(a / b)`
 * on a positive divisor is floor division, which is what Dafny's `/` gives.
 */
module JsMath {

  /** JavaScript's `a % b` for a positive divisor `b`. */
  function Rem(a: int, b: int): (r: int)
    requires b > 0
    ensures a >= 0 ==> 0 <= r < b
    ensures a < 0 ==> -b < r <= 0
  {
    if a >= 0 then a % b else -((-a) % b)
  }

  /** Euclidean division has exactly one quotient and remainder. */
  lemma DivModUnique(d: int, n: int, q: int, r: int)
    requires n > 0 && d == q * n + r && 0 <= r < n
    ensures d / n == q && d % n == r
  {
    var x := d / n - q;
    assert x * n == r - d % n;
  }

  /** A remainder of a non-negative number below twice the divisor subtracts the divisor at most once. */
  lemma RemBelowTwice(a: int, b: int)
    requires b > 0 && 0 <= a < 2 * b
    ensures Rem(a, b) == if a < b then a else a - b
  {
    if a < b {
      DivModUnique(a, b, 0, a);
    } else {
      DivModUnique(a, b, 1, a - b);
    }
  }

  /** Floor division by a positive number does not decrease as the dividend grows. */
  lemma DivMonotone(x: int, y: int, n: int)
    requires 0 <= x <= y && n > 0
    ensures x / n <= y / n
  {
    var qx, qy := x / n, y / n;
    assert (qx - qy) * n < n;
    assert (1 - (qx - qy)) * n > 0;
  }
}
