/** Python's `round` (ties to even) on exact rationals, and clamping. */
module PyMath {
  function Abs(x: int): int
  {
    if x < 0 then -x else x
  }

  /** `round(n / d)`: the nearest integer to n/d, the even one on a tie. */
  function RoundDiv(n: int, d: int): (r: int)
    requires d > 0
    ensures 2 * Abs(n - r * d) <= d
    ensures 2 * Abs(n - r * d) == d ==> r % 2 == 0
  {
    var q := n / d;
    var rem := n % d;
    assert n == q * d + rem && 0 <= rem < d;
    if 2 * rem < d then q
    else if 2 * rem > d then q + 1
    else if q % 2 == 0 then q
    else q + 1
  }

  lemma MulGap(a: int, b: int, d: int)
    requires a > b && d > 0
    ensures a * d - b * d >= d
  {
    assert a * d - b * d == (a - b) * d;
    assert (a - b) * d == d + (a - b - 1) * d;
  }

  /** Rounding is monotone. */
  lemma RoundDivMonotone(m: int, n: int, d: int)
    requires d > 0 && m <= n
    ensures RoundDiv(m, d) <= RoundDiv(n, d)
  {
    var a, b := RoundDiv(m, d), RoundDiv(n, d);
    if a > b {
      assert 2 * m - 2 * (a * d) >= -d;
      assert 2 * n - 2 * (b * d) <= d;
      MulGap(a, b, d);
    }
  }

  /** Rounding a whole multiple gives the quotient. */
  lemma RoundDivExact(k: int, d: int)
    requires d > 0
    ensures RoundDiv(k * d, d) == k
  {
    var r := RoundDiv(k * d, d);
    if r > k {
      MulGap(r, k, d);
    } else if r < k {
      MulGap(k, r, d);
    }
  }

  /** `max(lo, min(hi, x))`. */
  function Clamp(lo: int, hi: int, x: int): (r: int)
    requires lo <= hi
    ensures lo <= r <= hi
    ensures lo <= x <= hi ==> r == x
  {
    if x < lo then lo else if x > hi then hi else x
  }
}
