/** Integer division by a positive number, and powers of two. */
module Integers {
  function Pow2(k: nat): nat {
    if k == 0 then 1 else 2 * Pow2(k - 1)
  }

  lemma Multiples(e: int, m: int)
    requires m >= 0
    ensures e >= 1 ==> e * m >= m
    ensures e <= -1 ==> e * m <= -m
  {
    if e >= 1 { assert (e - 1) * m >= 0; }
    if e <= -1 { assert (-1 - e) * m >= 0; }
  }

  /** The quotient and the remainder are determined by x == q * m + r with 0 <= r < m. */
  lemma DivMod(x: int, m: int, q: int, r: int)
    requires m >= 1 && 0 <= r < m && x == q * m + r
    ensures x / m == q && x % m == r
  {
    var e := x / m - q;
    assert x == (x / m) * m + x % m;
    assert e * m == r - x % m;
    Multiples(e, m);
  }

  /** An index below n * m lies in one of n blocks of m. */
  lemma BlockIndex(x: int, m: int, n: int)
    requires m >= 1 && 0 <= x < n * m
    ensures 0 <= x / m < n && 0 <= x % m < m && x == (x / m) * m + x % m
  {
    var e := x / m - n + 1;
    assert x == (x / m) * m + x % m;
    assert (x / m) * m == e * m + n * m - m;
    Multiples(e, m);
  }
}
