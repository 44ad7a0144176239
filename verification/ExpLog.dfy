/**
 What the proofs need to know about exp and log: the functional equation, positivity, and
 that log inverts exp on the positive reals. Both functions are parameters everywhere.
 */
module ExpLog {
  import opened RealSums

  ghost predicate IsProduct(z: real, x: real, y: real) {
    z == x * y
  }

  ghost predicate AddAt(exp: real -> real, x: real, y: real) {
    IsProduct(exp(x + y), exp(x), exp(y))
  }

  ghost predicate InverseAt(exp: real -> real, log: real -> real, x: real) {
    x > 0.0 ==> exp(log(x)) == x
  }

  ghost predicate PositiveAt(exp: real -> real, x: real) {
    exp(x) > 0.0
  }

  ghost predicate IsExpLog(exp: real -> real, log: real -> real) {
    && (forall x, y :: AddAt(exp, x, y))
    && (forall x :: InverseAt(exp, log, x))
    && (forall x :: PositiveAt(exp, x))
  }

  lemma ExpPositive(exp: real -> real, log: real -> real, x: real)
    requires IsExpLog(exp, log)
    ensures exp(x) > 0.0
  {
    assert PositiveAt(exp, x);
  }

  lemma ExpZero(exp: real -> real, log: real -> real)
    requires IsExpLog(exp, log)
    ensures exp(0.0) == 1.0
  {
    ExpZeroBy(exp, log, 0.0, 1.0, 1.0);
  }

  lemma ExpZeroBy(exp: real -> real, log: real -> real, zero: real, x: real, y: real)
    requires IsExpLog(exp, log) && zero == 0.0 && y == zero + x
    ensures exp(zero) == 1.0
  {
    assert AddAt(exp, zero, x);
    assert IsProduct(exp(y), exp(zero), exp(x));
    assert y == x;
    ExpPositive(exp, log, x);
    Neutral(exp(zero), exp(x));
  }

  lemma Neutral(e: real, x: real)
    requires x > 0.0 && IsProduct(x, e, x)
    ensures e == 1.0
  {
    assert (e - 1.0) * x == 0.0;
  }

  lemma ExpSub(exp: real -> real, log: real -> real, x: real, y: real)
    requires IsExpLog(exp, log)
    ensures exp(y) > 0.0 && exp(x - y) == exp(x) / exp(y)
  {
    ExpPositive(exp, log, y);
    assert AddAt(exp, x - y, y);
    assert x - y + y == x;
  }

  lemma ExpOfLog(exp: real -> real, log: real -> real, x: real)
    requires IsExpLog(exp, log) && x > 0.0
    ensures exp(log(x)) == x
  {
    assert InverseAt(exp, log, x);
  }

  /** g(lo) * ... * g(hi - 1); 1 when the interval is empty. */
  function Product(lo: int, hi: int, g: Vec): real
    decreases hi - lo
  {
    if hi <= lo then 1.0 else Product(lo, hi - 1, g) * g(hi - 1)
  }

  lemma {:induction false} ProductCong(lo: int, hi: int, f: Vec, g: Vec)
    requires forall i :: lo <= i < hi ==> f(i) == g(i)
    ensures Product(lo, hi, f) == Product(lo, hi, g)
    decreases hi - lo
  {
    if lo < hi { ProductCong(lo, hi - 1, f, g); }
  }

  /** exp turns a sum of logs into the product. */
  lemma {:induction false} ExpSumLog(exp: real -> real, log: real -> real, lo: int, hi: int, g: Vec)
    requires IsExpLog(exp, log)
    requires forall i :: lo <= i < hi ==> g(i) > 0.0
    ensures exp(Sum(lo, hi, i => log(g(i)))) == Product(lo, hi, g)
    decreases hi - lo
  {
    ExpZero(exp, log);
    if lo < hi {
      ExpSumLog(exp, log, lo, hi - 1, g);
      assert AddAt(exp, Sum(lo, hi - 1, i => log(g(i))), log(g(hi - 1)));
      ExpOfLog(exp, log, g(hi - 1));
    }
  }
}
