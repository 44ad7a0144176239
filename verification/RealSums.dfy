/**
 Finite sums of reals over an integer interval. Arrays are modelled by their index
 functions, so every tensor expression of the library becomes a sum of this form.
 */
module RealSums {
  type Vec = int -> real
  type Mat = (int, int) -> real

  /** f(lo) + ... + f(hi - 1); 0 when the interval is empty. */
  function Sum(lo: int, hi: int, f: Vec): real
    decreases hi - lo
  {
    if hi <= lo then 0.0 else Sum(lo, hi - 1, f) + f(hi - 1)
  }

  lemma {:induction false} SumCong(lo: int, hi: int, f: Vec, g: Vec)
    requires forall i :: lo <= i < hi ==> f(i) == g(i)
    ensures Sum(lo, hi, f) == Sum(lo, hi, g)
    decreases hi - lo
  {
    if lo < hi { SumCong(lo, hi - 1, f, g); }
  }

  lemma {:induction false} SumZero(lo: int, hi: int, f: Vec)
    requires forall i :: lo <= i < hi ==> f(i) == 0.0
    ensures Sum(lo, hi, f) == 0.0
    decreases hi - lo
  {
    if lo < hi { SumZero(lo, hi - 1, f); }
  }

  lemma {:induction false} SumAdd(lo: int, hi: int, f: Vec, g: Vec, h: Vec)
    requires forall i :: lo <= i < hi ==> h(i) == f(i) + g(i)
    ensures Sum(lo, hi, h) == Sum(lo, hi, f) + Sum(lo, hi, g)
    decreases hi - lo
  {
    if lo < hi { SumAdd(lo, hi - 1, f, g, h); }
  }

  ghost predicate ScaledBy(x: real, m: real, y: real) {
    x == m * y
  }

  lemma {:induction false} SumScale(lo: int, hi: int, c: real, f: Vec, h: Vec)
    requires forall i :: lo <= i < hi ==> ScaledBy(h(i), c, f(i))
    ensures ScaledBy(Sum(lo, hi, h), c, Sum(lo, hi, f))
    decreases hi - lo
  {
    if lo < hi {
      SumScale(lo, hi - 1, c, f, h);
      assert ScaledBy(h(hi - 1), c, f(hi - 1));
    }
  }

  lemma {:induction false} SumSplit(lo: int, mid: int, hi: int, f: Vec)
    requires lo <= mid <= hi
    ensures Sum(lo, hi, f) == Sum(lo, mid, f) + Sum(mid, hi, f)
    decreases hi - mid
  {
    if mid < hi { SumSplit(lo, mid, hi - 1, f); }
  }

  lemma {:induction false} SumShift(lo: int, hi: int, k: int, f: Vec, g: Vec)
    requires forall i :: lo <= i < hi ==> f(i) == g(i + k)
    ensures Sum(lo, hi, f) == Sum(lo + k, hi + k, g)
    decreases hi - lo
  {
    if lo < hi {
      SumShift(lo, hi - 1, k, f, g);
      assert f(hi - 1) == g(hi - 1 + k);
    }
  }

  /** The order of two nested sums does not matter. */
  lemma {:induction false} SumSwap(r0: int, r1: int, c0: int, c1: int, f: Mat)
    ensures Sum(r0, r1, i => Sum(c0, c1, j => f(i, j))) == Sum(c0, c1, j => Sum(r0, r1, i => f(i, j)))
    decreases r1 - r0
  {
    if r1 <= r0 {
      SumZero(c0, c1, j => Sum(r0, r1, i => f(i, j)));
    } else {
      SumSwap(r0, r1 - 1, c0, c1, f);
      SumAdd(c0, c1, j => Sum(r0, r1 - 1, i => f(i, j)), j => f(r1 - 1, j), j => Sum(r0, r1, i => f(i, j)));
    }
  }

  /** A weighted sum of sums, in the other order. */
  lemma WeightedSwap(n: int, m: int, u: Vec, M: Mat, z: Vec, t: Vec)
    requires forall a :: 0 <= a < n ==> z(a) == Sum(0, m, j => M(a, j))
    requires forall j :: 0 <= j < m ==> t(j) == Sum(0, n, a => u(a) * M(a, j))
    ensures Sum(0, n, a => u(a) * z(a)) == Sum(0, m, t)
  {
    var f: Mat := (a, j) => u(a) * M(a, j);
    WeightedRows(n, m, u, M, z, f);
    SumSwap(0, n, 0, m, f);
    WeightedColumns(n, m, u, M, t, f);
  }

  lemma WeightedColumns(n: int, m: int, u: Vec, M: Mat, t: Vec, f: Mat)
    requires forall j :: 0 <= j < m ==> t(j) == Sum(0, n, a => u(a) * M(a, j))
    requires forall a, j :: f(a, j) == u(a) * M(a, j)
    ensures Sum(0, m, j => Sum(0, n, a => f(a, j))) == Sum(0, m, t)
  {
    forall j | 0 <= j < m
      ensures Sum(0, n, a => f(a, j)) == t(j)
    {
      SumCong(0, n, a => f(a, j), a => u(a) * M(a, j));
    }
    SumCong(0, m, j => Sum(0, n, a => f(a, j)), t);
  }

  lemma WeightedRows(n: int, m: int, u: Vec, M: Mat, z: Vec, f: Mat)
    requires forall a :: 0 <= a < n ==> z(a) == Sum(0, m, j => M(a, j))
    requires forall a, j :: f(a, j) == u(a) * M(a, j)
    ensures Sum(0, n, a => u(a) * z(a)) == Sum(0, n, a => Sum(0, m, j => f(a, j)))
  {
    forall a | 0 <= a < n
      ensures u(a) * z(a) == Sum(0, m, j => f(a, j))
    {
      forall j ensures ScaledBy(f(a, j), u(a), M(a, j)) {}
      SumScale(0, m, u(a), j => M(a, j), j => f(a, j));
    }
    SumCong(0, n, a => u(a) * z(a), a => Sum(0, m, j => f(a, j)));
  }

  /** All terms but one vanish. */
  lemma {:induction false} SumSingle(lo: int, hi: int, at: int, f: Vec)
    requires lo <= at < hi
    requires forall i :: lo <= i < hi && i != at ==> f(i) == 0.0
    ensures Sum(lo, hi, f) == f(at)
  {
    SumSplit(lo, at, hi, f);
    SumSplit(at, at + 1, hi, f);
    SumZero(lo, at, f);
    SumZero(at + 1, hi, f);
    assert Sum(at, at + 1, f) == Sum(at, at, f) + f(at);
  }

  ghost predicate PrefixAt(i: int, m: real, t: real, j: int, f: real) {
    f == if j < i then m * t else 0.0
  }

  /** A multiple of t on a prefix, zero afterwards. */
  lemma SumPrefix(i: int, n: int, m: real, t: Vec, f: Vec)
    requires 0 <= i <= n
    requires forall j :: 0 <= j < n ==> PrefixAt(i, m, t(j), j, f(j))
    ensures ScaledBy(Sum(0, n, f), m, Sum(0, i, t))
  {
    SumSplit(0, i, n, f);
    forall j | i <= j < n ensures f(j) == 0.0 { assert PrefixAt(i, m, t(j), j, f(j)); }
    SumZero(i, n, f);
    forall j | 0 <= j < i ensures ScaledBy(f(j), m, t(j)) { assert PrefixAt(i, m, t(j), j, f(j)); }
    SumScale(0, i, m, t, f);
  }

  lemma {:induction false} SumPositive(lo: int, hi: int, at: int, f: Vec)
    requires lo <= at < hi && f(at) > 0.0
    requires forall i :: lo <= i < hi ==> f(i) >= 0.0
    ensures Sum(lo, hi, f) > 0.0
    decreases hi - lo
  {
    if at == hi - 1 {
      SumNonNegative(lo, hi - 1, f);
    } else {
      SumPositive(lo, hi - 1, at, f);
    }
  }

  lemma {:induction false} SumNonNegative(lo: int, hi: int, f: Vec)
    requires forall i :: lo <= i < hi ==> f(i) >= 0.0
    ensures Sum(lo, hi, f) >= 0.0
    decreases hi - lo
  {
    if lo < hi { SumNonNegative(lo, hi - 1, f); }
  }

  /** A sum over `m` contiguous groups of `g` indices, group by group. */
  lemma {:induction false} SumGroups(m: nat, g: nat, f: Vec)
    ensures Sum(0, m * g, f) == Sum(0, m, u => Sum(0, g, r => f(u * g + r)))
  {
    if m > 0 {
      SumGroups(m - 1, g, f);
      assert m * g == (m - 1) * g + g;
      SumSplit(0, (m - 1) * g, m * g, f);
      SumShift(0, g, (m - 1) * g, r => f((m - 1) * g + r), f);
    }
  }
}
