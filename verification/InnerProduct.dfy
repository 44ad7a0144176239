/**
 The Frobenius inner product and the adjoints of matrix multiplication: what a hand-written
 backward pass has to be checked against.
 */
module InnerProduct {
  import opened RealSums
  import opened TriangularSolve

  function RowDot(m: int, A: Mat, B: Mat, i: int): real {
    Sum(0, m, j => A(i, j) * B(i, j))
  }

  function RowDots(m: int, A: Mat, B: Mat): Vec {
    i => RowDot(m, A, B, i)
  }

  /** The sum of A(i, j) * B(i, j) over [0, n) x [0, m). */
  function Inner(n: int, m: int, A: Mat, B: Mat): real {
    Sum(0, n, RowDots(m, A, B))
  }

  function Times(c: real, A: Mat): Mat {
    (i, j) => c * A(i, j)
  }

  ghost predicate SameOn(n: int, m: int, A: Mat, B: Mat) {
    forall i, j :: 0 <= i < n && 0 <= j < m ==> A(i, j) == B(i, j)
  }

  lemma RowDotCong(m: int, A: Mat, A': Mat, B: Mat, B': Mat, i: int)
    requires forall j :: 0 <= j < m ==> A(i, j) == A'(i, j) && B(i, j) == B'(i, j)
    ensures RowDot(m, A, B, i) == RowDot(m, A', B', i)
  {
    SumCong(0, m, j => A(i, j) * B(i, j), j => A'(i, j) * B'(i, j));
  }

  lemma InnerCong(n: int, m: int, A: Mat, A': Mat, B: Mat, B': Mat)
    requires SameOn(n, m, A, A') && SameOn(n, m, B, B')
    ensures Inner(n, m, A, B) == Inner(n, m, A', B')
  {
    forall i | 0 <= i < n ensures RowDots(m, A, B)(i) == RowDots(m, A', B')(i) {
      RowDotCong(m, A, A', B, B', i);
    }
    SumCong(0, n, RowDots(m, A, B), RowDots(m, A', B'));
  }

  lemma InnerSymmetric(n: int, m: int, A: Mat, B: Mat)
    ensures Inner(n, m, A, B) == Inner(n, m, B, A)
  {
    forall i | 0 <= i < n ensures RowDots(m, A, B)(i) == RowDots(m, B, A)(i) {
      SumCong(0, m, j => A(i, j) * B(i, j), j => B(i, j) * A(i, j));
    }
    SumCong(0, n, RowDots(m, A, B), RowDots(m, B, A));
  }

  lemma InnerAdd(n: int, m: int, A: Mat, B: Mat, C: Mat, D: Mat)
    requires forall i, j :: 0 <= i < n && 0 <= j < m ==> D(i, j) == B(i, j) + C(i, j)
    ensures Inner(n, m, A, D) == Inner(n, m, A, B) + Inner(n, m, A, C)
  {
    forall i | 0 <= i < n
      ensures RowDots(m, A, D)(i) == RowDots(m, A, B)(i) + RowDots(m, A, C)(i)
    {
      RowDotAdd(m, A, B, C, D, i);
    }
    SumAdd(0, n, RowDots(m, A, B), RowDots(m, A, C), RowDots(m, A, D));
  }

  lemma RowDotAdd(m: int, A: Mat, B: Mat, C: Mat, D: Mat, i: int)
    requires forall j :: 0 <= j < m ==> D(i, j) == B(i, j) + C(i, j)
    ensures RowDot(m, A, D, i) == RowDot(m, A, B, i) + RowDot(m, A, C, i)
  {
    forall j | 0 <= j < m ensures A(i, j) * D(i, j) == A(i, j) * B(i, j) + A(i, j) * C(i, j) {
      Distribute(A(i, j), B(i, j), C(i, j), D(i, j));
    }
    SumAdd(0, m, j => A(i, j) * B(i, j), j => A(i, j) * C(i, j), j => A(i, j) * D(i, j));
  }

  lemma Distribute(a: real, b: real, c: real, d: real)
    requires d == b + c
    ensures a * d == a * b + a * c
  {
  }

  lemma InnerScale(n: int, m: int, c: real, A: Mat, B: Mat)
    ensures ScaledBy(Inner(n, m, A, Times(c, B)), c, Inner(n, m, A, B))
  {
    forall i | 0 <= i < n
      ensures ScaledBy(RowDots(m, A, Times(c, B))(i), c, RowDots(m, A, B)(i))
    {
      RowDotScale(m, c, A, B, i);
    }
    SumScale(0, n, c, RowDots(m, A, B), RowDots(m, A, Times(c, B)));
  }

  lemma {:induction false} RowDotScale(m: int, c: real, A: Mat, B: Mat, i: int)
    ensures ScaledBy(RowDot(m, A, Times(c, B), i), c, RowDot(m, A, B, i))
    decreases m
  {
    if m > 0 {
      RowDotScale(m - 1, c, A, B, i);
    }
  }

  lemma InnerTranspose(n: int, m: int, A: Mat, B: Mat)
    ensures Inner(n, m, A, B) == Inner(m, n, Transposed(A), Transposed(B))
  {
    var f: Mat := (i, j) => A(i, j) * B(i, j);
    SumCong(0, n, RowDots(m, A, B), i => Sum(0, m, j => f(i, j))) by {
      forall i ensures RowDots(m, A, B)(i) == Sum(0, m, j => f(i, j)) {
        SumCong(0, m, j => A(i, j) * B(i, j), j => f(i, j));
      }
    }
    SumSwap(0, n, 0, m, f);
    var At, Bt := Transposed(A), Transposed(B);
    forall j ensures RowDots(n, At, Bt)(j) == Sum(0, n, i => f(i, j)) {
      SumCong(0, n, i => At(j, i) * Bt(j, i), i => f(i, j));
    }
    SumCong(0, m, RowDots(n, At, Bt), j => Sum(0, n, i => f(i, j)));
  }

  /** <A, B C> = <A C^T, B> */
  lemma InnerMulRight(n: int, p: int, m: int, A: Mat, B: Mat, C: Mat)
    ensures Inner(n, m, A, Mul(p, B, C)) == Inner(n, p, Mul(m, A, Transposed(C)), B)
  {
    forall i | 0 <= i < n
      ensures RowDots(m, A, Mul(p, B, C))(i) == RowDots(p, Mul(m, A, Transposed(C)), B)(i)
    {
      RowMul(p, m, A, B, C, i, Mul(p, B, C), Mul(m, A, Transposed(C)));
    }
    SumCong(0, n, RowDots(m, A, Mul(p, B, C)), RowDots(p, Mul(m, A, Transposed(C)), B));
  }

  lemma RowMul(p: int, m: int, A: Mat, B: Mat, C: Mat, i: int, BC: Mat, AC: Mat)
    requires BC == Mul(p, B, C) && AC == Mul(m, A, Transposed(C))
    ensures RowDot(m, A, BC, i) == RowDot(p, AC, B, i)
  {
    var M: Mat := (j, k) => B(i, k) * C(k, j);
    var u: Vec, z: Vec, t: Vec := j => A(i, j), j => BC(i, j), k => AC(i, k) * B(i, k);
    forall j ensures z(j) == Sum(0, p, k => M(j, k)) { MulRow(p, B, C, M, i, j); }
    forall k ensures t(k) == Sum(0, m, j => u(j) * M(j, k)) { RowMulTerm(m, A, B, C, AC, u, M, i, k); }
    WeightedSwap(m, p, u, M, z, t);
    RowWeights(m, A, BC, i, u, z);
  }

  lemma RowWeights(m: int, A: Mat, B: Mat, i: int, u: Vec, z: Vec)
    requires forall j :: u(j) == A(i, j) && z(j) == B(i, j)
    ensures RowDot(m, A, B, i) == Sum(0, m, j => u(j) * z(j))
  {
    SumCong(0, m, j => A(i, j) * B(i, j), j => u(j) * z(j));
  }

  lemma MulRow(p: int, B: Mat, C: Mat, M: Mat, i: int, j: int)
    requires forall k :: M(j, k) == B(i, k) * C(k, j)
    ensures Mul(p, B, C)(i, j) == Sum(0, p, k => M(j, k))
  {
    SumCong(0, p, k => B(i, k) * C(k, j), k => M(j, k));
  }

  lemma RowMulTerm(m: int, A: Mat, B: Mat, C: Mat, AC: Mat, u: Vec, M: Mat, i: int, k: int)
    requires AC == Mul(m, A, Transposed(C))
    requires forall j :: u(j) == A(i, j) && M(j, k) == B(i, k) * C(k, j)
    ensures AC(i, k) * B(i, k) == Sum(0, m, j => u(j) * M(j, k))
  {
    var Ct, b := Transposed(C), B(i, k);
    forall j ensures ScaledBy(u(j) * M(j, k), b, A(i, j) * Ct(j, k)) {
      assert Ct(j, k) == C(k, j);
    }
    SumScale(0, m, b, j => A(i, j) * Ct(j, k), j => u(j) * M(j, k));
  }

  /** <A, B C> = <B^T A, C> */
  lemma InnerMulLeft(n: int, p: int, m: int, A: Mat, B: Mat, C: Mat)
    ensures Inner(n, m, A, Mul(p, B, C)) == Inner(p, m, Mul(n, Transposed(B), A), C)
  {
    var At, Bt, Ct := Transposed(A), Transposed(B), Transposed(C);
    var BC := Mul(p, B, C);
    InnerTranspose(n, m, A, BC);
    TransposeMul(p, B, C);
    InnerCong(m, n, At, At, Transposed(BC), Mul(p, Ct, Bt));
    InnerMulRight(m, p, n, At, Ct, Bt);
    var D := Mul(n, Bt, A);
    InnerTranspose(p, m, D, C);
    TransposeMul(n, Bt, A);
    InnerCong(m, p, Transposed(D), Mul(n, At, Transposed(Bt)), Ct, Ct);
  }

  lemma TransposeMul(p: int, B: Mat, C: Mat)
    ensures forall i, j :: Transposed(Mul(p, B, C))(i, j) == Mul(p, Transposed(C), Transposed(B))(i, j)
  {
    var Bt, Ct := Transposed(B), Transposed(C);
    forall i, j ensures Transposed(Mul(p, B, C))(i, j) == Mul(p, Ct, Bt)(i, j) {
      SumCong(0, p, k => B(j, k) * C(k, i), k => Ct(i, k) * Bt(k, j));
    }
  }

  lemma InnerScaleLeft(n: int, m: int, c: real, A: Mat, B: Mat)
    ensures ScaledBy(Inner(n, m, Times(c, A), B), c, Inner(n, m, A, B))
  {
    InnerSymmetric(n, m, Times(c, A), B);
    InnerScale(n, m, c, B, A);
    InnerSymmetric(n, m, B, A);
  }

  /** <E, x k^T> = <E k, x> */
  lemma LeftFactorAdjoint(N: int, M: int, D: int, E: Mat, x: Mat, k: Mat)
    ensures Inner(N, M, E, Mul(D, x, Transposed(k))) == Inner(N, D, Mul(M, E, k), x)
  {
    var kT := Transposed(k);
    InnerMulRight(N, D, M, E, x, kT);
    forall i, j | 0 <= i < N && 0 <= j < D ensures Mul(M, E, Transposed(kT))(i, j) == Mul(M, E, k)(i, j) {
      MulCong(M, E, E, Transposed(kT), k, i, j);
    }
    InnerCong(N, D, Mul(M, E, Transposed(kT)), Mul(M, E, k), x, x);
  }

  /** <E, q y^T> = <E^T q, y> */
  lemma RightFactorAdjoint(N: int, M: int, D: int, E: Mat, q: Mat, y: Mat)
    ensures Inner(N, M, E, Mul(D, q, Transposed(y))) == Inner(M, D, Mul(N, Transposed(E), q), y)
  {
    var X := Mul(D, q, Transposed(y));
    InnerTranspose(N, M, E, X);
    TransposeMul(D, q, Transposed(y));
    forall i, j | 0 <= i < M && 0 <= j < N ensures Transposed(X)(i, j) == Mul(D, y, Transposed(q))(i, j) {
      MulCong(D, Transposed(Transposed(y)), y, Transposed(q), Transposed(q), i, j);
    }
    InnerCong(M, N, Transposed(E), Transposed(E), Transposed(X), Mul(D, y, Transposed(q)));
    LeftFactorAdjoint(M, N, D, Transposed(E), y, q);
  }
}
