/**
 The blocked forward substitution of recurrent/ops.py: (I - A) x = b for strictly
 lower-triangular A, each diagonal block by a doubling Neumann product.

 The leading axes `[..., ]` of every array are the pair (batch, head); an array is its index
 function, so the column count of `b` never appears.
 */
module TriangularSolve {
  import opened Integers
  import opened RealSums

  type Batch = (int, int) -> Mat

  // ----- matrix algebra -----

  function Mul(n: int, A: Mat, B: Mat): Mat {
    (i, j) => Sum(0, n, k => A(i, k) * B(k, j))
  }

  function Add(A: Mat, B: Mat): Mat {
    (i, j) => A(i, j) + B(i, j)
  }

  function Transposed(A: Mat): Mat {
    (i, j) => A(j, i)
  }

  function Identity(): Mat {
    (i, j) => if i == j then 1.0 else 0.0
  }

  function Power(n: int, A: Mat, m: nat): Mat {
    if m == 0 then Identity() else Mul(n, A, Power(n, A, m - 1))
  }

  /** The first m terms of the Neumann series applied to b: b + A b + ... + A^(m-1) b. */
  function Neumann(n: int, A: Mat, b: Mat, m: nat): Mat {
    if m == 0 then (i, j) => 0.0 else Add(b, Mul(n, A, Neumann(n, A, b, m - 1)))
  }

  ghost predicate StrictLower(n: int, A: Mat) {
    forall i, j :: 0 <= i < n && i <= j < n ==> A(i, j) == 0.0
  }

  /** x satisfies x = b + A x on rows [0, n), that is (I - A) x = b. */
  ghost predicate Solves(n: int, A: Mat, b: Mat, x: Mat) {
    forall i, j :: 0 <= i < n ==> SolvesAt(n, A, b, x, i, j)
  }

  ghost predicate SolvesAt(n: int, A: Mat, b: Mat, x: Mat, i: int, j: int) {
    x(i, j) == b(i, j) + Mul(n, A, x)(i, j)
  }

  ghost predicate SameEntry(A: Mat, B: Mat, i: int, j: int) {
    A(i, j) == B(i, j)
  }

  /** Equality of the rows [0, n). */
  ghost predicate SameRows(n: int, A: Mat, B: Mat) {
    forall i, j :: 0 <= i < n ==> SameEntry(A, B, i, j)
  }

  /** Equality of the square [0, n) x [0, n). */
  ghost predicate SameSquare(n: int, A: Mat, B: Mat) {
    forall i, j :: 0 <= i < n && 0 <= j < n ==> SameEntry(A, B, i, j)
  }

  lemma MulCong(n: int, A: Mat, A': Mat, B: Mat, B': Mat, i: int, j: int)
    requires forall k :: 0 <= k < n ==> A(i, k) == A'(i, k) && B(k, j) == B'(k, j)
    ensures Mul(n, A, B)(i, j) == Mul(n, A', B')(i, j)
  {
    SumCong(0, n, k => A(i, k) * B(k, j), k => A'(i, k) * B'(k, j));
  }

  lemma MulRows(n: int, A: Mat, B: Mat, B': Mat, i: int, j: int)
    requires SameRows(n, B, B')
    ensures Mul(n, A, B)(i, j) == Mul(n, A, B')(i, j)
  {
    forall k | 0 <= k < n ensures B(k, j) == B'(k, j) { assert SameEntry(B, B', k, j); }
    MulCong(n, A, A, B, B', i, j);
  }

  lemma MulSquares(n: int, A: Mat, A': Mat, B: Mat, B': Mat, i: int, j: int)
    requires 0 <= i < n && SameSquare(n, A, A')
    requires forall k :: 0 <= k < n ==> SameEntry(B, B', k, j)
    ensures Mul(n, A, B)(i, j) == Mul(n, A', B')(i, j)
  {
    forall k | 0 <= k < n ensures A(i, k) == A'(i, k) && B(k, j) == B'(k, j) {
      assert SameEntry(A, A', i, k) && SameEntry(B, B', k, j);
    }
    MulCong(n, A, A', B, B', i, j);
  }

  lemma MulAssoc(n: int, m: int, A: Mat, B: Mat, C: Mat, i: int, j: int)
    ensures Mul(m, Mul(n, A, B), C)(i, j) == Mul(n, A, Mul(m, B, C))(i, j)
  {
    AssocLeft(n, m, A, B, C, i, j);
    SumSwap(0, m, 0, n, Triple(A, B, C, i, j));
    AssocRight(n, m, A, B, C, i, j);
  }

  function Triple(A: Mat, B: Mat, C: Mat, i: int, j: int): Mat {
    (k, l) => A(i, l) * B(l, k) * C(k, j)
  }

  lemma AssocLeft(n: int, m: int, A: Mat, B: Mat, C: Mat, i: int, j: int)
    ensures Mul(m, Mul(n, A, B), C)(i, j) == Sum(0, m, k => Sum(0, n, l => Triple(A, B, C, i, j)(k, l)))
  {
    var AB := Mul(n, A, B);
    forall k
      ensures AB(i, k) * C(k, j) == Sum(0, n, l => Triple(A, B, C, i, j)(k, l))
    {
      forall l ensures Triple(A, B, C, i, j)(k, l) == A(i, l) * B(l, k) * C(k, j) {}
      ScaleLeft(n, A, B, C(k, j), i, k, l => Triple(A, B, C, i, j)(k, l));
    }
    SumCong(0, m, k => AB(i, k) * C(k, j), k => Sum(0, n, l => Triple(A, B, C, i, j)(k, l)));
  }

  lemma AssocRight(n: int, m: int, A: Mat, B: Mat, C: Mat, i: int, j: int)
    ensures Mul(n, A, Mul(m, B, C))(i, j) == Sum(0, n, l => Sum(0, m, k => Triple(A, B, C, i, j)(k, l)))
  {
    var BC := Mul(m, B, C);
    forall l
      ensures A(i, l) * BC(l, j) == Sum(0, m, k => Triple(A, B, C, i, j)(k, l))
    {
      forall k ensures Triple(A, B, C, i, j)(k, l) == A(i, l) * B(l, k) * C(k, j) {}
      ScaleRight(m, B, C, A(i, l), l, j, k => Triple(A, B, C, i, j)(k, l));
    }
    SumCong(0, n, l => A(i, l) * BC(l, j), l => Sum(0, m, k => Triple(A, B, C, i, j)(k, l)));
  }

  lemma ScaleLeft(n: int, A: Mat, B: Mat, c: real, i: int, j: int, h: Vec)
    requires forall k :: h(k) == A(i, k) * B(k, j) * c
    ensures Mul(n, A, B)(i, j) * c == Sum(0, n, h)
  {
    SumScale(0, n, c, k => A(i, k) * B(k, j), h);
  }

  lemma ScaleRight(n: int, A: Mat, B: Mat, c: real, i: int, j: int, h: Vec)
    requires forall k :: h(k) == c * A(i, k) * B(k, j)
    ensures c * Mul(n, A, B)(i, j) == Sum(0, n, h)
  {
    forall k ensures h(k) == c * (A(i, k) * B(k, j)) {}
    SumScale(0, n, c, k => A(i, k) * B(k, j), h);
  }

  lemma MulAdd(n: int, A: Mat, B: Mat, C: Mat, i: int, j: int)
    ensures Mul(n, A, Add(B, C))(i, j) == Mul(n, A, B)(i, j) + Mul(n, A, C)(i, j)
  {
    forall k ensures A(i, k) * Add(B, C)(k, j) == A(i, k) * B(k, j) + A(i, k) * C(k, j) {}
    SumAdd(0, n, k => A(i, k) * B(k, j), k => A(i, k) * C(k, j), k => A(i, k) * Add(B, C)(k, j));
  }

  lemma MulIdentity(n: int, B: Mat, i: int, j: int)
    requires 0 <= i < n
    ensures Mul(n, Identity(), B)(i, j) == B(i, j)
  {
    forall k ensures Identity()(i, k) * B(k, j) == if k == i then B(i, j) else 0.0 {}
    SumSingle(0, n, i, k => Identity()(i, k) * B(k, j));
  }

  // ----- powers, the Neumann series and nilpotency -----

  lemma {:induction false} PowerAdd(n: int, A: Mat, p: nat, q: nat)
    ensures SameRows(n, Mul(n, Power(n, A, p), Power(n, A, q)), Power(n, A, p + q))
  {
    if p == 0 {
      LeftIdentity(n, Power(n, A, q));
    } else {
      PowerAdd(n, A, p - 1, q);
      PowerSuccAdd(n, A, p, q);
    }
  }

  lemma PowerSuccAdd(n: int, A: Mat, p: nat, q: nat)
    requires p > 0 && SameRows(n, Mul(n, Power(n, A, p - 1), Power(n, A, q)), Power(n, A, p - 1 + q))
    ensures SameRows(n, Mul(n, Power(n, A, p), Power(n, A, q)), Power(n, A, p + q))
  {
    PowerStep(n, A, Power(n, A, p - 1), Power(n, A, q), Power(n, A, p - 1 + q), Power(n, A, p), Power(n, A, p + q));
  }

  lemma LeftIdentity(n: int, B: Mat)
    ensures SameRows(n, Mul(n, Identity(), B), B)
  {
    forall i, j | 0 <= i < n ensures SameEntry(Mul(n, Identity(), B), B, i, j) { MulIdentity(n, B, i, j); }
  }

  /** (A P) Q = A (P Q) */
  lemma PowerStep(n: int, A: Mat, P: Mat, Q: Mat, R: Mat, AP: Mat, AR: Mat)
    requires SameRows(n, Mul(n, P, Q), R) && AP == Mul(n, A, P) && AR == Mul(n, A, R)
    ensures SameRows(n, Mul(n, AP, Q), AR)
  {
    forall i, j | 0 <= i < n ensures SameEntry(Mul(n, AP, Q), AR, i, j) {
      MulAssoc(n, n, A, P, Q, i, j);
      MulRows(n, A, Mul(n, P, Q), R, i, j);
    }
  }

  lemma {:induction false} NeumannAdd(n: int, A: Mat, b: Mat, p: nat, q: nat)
    ensures IsNeumannSum(n, A, b, p, q, Neumann(n, A, b, p + q))
  {
    if p == 0 {
      NeumannBase(n, Neumann(n, A, b, q), Neumann(n, A, b, 0));
    } else {
      NeumannAdd(n, A, b, p - 1, q);
      NeumannSuccAdd(n, A, b, p, q);
    }
  }

  /** X is the sum of the first p terms and A^p times the sum of the next q. */
  ghost predicate IsNeumannSum(n: int, A: Mat, b: Mat, p: nat, q: nat, X: Mat) {
    SameRows(n, X, Add(Neumann(n, A, b, p), Mul(n, Power(n, A, p), Neumann(n, A, b, q))))
  }

  lemma NeumannSuccAdd(n: int, A: Mat, b: Mat, p: nat, q: nat)
    requires p > 0 && IsNeumannSum(n, A, b, p - 1, q, Neumann(n, A, b, p - 1 + q))
    ensures IsNeumannSum(n, A, b, p, q, Neumann(n, A, b, p + q))
  {
    NeumannStep(n, A, b, Neumann(n, A, b, p - 1 + q), Neumann(n, A, b, p - 1), Power(n, A, p - 1),
                Neumann(n, A, b, q), Neumann(n, A, b, p + q), Neumann(n, A, b, p), Power(n, A, p));
  }

  lemma NeumannBase(n: int, X: Mat, Z: Mat)
    requires forall i, j :: Z(i, j) == 0.0
    ensures SameRows(n, X, Add(Z, Mul(n, Identity(), X)))
  {
    forall i, j | 0 <= i < n ensures SameEntry(X, Add(Z, Mul(n, Identity(), X)), i, j) { MulIdentity(n, X, i, j); }
  }

  /** b + A (N + P M) = (b + A N) + (A P) M */
  lemma NeumannStep(n: int, A: Mat, b: Mat, S: Mat, N: Mat, P: Mat, M: Mat, S': Mat, N': Mat, P': Mat)
    requires SameRows(n, S, Add(N, Mul(n, P, M)))
    requires S' == Add(b, Mul(n, A, S)) && N' == Add(b, Mul(n, A, N)) && P' == Mul(n, A, P)
    ensures SameRows(n, S', Add(N', Mul(n, P', M)))
  {
    var tail := Mul(n, P, M);
    forall i, j | 0 <= i < n ensures SameEntry(S', Add(N', Mul(n, P', M)), i, j) {
      MulRows(n, A, S, Add(N, tail), i, j);
      MulAdd(n, A, N, tail, i, j);
      MulAssoc(n, n, A, P, M, i, j);
    }
  }

  /** The m-th power of a strictly lower-triangular matrix lives m diagonals down. */
  lemma {:induction false} PowerBand(n: int, A: Mat, m: nat)
    requires StrictLower(n, A)
    ensures forall i, j :: 0 <= i < n && i - m < j < n ==> Power(n, A, m)(i, j) == 0.0
  {
    if m > 0 {
      PowerBand(n, A, m - 1);
      forall i, j | 0 <= i < n && i - m < j < n
        ensures Power(n, A, m)(i, j) == 0.0
      {
        SumZero(0, n, k => A(i, k) * Power(n, A, m - 1)(k, j));
      }
    }
  }

  /** Nilpotency: n or more terms of the Neumann series already solve the system. */
  lemma NeumannSolves(n: int, A: Mat, b: Mat, m: nat)
    requires StrictLower(n, A) && n <= m
    ensures Solves(n, A, b, Neumann(n, A, b, m))
  {
    NeumannAdd(n, A, b, m, 1);
    PowerBand(n, A, m);
    var N := Neumann(n, A, b, m);
    forall i, j | 0 <= i < n
      ensures SolvesAt(n, A, b, N, i, j)
    {
      ZeroRow(n, Power(n, A, m), Neumann(n, A, b, 1), i, j);
      assert SameEntry(Neumann(n, A, b, m + 1), Add(N, Mul(n, Power(n, A, m), Neumann(n, A, b, 1))), i, j);
      assert Neumann(n, A, b, m + 1)(i, j) == b(i, j) + Mul(n, A, N)(i, j);
    }
  }

  lemma ZeroRow(n: int, P: Mat, B: Mat, i: int, j: int)
    requires forall k :: 0 <= k < n ==> P(i, k) == 0.0
    ensures Mul(n, P, B)(i, j) == 0.0
  {
    SumZero(0, n, k => P(i, k) * B(k, j));
  }

  /** The system has at most one solution. */
  lemma {:induction false} SolutionUnique(n: int, A: Mat, b: Mat, x: Mat, y: Mat)
    requires StrictLower(n, A) && Solves(n, A, b, x) && Solves(n, A, b, y)
    ensures SameRows(n, x, y)
  {
    forall i, j | 0 <= i < n
      ensures SameEntry(x, y, i, j)
    {
      ColumnUnique(n, A, b, x, y, i, j);
    }
  }

  lemma {:induction false} ColumnUnique(n: int, A: Mat, b: Mat, x: Mat, y: Mat, i: int, j: int)
    requires StrictLower(n, A) && 0 <= i < n
    requires forall r :: 0 <= r < n ==> SolvesAt(n, A, b, x, r, j)
    requires forall r :: 0 <= r < n ==> SolvesAt(n, A, b, y, r, j)
    ensures x(i, j) == y(i, j)
    decreases i
  {
    forall k | 0 <= k < n
      ensures A(i, k) * x(k, j) == A(i, k) * y(k, j)
    {
      if k < i { ColumnUnique(n, A, b, x, y, k, j); }
    }
    assert SolvesAt(n, A, b, x, i, j) && SolvesAt(n, A, b, y, i, j);
    SumCong(0, n, k => A(i, k) * x(k, j), k => A(i, k) * y(k, j));
  }

  // ----- the solver -----

  /** Python's int.bit_length on a non-negative integer. */
  function BitLength(n: nat): nat {
    if n == 0 then 0 else 1 + BitLength(n / 2)
  }

  /** bit_length is the least number of doublings that reaches past n. */
  lemma {:induction false} BitLengthBounds(n: nat)
    ensures n < Pow2(BitLength(n))
    ensures n > 0 ==> Pow2(BitLength(n) - 1) <= n
  {
    if n > 0 { BitLengthBounds(n / 2); }
  }

  function BatchMul(n: int, A: Batch, B: Batch): Batch {
    (u, h) => Mul(n, A(u, h), B(u, h))
  }

  function BatchAdd(A: Batch, B: Batch): Batch {
    (u, h) => Add(A(u, h), B(u, h))
  }

  lemma DoublingStep(n: nat, A: Mat, b: Mat, w: nat, x: Mat, P: Mat)
    requires SameRows(n, x, Neumann(n, A, b, w)) && SameSquare(n, P, Power(n, A, w))
    ensures SameRows(n, Add(x, Mul(n, P, x)), Neumann(n, A, b, 2 * w))
    ensures SameSquare(n, Mul(n, P, P), Power(n, A, 2 * w))
  {
    NeumannAdd(n, A, b, w, w);
    PowerAdd(n, A, w, w);
    DoublingRows(n, x, P, Neumann(n, A, b, w), Power(n, A, w), Neumann(n, A, b, w + w), Power(n, A, w + w));
    assert w + w == 2 * w;
  }

  lemma DoublingRows(n: nat, x: Mat, P: Mat, X: Mat, Q: Mat, X2: Mat, Q2: Mat)
    requires SameRows(n, x, X) && SameSquare(n, P, Q)
    requires SameRows(n, X2, Add(X, Mul(n, Q, X))) && SameRows(n, Mul(n, Q, Q), Q2)
    ensures SameRows(n, Add(x, Mul(n, P, x)), X2) && SameSquare(n, Mul(n, P, P), Q2)
  {
    forall i, j | 0 <= i < n ensures SameEntry(Add(x, Mul(n, P, x)), X2, i, j) {
      assert SameEntry(x, X, i, j) && SameEntry(X2, Add(X, Mul(n, Q, X)), i, j);
      MulSquares(n, P, Q, x, X, i, j);
    }
    forall i, j | 0 <= i < n && 0 <= j < n ensures SameEntry(Mul(n, P, P), Q2, i, j) {
      assert SameEntry(Mul(n, Q, Q), Q2, i, j);
      MulSquares(n, P, Q, P, Q, i, j);
    }
  }

  lemma FirstTerm(n: nat, A: Mat, b: Mat)
    ensures SameRows(n, b, Neumann(n, A, b, 1)) && SameSquare(n, A, Power(n, A, 1))
  {
    forall i, j | 0 <= i < n
      ensures SameEntry(b, Neumann(n, A, b, 1), i, j)
    {
      forall k ensures A(i, k) * Neumann(n, A, b, 0)(k, j) == 0.0 {
        assert Neumann(n, A, b, 0)(k, j) == 0.0;
      }
      SumZero(0, n, k => A(i, k) * Neumann(n, A, b, 0)(k, j));
    }
    forall i, j | 0 <= i < n && 0 <= j < n
      ensures SameEntry(A, Power(n, A, 1), i, j)
    {
      forall k ensures A(i, k) * Identity()(k, j) == if k == j then A(i, j) else 0.0 {}
      SumSingle(0, n, j, k => A(i, k) * Identity()(k, j));
      assert Power(n, A, 0) == Identity();
    }
  }

  /** The solver's inner `doubling`: bit_length(n - 1) doublings reach the whole Neumann series. */
  method Doubling(A: Batch, rhs: Batch, n: nat) returns (x: Batch)
    requires forall u, h :: StrictLower(n, A(u, h))
    ensures forall u, h :: Solves(n, A(u, h), rhs(u, h), x(u, h))
    ensures forall u, h :: n > 1 ==> SameRows(n, x(u, h), Neumann(n, A(u, h), rhs(u, h), Pow2(BitLength(n - 1))))
  {
    x := rhs;
    if n <= 1 {
      forall u, h ensures Solves(n, A(u, h), rhs(u, h), x(u, h)) { SingleRow(n, A(u, h), rhs(u, h)); }
      return;
    }
    var P := A;
    var steps := BitLength(n - 1);
    BitLengthBounds(n - 1);
    forall u, h { FirstTerm(n, A(u, h), rhs(u, h)); }
    for s := 0 to steps
      invariant forall u, h :: SameRows(n, x(u, h), Neumann(n, A(u, h), rhs(u, h), Pow2(s)))
      invariant s < steps ==> forall u, h :: SameSquare(n, P(u, h), Power(n, A(u, h), Pow2(s)))
    {
      forall u, h { DoublingStep(n, A(u, h), rhs(u, h), Pow2(s), x(u, h), P(u, h)); }
      x := BatchAdd(x, BatchMul(n, P, x));
      if s != steps - 1 {
        P := BatchMul(n, P, P);
      }
    }
    forall u, h ensures Solves(n, A(u, h), rhs(u, h), x(u, h)) {
      NeumannSolves(n, A(u, h), rhs(u, h), Pow2(steps));
      SolvesCong(n, A(u, h), rhs(u, h), Neumann(n, A(u, h), rhs(u, h), Pow2(steps)), x(u, h));
    }
  }

  lemma SingleRow(n: nat, A: Mat, b: Mat)
    requires n <= 1 && StrictLower(n, A)
    ensures Solves(n, A, b, b)
  {
    forall i, j | 0 <= i < n
      ensures b(i, j) == b(i, j) + Mul(n, A, b)(i, j)
    {
      SumZero(0, n, k => A(i, k) * b(k, j));
    }
  }

  lemma SolvesCong(n: nat, A: Mat, b: Mat, x: Mat, y: Mat)
    requires Solves(n, A, b, x) && SameRows(n, y, x)
    ensures Solves(n, A, b, y)
  {
    forall i, j | 0 <= i < n
      ensures SolvesAt(n, A, b, y, i, j)
    {
      assert SolvesAt(n, A, b, x, i, j) && SameEntry(y, x, i, j);
      MulRows(n, A, y, x, i, j);
    }
  }

  // ----- blocks of rows -----

  datatype Block = Block(rows: nat, at: Batch)

  function Height(blocks: seq<Block>): nat {
    if blocks == [] then 0 else Height(blocks[..|blocks| - 1]) + blocks[|blocks| - 1].rows
  }

  /** mx.concatenate(blocks, axis=-2). */
  function Concat(blocks: seq<Block>): Batch {
    if blocks == [] then (u, h) => (i, j) => 0.0
    else
      var front, last := blocks[..|blocks| - 1], blocks[|blocks| - 1];
      Stack(Height(front), Concat(front), last.at)
  }

  function Stack(rows: nat, top: Batch, bottom: Batch): Batch {
    (u, h) => (i, j) => if i < rows then top(u, h)(i, j) else bottom(u, h)(i - rows, j)
  }

  /** A[..., r0:, c0:] */
  function Slice(A: Batch, r0: int, c0: int): Batch {
    (u, h) => (i, j) => A(u, h)(r0 + i, c0 + j)
  }

  ghost predicate IsRhs(lo: nat, A: Mat, b: Mat, X: Mat, rhs: Mat) {
    forall r, j :: rhs(r, j) == b(lo + r, j) + Mul(lo, A, X)(lo + r, j)
  }

  ghost predicate IsSlice(lo: nat, A: Mat, D: Mat) {
    forall r, j :: D(r, j) == A(lo + r, lo + j)
  }

  ghost predicate IsStack(lo: nat, X: Mat, y: Mat, X': Mat) {
    forall i, j :: X'(i, j) == if i < lo then X(i, j) else y(i - lo, j)
  }

  /** One more diagonal block extends a solution of the first lo rows to lo + h rows. */
  lemma ExtendSolution(n: nat, lo: nat, h: nat, A: Mat, b: Mat, X: Mat, D: Mat, y: Mat, rhs: Mat, X': Mat)
    requires StrictLower(n, A) && lo + h <= n
    requires Solves(lo, A, b, X)
    requires IsRhs(lo, A, b, X, rhs) && IsSlice(lo, A, D) && IsStack(lo, X, y, X')
    requires Solves(h, D, rhs, y)
    ensures Solves(lo + h, A, b, X')
  {
    var n' := lo + h;
    forall i, j | 0 <= i < n'
      ensures SolvesAt(n', A, b, X', i, j)
    {
      if i < lo {
        OldRow(n, lo, h, A, b, X, X', i, j);
      } else {
        NewRow(lo, h, A, b, X, D, y, rhs, X', i - lo, j);
      }
    }
  }

  lemma NewRow(lo: nat, h: nat, A: Mat, b: Mat, X: Mat, D: Mat, y: Mat, rhs: Mat, X': Mat, r: int, j: int)
    requires 0 <= r < h
    requires forall c :: D(r, c) == A(lo + r, lo + c)
    requires forall k :: X'(k, j) == if k < lo then X(k, j) else y(k - lo, j)
    requires rhs(r, j) == b(lo + r, j) + Mul(lo, A, X)(lo + r, j)
    requires SolvesAt(h, D, rhs, y, r, j)
    ensures SolvesAt(lo + h, A, b, X', lo + r, j)
  {
    SumSplit(0, lo, lo + h, k => A(lo + r, k) * X'(k, j));
    MulCong(lo, A, A, X', X, lo + r, j);
    BlockRow(lo, h, A, D, X', y, r, j);
  }

  lemma OldRow(n: nat, lo: nat, h: nat, A: Mat, b: Mat, X: Mat, X': Mat, i: int, j: int)
    requires StrictLower(n, A) && lo + h <= n && 0 <= i < lo
    requires forall k :: 0 <= k < lo ==> X'(k, j) == X(k, j)
    requires SolvesAt(lo, A, b, X, i, j)
    ensures SolvesAt(lo + h, A, b, X', i, j)
  {
    SumSplit(0, lo, lo + h, k => A(i, k) * X'(k, j));
    MulCong(lo, A, A, X', X, i, j);
    SumZero(lo, lo + h, k => A(i, k) * X'(k, j));
  }

  lemma BlockRow(lo: nat, h: nat, A: Mat, D: Mat, X': Mat, y: Mat, r: int, j: int)
    requires forall c :: D(r, c) == A(lo + r, lo + c)
    requires forall k :: lo <= k ==> X'(k, j) == y(k - lo, j)
    ensures Sum(lo, lo + h, k => A(lo + r, k) * X'(k, j)) == Mul(h, D, y)(r, j)
  {
    SumShift(0, h, lo, k => D(r, k) * y(k, j), k => A(lo + r, k) * X'(k, j));
  }

  /** Block boundaries: nb = ceil(C / sb) blocks, all but the last of height sb. */
  lemma BlockBounds(C: nat, sb: nat, nb: nat, i: nat)
    requires sb >= 1 && nb == (C + sb - 1) / sb && i < nb
    ensures i * sb < C
    ensures i + 1 == nb ==> (i + 1) * sb >= C
  {
    var rem := (C + sb - 1) % sb;
    assert C + sb - 1 == nb * sb + rem;
    MulMono(i + 1, nb, sb);
  }

  lemma MulMono(x: nat, y: nat, s: nat)
    requires x <= y
    ensures x * s <= y * s
    ensures (x + 1) * s == x * s + s
  {
    if x < y { assert (y - x) * s >= 0; }
  }

  function TopRows(C: nat, sb: nat, i: nat): nat {
    if i * sb < C then i * sb else C
  }

  /** A[..., lo:hi, :lo] @ prev, row r of the block being row lo + r of A. */
  lemma PrevRow(lo: nat, A: Mat, S: Mat, X: Mat, prev: Mat, r: int, j: int)
    requires forall c :: S(r, c) == A(lo + r, c)
    requires forall k :: 0 <= k < lo ==> prev(k, j) == X(k, j)
    ensures Mul(lo, S, prev)(r, j) == Mul(lo, A, X)(lo + r, j)
  {
    SumCong(0, lo, k => S(r, k) * prev(k, j), k => A(lo + r, k) * X(k, j));
  }

  lemma SolvedRhs(lo: nat, A: Mat, b: Mat, S: Mat, b0: Mat, X: Mat, prev: Mat)
    requires forall r, c :: S(r, c) == A(lo + r, c)
    requires forall r, j :: b0(r, j) == b(lo + r, j)
    requires SameRows(lo, prev, X)
    ensures IsRhs(lo, A, b, X, Add(b0, Mul(lo, S, prev)))
  {
    forall r, j ensures Add(b0, Mul(lo, S, prev))(r, j) == b(lo + r, j) + Mul(lo, A, X)(lo + r, j) {
      forall k | 0 <= k < lo ensures prev(k, j) == X(k, j) { assert SameEntry(prev, X, k, j); }
      PrevRow(lo, A, S, X, prev, r, j);
    }
  }

  lemma FirstRhs(A: Mat, b: Mat, X: Mat, rhs: Mat)
    requires forall r, j :: rhs(r, j) == b(r, j)
    ensures IsRhs(0, A, b, X, rhs)
  {
  }

  /** Rows lo.. of b plus the contribution of the blocks already solved. */
  method BlockRhs(A: Batch, b: Batch, blocks: seq<Block>, lo: nat) returns (rhs: Batch)
    requires lo == Height(blocks)
    ensures forall u, h :: IsRhs(lo, A(u, h), b(u, h), Concat(blocks)(u, h), rhs(u, h))
  {
    var S, b0 := Slice(A, lo, 0), Slice(b, lo, 0);
    if |blocks| > 0 {
      var prev: Batch := if |blocks| == 1 then blocks[0].at else Concat(blocks);
      rhs := BatchAdd(b0, BatchMul(lo, S, prev));
      forall u, h ensures IsRhs(lo, A(u, h), b(u, h), Concat(blocks)(u, h), rhs(u, h)) {
        SolvedRhs(lo, A(u, h), b(u, h), S(u, h), b0(u, h), Concat(blocks)(u, h), prev(u, h));
      }
    } else {
      rhs := b0;
      forall u, h ensures IsRhs(lo, A(u, h), b(u, h), Concat(blocks)(u, h), rhs(u, h)) {
        FirstRhs(A(u, h), b(u, h), Concat(blocks)(u, h), rhs(u, h));
      }
    }
  }

  lemma ConcatAppend(blocks: seq<Block>, rows: nat, y: Batch)
    ensures Height(blocks + [Block(rows, y)]) == Height(blocks) + rows
    ensures Concat(blocks + [Block(rows, y)]) == Stack(Height(blocks), Concat(blocks), y)
  {
    assert (blocks + [Block(rows, y)])[..|blocks|] == blocks;
  }

  /** The diagonal block of rows lo..hi, solved against what the earlier blocks contribute. */
  method NextBlock(A: Batch, b: Batch, C: nat, blocks: seq<Block>, lo: nat, hi: nat) returns (y: Batch)
    requires lo == Height(blocks) && lo <= hi <= C
    requires forall u, h :: StrictLower(C, A(u, h))
    requires forall u, h :: Solves(lo, A(u, h), b(u, h), Concat(blocks)(u, h))
    ensures forall u, h :: Solves(hi, A(u, h), b(u, h), Stack(lo, Concat(blocks), y)(u, h))
  {
    var rhs := BlockRhs(A, b, blocks, lo);
    var D := Slice(A, lo, lo);
    forall u, h ensures StrictLower(hi - lo, D(u, h)) { SubStrict(C, lo, hi - lo, A(u, h), D(u, h)); }
    y := Doubling(D, rhs, hi - lo);
    ExtendAll(A, b, C, lo, hi, Concat(blocks), D, y, rhs);
  }

  lemma ExtendAll(A: Batch, b: Batch, C: nat, lo: nat, hi: nat, X: Batch, D: Batch, y: Batch, rhs: Batch)
    requires lo <= hi <= C && D == Slice(A, lo, lo)
    requires forall u, h :: StrictLower(C, A(u, h)) && Solves(lo, A(u, h), b(u, h), X(u, h))
    requires forall u, h :: IsRhs(lo, A(u, h), b(u, h), X(u, h), rhs(u, h)) && Solves(hi - lo, D(u, h), rhs(u, h),
                                                                                      y(u, h))
    ensures forall u, h :: Solves(hi, A(u, h), b(u, h), Stack(lo, X, y)(u, h))
  {
    forall u, h
      ensures Solves(hi, A(u, h), b(u, h), Stack(lo, X, y)(u, h))
    {
      ExtendSolution(C, lo, hi - lo, A(u, h), b(u, h), X(u, h), D(u, h), y(u, h), rhs(u, h), Stack(lo, X, y)(u, h));
    }
  }

  lemma SubStrict(n: nat, lo: nat, h: nat, A: Mat, D: Mat)
    requires StrictLower(n, A) && lo + h <= n
    requires forall r, j :: D(r, j) == A(lo + r, lo + j)
    ensures StrictLower(h, D)
  {
  }

  /**
   _solve_strict_lower: for every sub-block size the result is the solution of
   (I - A) x = b, which is unique (SolutionUnique).
   */
  method SolveStrictLower(A: Batch, b: Batch, C: nat, sb: nat) returns (x: Batch)
    requires sb >= 1
    requires forall u, h :: StrictLower(C, A(u, h))
    ensures forall u, h :: Solves(C, A(u, h), b(u, h), x(u, h))
  {
    if sb >= C {
      x := Doubling(A, b, C);
      return;
    }
    var nb := (C + sb - 1) / sb;
    var blocks: seq<Block> := [];
    for i := 0 to nb
      invariant |blocks| == i
      invariant Height(blocks) == TopRows(C, sb, i)
      invariant forall u, h :: Solves(Height(blocks), A(u, h), b(u, h), Concat(blocks)(u, h))
    {
      BlockBounds(C, sb, nb, i);
      MulMono(i, i + 1, sb);
      var lo, hi := i * sb, TopRows(C, sb, i + 1);
      var y := NextBlock(A, b, C, blocks, lo, hi);
      ConcatAppend(blocks, hi - lo, y);
      blocks := blocks + [Block(hi - lo, y)];
    }
    x := Concat(blocks);
    if nb > 0 { BlockBounds(C, sb, nb, nb - 1); }
    assert TopRows(C, sb, nb) == C;
  }
}
