/**
 One chunk of recurrent/ops.py as a triangular solve (`_gated_delta_chunk`), for one value
 head, and the proof that it is the sequential recurrence.
 */
module GatedDeltaChunk {
  import opened RealSums
  import opened ExpLog
  import opened TriangularSolve
  import opened GatedDelta

  // ----- the chunk's arrays, one value head at a time -----

  const SUB_BLOCK: nat := 16
  const CHUNK_SIZE: nat := 64
  const GATE_FLOOR: real := 0.000000000001

  /** mx.maximum(g, 1e-12) */
  function Clamp(g: Vec): Vec {
    t => if g(t) < GATE_FLOOR then GATE_FLOOR else g(t)
  }

  function LogGate(log: real -> real, g: Vec): Vec {
    t => log(Clamp(g)(t))
  }

  /** mx.cumsum(mx.log(...)) */
  function CumLog(log: real -> real, g: Vec): Vec {
    i => Sum(0, i + 1, LogGate(log, g))
  }

  function Decay(exp: real -> real, log: real -> real, g: Vec): Vec {
    i => exp(CumLog(log, g)(i))
  }

  function DecayToEnd(exp: real -> real, log: real -> real, g: Vec, C: int): Vec {
    j => exp(CumLog(log, g)(C - 1) - CumLog(log, g)(j))
  }

  /** mx.tril(ones, k) */
  function Tril(i: int, j: int, k: int): real {
    if j <= i + k then 1.0 else 0.0
  }

  function DecayMask(exp: real -> real, log: real -> real, g: Vec): Mat {
    (i, j) => exp((CumLog(log, g)(i) - CumLog(log, g)(j)) * Tril(i, j, 0)) * Tril(i, j, 0)
  }

  /** q @ k^T */
  function Gram(dk: nat, q: Mat, k: Mat): Mat {
    (i, j) => Overlap(dk, a => q(i, a), k, j)
  }

  function ChunkMatrix(kkT: Mat, beta: Vec, mask: Mat): Mat {
    (i, j) => -(beta(i) * kkT(i, j)) * mask(i, j) * Tril(i, j, -1)
  }

  /** concatenate([v_beta, k_beta * decay], axis=-1) */
  function ChunkRhs(dv: nat, k: Mat, v: Mat, beta: Vec, decay: Vec): Mat {
    (i, c) => if c < dv then v(i, c) * beta(i) else k(i, c - dv) * beta(i) * decay(i)
  }

  function Columns(A: Mat, from: int): Mat {
    (i, a) => A(i, from + a)
  }

  /** v_corrected - k_cumdecay @ state */
  function NewValues(dk: nat, dv: nat, sol: Mat, S: Mat): Mat {
    (i, c) => sol(i, c) - Mul(dk, Columns(sol, dv), S)(i, c)
  }

  function Scaled(A: Mat, s: Vec): Mat {
    (i, a) => A(i, a) * s(i)
  }

  function Hadamard(A: Mat, B: Mat): Mat {
    (i, j) => A(i, j) * B(i, j)
  }

  function ChunkOutput(dk: nat, C: nat, q: Mat, decay: Vec, S: Mat, qkT: Mat, mask: Mat, vNew: Mat): Mat {
    Add(Mul(dk, Scaled(q, decay), S), Mul(C, Hadamard(qkT, mask), vNew))
  }

  function ChunkState(C: nat, k: Mat, decayAll: real, decayToEnd: Vec, S: Mat, vNew: Mat): Mat {
    (a, c) => S(a, c) * decayAll + Mul(C, Transposed(Scaled(k, decayToEnd)), vNew)(a, c)
  }

  // ----- decays are products of gates -----

  lemma ClampPositive(g: Vec, t: int)
    ensures Clamp(g)(t) > 0.0
  {
  }

  lemma DecayIsProduct(exp: real -> real, log: real -> real, g: Vec, i: int, j: int)
    requires IsExpLog(exp, log) && -1 <= j <= i
    ensures exp(CumLog(log, g)(i) - CumLog(log, g)(j)) == Product(j + 1, i + 1, Clamp(g))
    ensures exp(CumLog(log, g)(i)) == Product(0, i + 1, Clamp(g))
  {
    SumSplit(0, j + 1, i + 1, LogGate(log, g));
    StretchIsProduct(exp, log, g, j + 1, i + 1);
    StretchIsProduct(exp, log, g, 0, i + 1);
  }

  lemma StretchIsProduct(exp: real -> real, log: real -> real, g: Vec, a: int, b: int)
    requires IsExpLog(exp, log)
    ensures exp(Sum(a, b, LogGate(log, g))) == Product(a, b, Clamp(g))
  {
    var G := Clamp(g);
    forall t ensures G(t) > 0.0 { ClampPositive(g, t); }
    ExpSumLog(exp, log, a, b, G);
    SumCong(a, b, LogGate(log, g), t => log(G(t)));
  }

  lemma MaskIsProduct(exp: real -> real, log: real -> real, g: Vec, i: int, j: int)
    requires IsExpLog(exp, log) && 0 <= i && 0 <= j
    ensures DecayMask(exp, log, g)(i, j) == if j <= i then Product(j + 1, i + 1, Clamp(g)) else 0.0
  {
    var d := CumLog(log, g)(i) - CumLog(log, g)(j);
    if j <= i {
      DecayIsProduct(exp, log, g, i, j);
      assert d * 1.0 == d;
      assert DecayMask(exp, log, g)(i, j) == exp(d * 1.0) * 1.0;
    } else {
      assert DecayMask(exp, log, g)(i, j) == exp(d * 0.0) * 0.0;
    }
  }

  // ----- the corrected values solve a triangular system of their own -----

  lemma MulAddLeft(n: int, A: Mat, B: Mat, C: Mat, i: int, j: int)
    ensures Mul(n, Add(A, B), C)(i, j) == Mul(n, A, C)(i, j) + Mul(n, B, C)(i, j)
  {
    forall k ensures Add(A, B)(i, k) * C(k, j) == A(i, k) * C(k, j) + B(i, k) * C(k, j) {}
    SumAdd(0, n, k => A(i, k) * C(k, j), k => B(i, k) * C(k, j), k => Add(A, B)(i, k) * C(k, j));
  }

  lemma MulSub(n: int, A: Mat, B: Mat, C: Mat, D: Mat, i: int, j: int)
    requires forall k :: 0 <= k < n ==> D(k, j) == B(k, j) - C(k, j)
    ensures Mul(n, A, D)(i, j) == Mul(n, A, B)(i, j) - Mul(n, A, C)(i, j)
  {
    forall k | 0 <= k < n
      ensures A(i, k) * B(k, j) == A(i, k) * D(k, j) + A(i, k) * C(k, j)
    {
    }
    SumAdd(0, n, k => A(i, k) * D(k, j), k => A(i, k) * C(k, j), k => A(i, k) * B(k, j));
  }

  /** Multiplying from the left commutes with dropping the first columns. */
  lemma MulColumns(n: int, A: Mat, x: Mat, from: int, i: int, a: int)
    ensures Mul(n, A, Columns(x, from))(i, a) == Mul(n, A, x)(i, from + a)
  {
    forall k ensures A(i, k) * Columns(x, from)(k, a) == A(i, k) * x(k, from + a) {}
    SumCong(0, n, k => A(i, k) * Columns(x, from)(k, a), k => A(i, k) * x(k, from + a));
  }

  /** The k part of the solution, read along the state. */
  lemma ReadoutSolves(C: nat, dk: nat, dv: nat, A: Mat, rhs: Mat, sol: Mat, S: Mat, i: int, c: int, W: Mat)
    requires Solves(C, A, rhs, sol) && 0 <= i < C
    requires W == Mul(dk, Columns(sol, dv), S)
    ensures SolvesAt(C, A, Mul(dk, Columns(rhs, dv), S), W, i, c)
  {
    var kRhs, kSol := Columns(rhs, dv), Columns(sol, dv);
    var AK := Mul(C, A, kSol);
    forall a
      ensures kSol(i, a) == Add(kRhs, AK)(i, a)
    {
      assert SolvesAt(C, A, rhs, sol, i, dv + a);
      MulColumns(C, A, sol, dv, i, a);
    }
    MulCong(dk, kSol, Add(kRhs, AK), S, S, i, c);
    MulAddLeft(dk, kRhs, AK, S, i, c);
    MulAssoc(C, dk, A, kSol, S, i, c);
  }

  lemma NewValuesSolve(C: nat, dk: nat, dv: nat, A: Mat, rhs: Mat, sol: Mat, S: Mat, i: int, c: int)
    requires Solves(C, A, rhs, sol) && 0 <= i < C
    ensures SolvesAt(C, A, NewValues(dk, dv, rhs, S), NewValues(dk, dv, sol, S), i, c)
  {
    var W := Mul(dk, Columns(sol, dv), S);
    ReadoutSolves(C, dk, dv, A, rhs, sol, S, i, c, W);
    assert SolvesAt(C, A, rhs, sol, i, c);
    MulSub(C, A, sol, W, NewValues(dk, dv, sol, S), i, c);
  }

  // ----- the recurrence's deltas solve the same system -----

  /** Everything the chunk reads for one value head, gates as the code clamps them. */
  function ChunkHead(q: Mat, k: Mat, v: Mat, g: Vec, beta: Vec): Head {
    Head(q, k, v, Clamp(g), beta, t => true)
  }

  function DeltaMatrix(dk: nat, x: Head, S: Mat): Mat {
    (i, c) => DeltaAt(dk, x, S, c)(i)
  }

  ghost predicate IsDelta(delta: real, beta: real, v: real, g: real, read: real) {
    delta == beta * (v - g * read)
  }

  ghost predicate IsClosedDelta(delta: real, beta: real, v: real, g: real, pg: real, o: real, t: real) {
    delta == v * beta - beta * pg * o + (-(beta * g)) * t
  }

  lemma DeltaArith(delta: real, beta: real, v: real, G: real, P: real, PG: real, read: real, o: real, T: real)
    requires IsDelta(delta, beta, v, G, read) && Affine(read, P, o, T) && IsProduct(PG, P, G)
    ensures IsClosedDelta(delta, beta, v, G, PG, o, T)
  {
    assert G * read == PG * o + G * T;
    assert beta * (G * read) == beta * PG * o + (beta * G) * T;
  }

  lemma DeltaRead(dk: nat, x: Head, i: nat, c: int, R: Mat, u: Vec)
    requires forall a :: u(a) == x.k(i, a)
    ensures IsDelta(Delta(dk, x, i, R)(c), x.beta(i), x.v(i, c), x.g(i), Sum(0, dk, a => u(a) * R(a, c)))
  {
    var g := x.g(i);
    forall a ensures ScaledBy(g * R(a, c) * x.k(i, a), g, u(a) * R(a, c)) {}
    SumScale(0, dk, g, a => u(a) * R(a, c), a => g * R(a, c) * x.k(i, a));
  }

  lemma OverlapCong(dk: nat, u: Vec, u': Vec, k: Mat, j: int)
    requires forall a :: u(a) == u'(a)
    ensures Overlap(dk, u, k, j) == Overlap(dk, u', k, j)
  {
    SumCong(0, dk, a => u(a) * k(j, a), a => u'(a) * k(j, a));
  }

  /** Row i of the system's matrix: Gram entries times the decay, strictly below the diagonal. */
  lemma MatrixAt(dk: nat, k: Mat, beta: Vec, G: Vec, mask: Mat, A: Mat, w: Vec, i: nat, u: Vec, j: nat)
    requires forall a :: u(a) == k(i, a)
    requires j < i ==> mask(i, j) == Product(j + 1, i + 1, G)
    requires A == ChunkMatrix(Gram(dk, k, k), beta, mask)
    ensures PrefixAt(i, -(beta(i) * G(i)), GramTrace(dk, k, G, w, i, u)(j), j, A(i, j) * w(j))
  {
    if j < i {
      assert IsMatrixEntry(A(i, j), beta(i), Gram(dk, k, k)(i, j), mask(i, j));
      MatrixBelow(dk, k, beta(i), G, mask(i, j), A(i, j), w, i, u, j);
    } else {
      assert A(i, j) == -(beta(i) * Gram(dk, k, k)(i, j)) * mask(i, j) * 0.0;
    }
  }

  ghost predicate IsMatrixEntry(entry: real, beta: real, gram: real, mask: real) {
    entry == -(beta * gram) * mask * 1.0
  }

  lemma MatrixBelow(dk: nat, k: Mat, beta: real, G: Vec, mask: real, entry: real, w: Vec, i: nat, u: Vec, j: nat)
    requires j < i && mask == Product(j + 1, i + 1, G)
    requires forall a :: u(a) == k(i, a)
    requires IsMatrixEntry(entry, beta, Gram(dk, k, k)(i, j), mask)
    ensures ScaledBy(entry * w(j), -(beta * G(i)), GramTrace(dk, k, G, w, i, u)(j))
  {
    var o, p := Overlap(dk, u, k, j), Product(j + 1, i, G);
    OverlapCong(dk, a => k(i, a), u, k, j);
    assert IsProduct(mask, p, G(i));
    MatrixEntry(beta, o, p, G(i), w(j), mask, entry, GramTrace(dk, k, G, w, i, u)(j));
  }

  ghost predicate IsWeight(m: real, beta: real, g: real) {
    m == -(beta * g)
  }

  lemma MatrixRow(C: nat, dk: nat, k: Mat, beta: Vec, G: Vec, mask: Mat, A: Mat, w: Vec, i: nat, u: Vec, m: real)
    requires i < C && IsWeight(m, beta(i), G(i))
    requires forall a :: u(a) == k(i, a)
    requires forall j :: 0 <= j < i ==> mask(i, j) == Product(j + 1, i + 1, G)
    requires A == ChunkMatrix(Gram(dk, k, k), beta, mask)
    ensures ScaledBy(Sum(0, C, j => A(i, j) * w(j)), m, Sum(0, i, GramTrace(dk, k, G, w, i, u)))
  {
    var t, f: Vec := GramTrace(dk, k, G, w, i, u), j => A(i, j) * w(j);
    forall j | 0 <= j < C
      ensures PrefixAt(i, m, t(j), j, f(j))
    {
      MatrixAt(dk, k, beta, G, mask, A, w, i, u, j);
    }
    SumPrefix(i, C, m, t, f);
  }

  lemma MatrixEntry(b: real, o: real, p: real, g: real, w: real, m: real, entry: real, trace: real)
    requires IsProduct(m, p, g) && IsMatrixEntry(entry, b, o, m) && trace == p * (w * o)
    ensures ScaledBy(entry * w, -(b * g), trace)
  {
    assert entry == -((b * o) * (p * g));
    assert (b * o) * (p * g) * w == (b * g) * (p * (w * o));
  }

  ghost predicate IsSharedRhs(b: real, v: real, beta: real, d: real, o: real) {
    b == v * beta - beta * d * o
  }

  /** The right-hand side both systems share: v * beta minus the decayed keys read along the state. */
  lemma SharedRhs(dk: nat, dv: nat, k: Mat, v: Mat, beta: Vec, decay: Vec, S: Mat, i: int, c: int, u: Vec, rhs: Mat,
                  d: real)
    requires d == decay(i) && forall a :: u(a) == k(i, a)
    requires rhs == ChunkRhs(dv, k, v, beta, decay) && 0 <= c < dv
    ensures IsSharedRhs(NewValues(dk, dv, rhs, S)(i, c), v(i, c), beta(i), d, Sum(0, dk, a => u(a) * S(a, c)))
  {
    var m, K := beta(i) * d, Columns(rhs, dv);
    forall a | 0 <= a < dk
      ensures ScaledBy(K(i, a) * S(a, c), m, u(a) * S(a, c))
    {
      assert K(i, a) == u(a) * beta(i) * d;
      RhsTerm(u(a), beta(i), d, S(a, c));
    }
    SumScale(0, dk, m, a => u(a) * S(a, c), a => K(i, a) * S(a, c));
    ClosedRhs(rhs(i, c), v(i, c), beta(i), d, m, Mul(dk, K, S)(i, c), Sum(0, dk, a => u(a) * S(a, c)));
  }

  lemma ClosedRhs(r: real, v: real, beta: real, d: real, m: real, row: real, o: real)
    requires r == v * beta && m == beta * d && ScaledBy(row, m, o)
    ensures IsSharedRhs(r - row, v, beta, d, o)
  {
  }

  lemma RhsTerm(k: real, b: real, d: real, s: real)
    ensures k * b * d * s == b * d * (k * s)
  {
  }

  /** A delta in closed form: its own input, the decayed initial state, and the earlier deltas. */
  lemma DeltaClosed(dk: nat, x: Head, S: Mat, i: nat, c: int, u: Vec, w: Vec)
    requires forall t :: x.live(t)
    requires forall a :: u(a) == x.k(i, a)
    requires w == DeltaAt(dk, x, S, c)
    ensures IsClosedDelta(w(i), x.beta(i), x.v(i, c), x.g(i), Product(0, i + 1, x.g),
                          Sum(0, dk, a => u(a) * S(a, c)), Sum(0, i, GramTrace(dk, x.k, x.g, w, i, u)))
  {
    var R := Run(dk, x, S, i);
    var read, o := Sum(0, dk, a => u(a) * R(a, c)), Sum(0, dk, a => u(a) * S(a, c));
    var t := Sum(0, i, GramTrace(dk, x.k, x.g, w, i, u));
    DeltaRead(dk, x, i, c, R, u);
    ReadOut(dk, x, S, i, c, u, R, w);
    DeltaArith(w(i), x.beta(i), x.v(i, c), x.g(i), Product(0, i, x.g), Product(0, i + 1, x.g), read, o, t);
  }

  lemma DeltaSolves(C: nat, dk: nat, dv: nat, x: Head, S: Mat, mask: Mat, decay: Vec, A: Mat, rhs: Mat, i: nat, c: int,
                    D: Mat, b: Mat)
    requires i < C && 0 <= c < dv
    requires forall t :: x.live(t)
    requires forall j :: 0 <= j < i ==> mask(i, j) == Product(j + 1, i + 1, x.g)
    requires decay(i) == Product(0, i + 1, x.g)
    requires A == ChunkMatrix(Gram(dk, x.k, x.k), x.beta, mask)
    requires rhs == ChunkRhs(dv, x.k, x.v, x.beta, decay)
    requires D == DeltaMatrix(dk, x, S) && b == NewValues(dk, dv, rhs, S)
    ensures SolvesAt(C, A, b, D, i, c)
  {
    var u: Vec := a => x.k(i, a);
    var w, m := DeltaAt(dk, x, S, c), -(x.beta(i) * x.g(i));
    assert IsWeight(m, x.beta(i), x.g(i));
    DeltaClosed(dk, x, S, i, c, u, w);
    SharedRhs(dk, dv, x.k, x.v, x.beta, decay, S, i, c, u, rhs, Product(0, i + 1, x.g));
    MatrixRow(C, dk, x.k, x.beta, x.g, mask, A, w, i, u, m);
    forall j ensures D(j, c) == w(j) {}
    MatrixColumn(C, A, D, w, i, c);
    CloseRow(w(i), x.beta(i), x.v(i, c), x.g(i), Product(0, i + 1, x.g), Sum(0, dk, a => u(a) * S(a, c)),
             Sum(0, i, GramTrace(dk, x.k, x.g, w, i, u)), b(i, c), Mul(C, A, D)(i, c), m);
  }

  lemma CloseRow(delta: real, beta: real, v: real, g: real, pg: real, o: real, t: real, b: real, row: real, m: real)
    requires IsClosedDelta(delta, beta, v, g, pg, o, t)
    requires IsSharedRhs(b, v, beta, pg, o) && IsWeight(m, beta, g) && ScaledBy(row, m, t)
    ensures delta == b + row
  {
  }

  lemma MatrixColumn(C: nat, A: Mat, D: Mat, w: Vec, i: int, c: int)
    requires forall j :: D(j, c) == w(j)
    ensures Mul(C, A, D)(i, c) == Sum(0, C, j => A(i, j) * w(j))
  {
    SumCong(0, C, j => A(i, j) * D(j, c), j => A(i, j) * w(j));
  }

  // ----- the chunk is the recurrence -----

  ghost predicate IsChunkSystem(exp: real -> real, log: real -> real, C: nat, dk: nat, dv: nat, k: Mat, v: Mat,
                                g: Vec, beta: Vec, sol: Mat)
  {
    Solves(C, ChunkMatrix(Gram(dk, k, k), beta, DecayMask(exp, log, g)),
           ChunkRhs(dv, k, v, beta, Decay(exp, log, g)), sol)
  }

  lemma ChunkMatrixStrict(C: nat, kkT: Mat, beta: Vec, mask: Mat)
    ensures StrictLower(C, ChunkMatrix(kkT, beta, mask))
  {
    forall i, j | 0 <= i < C && i <= j < C
      ensures ChunkMatrix(kkT, beta, mask)(i, j) == 0.0
    {
      assert ChunkMatrix(kkT, beta, mask)(i, j) == -(beta(i) * kkT(i, j)) * mask(i, j) * 0.0;
    }
  }

  /** By uniqueness, the corrected values are the recurrence's deltas. */
  lemma NewValuesAreDeltas(exp: real -> real, log: real -> real, C: nat, dk: nat, dv: nat,
                           q: Mat, k: Mat, v: Mat, g: Vec, beta: Vec, S: Mat, sol: Mat, i: nat, c: int)
    requires IsExpLog(exp, log) && IsChunkSystem(exp, log, C, dk, dv, k, v, g, beta, sol)
    requires i < C && 0 <= c < dv
    ensures NewValues(dk, dv, sol, S)(i, c) == DeltaAt(dk, ChunkHead(q, k, v, g, beta), S, c)(i)
  {
    var mask, decay := DecayMask(exp, log, g), Decay(exp, log, g);
    var A, rhs := ChunkMatrix(Gram(dk, k, k), beta, mask), ChunkRhs(dv, k, v, beta, decay);
    var x := ChunkHead(q, k, v, g, beta);
    var b, D, V := NewValues(dk, dv, rhs, S), DeltaMatrix(dk, x, S), NewValues(dk, dv, sol, S);
    ChunkMatrixStrict(C, Gram(dk, k, k), beta, mask);
    forall r | 0 <= r < C
      ensures SolvesAt(C, A, b, V, r, c) && SolvesAt(C, A, b, D, r, c)
    {
      NewValuesSolve(C, dk, dv, A, rhs, sol, S, r, c);
      forall j | 0 <= j < r ensures mask(r, j) == Product(j + 1, r + 1, x.g) { MaskIsProduct(exp, log, g, r, j); }
      DecayIsProduct(exp, log, g, r, r);
      DeltaSolves(C, dk, dv, x, S, mask, decay, A, rhs, r, c, D, b);
    }
    ColumnUnique(C, A, b, V, D, i, c);
  }

  lemma ScaledRow(dk: nat, q: Mat, decay: Vec, S: Mat, i: int, c: int, u: Vec, d: real)
    requires d == decay(i) && forall a :: u(a) == q(i, a)
    ensures ScaledBy(Mul(dk, Scaled(q, decay), S)(i, c), d, Sum(0, dk, a => u(a) * S(a, c)))
  {
    var Q := Scaled(q, decay);
    forall a ensures ScaledBy(Q(i, a) * S(a, c), d, u(a) * S(a, c)) {
      assert Q(i, a) == u(a) * d;
    }
    SumScale(0, dk, d, a => u(a) * S(a, c), a => Q(i, a) * S(a, c));
  }

  lemma MaskedGramAt(dk: nat, q: Mat, k: Mat, G: Vec, mask: Mat, V: Mat, w: Vec, i: nat, c: int, u: Vec, j: nat)
    requires forall a :: u(a) == q(i, a)
    requires mask(i, j) == if j <= i then Product(j + 1, i + 1, G) else 0.0
    requires V(j, c) == w(j)
    ensures PrefixAt(i + 1, 1.0, GramTrace(dk, k, G, w, i + 1, u)(j), j, Hadamard(Gram(dk, q, k), mask)(i, j) * V(j, c))
  {
    OverlapCong(dk, a => q(i, a), u, k, j);
    MaskedTerm(Overlap(dk, u, k, j), mask(i, j), w(j));
  }

  lemma MaskedGramRow(C: nat, dk: nat, q: Mat, k: Mat, G: Vec, mask: Mat, V: Mat, w: Vec, i: nat, c: int, u: Vec)
    requires i < C
    requires forall a :: u(a) == q(i, a)
    requires forall j :: 0 <= j < C ==> mask(i, j) == if j <= i then Product(j + 1, i + 1, G) else 0.0
    requires forall j :: 0 <= j < C ==> V(j, c) == w(j)
    ensures Mul(C, Hadamard(Gram(dk, q, k), mask), V)(i, c) == Sum(0, i + 1, GramTrace(dk, k, G, w, i + 1, u))
  {
    var H, t := Hadamard(Gram(dk, q, k), mask), GramTrace(dk, k, G, w, i + 1, u);
    var f: Vec := j => H(i, j) * V(j, c);
    forall j | 0 <= j < C
      ensures PrefixAt(i + 1, 1.0, t(j), j, f(j))
    {
      MaskedGramAt(dk, q, k, G, mask, V, w, i, c, u, j);
    }
    SumPrefix(i + 1, C, 1.0, t, f);
  }

  lemma MaskedTerm(o: real, p: real, w: real)
    ensures o * p * w == p * (w * o)
  {
  }

  lemma OutputCorrect(C: nat, dk: nat, dv: nat, x: Head, mask: Mat, decay: Vec, S: Mat, V: Mat, i: nat, c: int)
    requires i < C && 0 <= c < dv
    requires forall t :: x.live(t)
    requires forall j :: 0 <= j < C ==> mask(i, j) == if j <= i then Product(j + 1, i + 1, x.g) else 0.0
    requires decay(i) == Product(0, i + 1, x.g)
    requires forall j :: 0 <= j < C ==> V(j, c) == DeltaAt(dk, x, S, c)(j)
    ensures ChunkOutput(dk, C, x.q, decay, S, Gram(dk, x.q, x.k), mask, V)(i, c) == Output(dk, x, S, i)(c)
  {
    var u: Vec := a => x.q(i, a);
    var w, R, P := DeltaAt(dk, x, S, c), Run(dk, x, S, i + 1), Product(0, i + 1, x.g);
    ReadOut(dk, x, S, i + 1, c, u, R, w);
    ScaledRow(dk, x.q, decay, S, i, c, u, P);
    MaskedGramRow(C, dk, x.q, x.k, x.g, mask, V, w, i, c, u);
    OutputRow(dk, x, S, i, c, R, u);
  }

  lemma OutputRow(dk: nat, x: Head, S: Mat, i: nat, c: int, R: Mat, u: Vec)
    requires R == Run(dk, x, S, i + 1) && forall a :: u(a) == x.q(i, a)
    ensures Output(dk, x, S, i)(c) == Sum(0, dk, a => u(a) * R(a, c))
  {
    SumCong(0, dk, a => x.q(i, a) * Run(dk, x, S, i + 1)(a, c), a => u(a) * R(a, c));
  }

  lemma StateCorrect(C: nat, dk: nat, dv: nat, x: Head, all: real, toEnd: Vec, S: Mat, V: Mat, a: int, c: int)
    requires 0 <= c < dv
    requires forall t :: x.live(t)
    requires all == Product(0, C, x.g)
    requires forall j :: 0 <= j < C ==> toEnd(j) == Product(j + 1, C, x.g)
    requires forall j :: 0 <= j < C ==> V(j, c) == DeltaAt(dk, x, S, c)(j)
    ensures ChunkState(C, x.k, all, toEnd, S, V)(a, c) == Run(dk, x, S, C)(a, c)
  {
    var w := DeltaAt(dk, x, S, c);
    Unroll(dk, x, S, C, a, c, w);
    StateColumn(C, x.k, x.g, toEnd, V, w, a, c, Transposed(Scaled(x.k, toEnd)));
  }

  lemma StateColumn(C: nat, k: Mat, g: Vec, toEnd: Vec, V: Mat, w: Vec, a: int, c: int, K: Mat)
    requires K == Transposed(Scaled(k, toEnd))
    requires forall j :: 0 <= j < C ==> toEnd(j) == Product(j + 1, C, g)
    requires forall j :: 0 <= j < C ==> V(j, c) == w(j)
    ensures Mul(C, K, V)(a, c) == TraceSum(k, g, w, C)(a)
  {
    forall j | 0 <= j < C
      ensures K(a, j) * V(j, c) == Decayed(g, Inputs(k, w, a), C)(j)
    {
      MaskedTerm(k(j, a), toEnd(j), w(j));
    }
    SumCong(0, C, j => K(a, j) * V(j, c), Decayed(g, Inputs(k, w, a), C));
  }

  lemma ChunkRowCorrect(exp: real -> real, log: real -> real, C: nat, dk: nat, dv: nat, x: Head, g: Vec, S: Mat, V: Mat,
                        i: nat, c: int)
    requires IsExpLog(exp, log) && i < C && 0 <= c < dv
    requires x.g == Clamp(g) && forall t :: x.live(t)
    requires forall j :: 0 <= j < C ==> V(j, c) == DeltaAt(dk, x, S, c)(j)
    ensures ChunkOutput(dk, C, x.q, Decay(exp, log, g), S, Gram(dk, x.q, x.k), DecayMask(exp, log, g), V)(i, c)
         == Output(dk, x, S, i)(c)
  {
    var mask, decay := DecayMask(exp, log, g), Decay(exp, log, g);
    DecayIsProduct(exp, log, g, i, i);
    forall j | 0 <= j < C ensures mask(i, j) == if j <= i then Product(j + 1, i + 1, x.g) else 0.0 {
      MaskIsProduct(exp, log, g, i, j);
    }
    OutputCorrect(C, dk, dv, x, mask, decay, S, V, i, c);
  }

  /**
   The chunk computed from the solved system gives the recurrence's outputs and final state,
   with every gate clamped from below as the code clamps it.
   */
  lemma ChunkCorrect(exp: real -> real, log: real -> real, C: nat, dk: nat, dv: nat,
                     q: Mat, k: Mat, v: Mat, g: Vec, beta: Vec, S: Mat, sol: Mat, V: Mat)
    requires C >= 1 && IsExpLog(exp, log) && IsChunkSystem(exp, log, C, dk, dv, k, v, g, beta, sol)
    requires V == NewValues(dk, dv, sol, S)
    ensures forall i, c :: 0 <= i < C && 0 <= c < dv ==>
      ChunkOutput(dk, C, q, Decay(exp, log, g), S, Gram(dk, q, k), DecayMask(exp, log, g), V)(i, c)
      == Output(dk, ChunkHead(q, k, v, g, beta), S, i)(c)
    ensures SameState(dv, ChunkState(C, k, exp(CumLog(log, g)(C - 1)), DecayToEnd(exp, log, g, C), S, V),
                      Run(dk, ChunkHead(q, k, v, g, beta), S, C))
  {
    var x := ChunkHead(q, k, v, g, beta);
    var mask, decay, toEnd := DecayMask(exp, log, g), Decay(exp, log, g), DecayToEnd(exp, log, g, C);
    forall j, c | 0 <= j < C && 0 <= c < dv ensures V(j, c) == DeltaAt(dk, x, S, c)(j) {
      NewValuesAreDeltas(exp, log, C, dk, dv, q, k, v, g, beta, S, sol, j, c);
    }
    forall j | 0 <= j < C ensures toEnd(j) == Product(j + 1, C, x.g) {
      DecayIsProduct(exp, log, g, C - 1, j);
    }
    DecayIsProduct(exp, log, g, C - 1, C - 1);
    forall i, c | 0 <= i < C && 0 <= c < dv
      ensures ChunkOutput(dk, C, q, decay, S, Gram(dk, q, k), mask, V)(i, c) == Output(dk, x, S, i)(c)
    {
      ChunkRowCorrect(exp, log, C, dk, dv, x, g, S, V, i, c);
    }
    forall a, c | 0 <= c < dv
      ensures ChunkState(C, k, exp(CumLog(log, g)(C - 1)), toEnd, S, V)(a, c) == Run(dk, x, S, C)(a, c)
    {
      StateCorrect(C, dk, dv, x, exp(CumLog(log, g)(C - 1)), toEnd, S, V, a, c);
    }
  }
}
