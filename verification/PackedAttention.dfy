/**
 Packed isolation end to end: on a row laid out by build_row, each segment's attention output
 and gradients are those of causal attention on that sequence alone.
 */
module PackedAttention {
  import opened Results
  import opened Options
  import opened Integers
  import opened RealSums
  import opened ExpLog
  import opened TriangularSolve
  import opened InnerProduct
  import opened Attention
  import opened AttentionAdjoint
  import PackedRow
  import PackedRowLaws

  // ----- a window of positions cut off from the rest -----

  /** A query of [t0, t0 + n) sees exactly the window's keys up to itself; nobody else sees the window. */
  ghost predicate IsolatedAt(mk: Masking, t0: int, n: int, i: int, j: int) {
    if t0 <= i < t0 + n then Visible(mk, i, j) <==> t0 <= j <= i else t0 <= j < t0 + n ==> !Visible(mk, i, j)
  }

  ghost predicate Isolated(mk: Masking, N: int, t0: int, n: int) {
    && 0 <= t0 && 0 <= n && t0 + n <= N
    && forall i, j :: 0 <= i < N && 0 <= j < N ==> IsolatedAt(mk, t0, n, i, j)
  }

  function Window(A: Mat, t0: int): Mat {
    (p, e) => A(t0 + p, e)
  }

  const CAUSAL: Masking := Masking(true, None)

  lemma SumWindow(N: int, t0: int, n: int, f: Vec, g: Vec)
    requires 0 <= t0 && 0 <= n && t0 + n <= N
    requires forall j :: 0 <= j < N && !(t0 <= j < t0 + n) ==> f(j) == 0.0
    requires forall r :: 0 <= r < n ==> g(r) == f(r + t0)
    ensures Sum(0, N, f) == Sum(0, n, g)
  {
    SumSplit(0, t0, N, f);
    SumSplit(t0, t0 + n, N, f);
    SumZero(0, t0, f);
    SumZero(t0 + n, N, f);
    SumShift(0, n, t0, g, f);
  }

  ghost predicate BlockAt(t0: int, n: int, A: Mat, B: Mat, i: int, j: int) {
    var inI, inJ := t0 <= i < t0 + n, t0 <= j < t0 + n;
    if inI && inJ then A(i, j) == B(i - t0, j - t0) else inI || inJ ==> A(i, j) == 0.0
  }

  /** A is B on the window and zero between the window and the outside. */
  ghost predicate Block(N: int, t0: int, n: int, A: Mat, B: Mat) {
    forall i, j :: 0 <= i < N && 0 <= j < N ==> BlockAt(t0, n, A, B, i, j)
  }

  lemma BlockMul(N: int, t0: int, n: int, A: Mat, B: Mat, x: Mat, p: int, e: int)
    requires 0 <= t0 && 0 <= n && t0 + n <= N && 0 <= p < n
    requires Block(N, t0, n, A, B)
    ensures Mul(N, A, x)(t0 + p, e) == Mul(n, B, Window(x, t0))(p, e)
  {
    var i, y := t0 + p, Window(x, t0);
    var f: Vec, g: Vec := j => A(i, j) * x(j, e), r => B(p, r) * y(r, e);
    forall j | 0 <= j < N && !(t0 <= j < t0 + n) ensures f(j) == 0.0 { assert BlockAt(t0, n, A, B, i, j); }
    forall r | 0 <= r < n ensures g(r) == f(r + t0) { assert BlockAt(t0, n, A, B, i, r + t0); }
    SumWindow(N, t0, n, f, g);
  }

  lemma BlockTransposed(N: int, t0: int, n: int, A: Mat, B: Mat)
    requires Block(N, t0, n, A, B)
    ensures Block(N, t0, n, Transposed(A), Transposed(B))
  {
    forall i, j | 0 <= i < N && 0 <= j < N ensures BlockAt(t0, n, Transposed(A), Transposed(B), i, j) {
      assert BlockAt(t0, n, A, B, j, i);
    }
  }

  // ----- scores and probabilities of the window -----

  lemma RawWindow(D: int, scale: real, q: Mat, k: Mat, t0: int, p: int, r: int)
    ensures Raw(D, scale, q, k)(t0 + p, t0 + r) == Raw(D, scale, Window(q, t0), Window(k, t0))(p, r)
  {
    var kT, wT, wq := Transposed(k), Transposed(Window(k, t0)), Window(q, t0);
    var i, j := t0 + p, t0 + r;
    forall c ensures q(i, c) * kT(c, j) == wq(p, c) * wT(c, r) {}
    SumCong(0, D, c => q(i, c) * kT(c, j), c => wq(p, c) * wT(c, r));
    assert Mul(D, q, kT)(i, j) == Mul(D, wq, wT)(p, r);
  }

  /** The window's softmax denominator is the unpacked one. */
  lemma DenominatorWindow(exp: real -> real, N: int, D: int, scale: real, mk: Masking, q: Mat, k: Mat, t0: int, n: int,
                          p: int, raw: Mat, raw': Mat)
    requires Isolated(mk, N, t0, n) && 0 <= p < n
    requires raw == Raw(D, scale, q, k) && raw' == Raw(D, scale, Window(q, t0), Window(k, t0))
    ensures Sum(0, N, VisibleWeights(exp, mk, raw, t0 + p)) == Sum(0, n, VisibleWeights(exp, CAUSAL, raw', p))
  {
    var f, g := VisibleWeights(exp, mk, raw, t0 + p), VisibleWeights(exp, CAUSAL, raw', p);
    forall j | 0 <= j < N && !(t0 <= j < t0 + n) ensures f(j) == 0.0 {
      assert IsolatedAt(mk, t0, n, t0 + p, j);
    }
    forall r | 0 <= r < n ensures g(r) == f(r + t0) {
      assert IsolatedAt(mk, t0, n, t0 + p, r + t0);
      RawWindow(D, scale, q, k, t0, p, r);
    }
    SumWindow(N, t0, n, f, g);
  }

  /** The window's saved logsumexp is the unpacked one. */
  lemma LseWindow(exp: real -> real, log: real -> real, N: int, D: int, scale: real, mk: Masking, q: Mat, k: Mat,
                  t0: int, n: int, raw: Mat, raw': Mat, p: int)
    requires mk.Valid() && Isolated(mk, N, t0, n) && 0 <= p < n
    requires raw == Raw(D, scale, q, k) && raw' == Raw(D, scale, Window(q, t0), Window(k, t0))
    ensures Lse(exp, log, N, ForwardScores(mk, raw))(t0 + p) == Lse(exp, log, n, ForwardScores(CAUSAL, raw'))(p)
  {
    DenominatorWindow(exp, N, D, scale, mk, q, k, t0, n, p, raw, raw');
    LseOfVisible(exp, log, N, mk, raw, t0 + p, ForwardScores(mk, raw));
    LseOfVisible(exp, log, n, CAUSAL, raw', p, ForwardScores(CAUSAL, raw'));
  }

  lemma ProbsWindow(exp: real -> real, log: real -> real, N: int, D: int, scale: real, mk: Masking, q: Mat, k: Mat,
                    t0: int, n: int, raw: Mat, raw': Mat, A: Mat, B: Mat)
    requires IsExpLog(exp, log) && mk.Valid() && Isolated(mk, N, t0, n)
    requires raw == Raw(D, scale, q, k) && raw' == Raw(D, scale, Window(q, t0), Window(k, t0))
    requires A == HeadProbs(exp, log, N, mk, raw) && B == HeadProbs(exp, log, n, CAUSAL, raw')
    ensures Block(N, t0, n, A, B)
  {
    forall i, j | 0 <= i < N && 0 <= j < N ensures BlockAt(t0, n, A, B, i, j) {
      ProbAt(exp, log, N, D, scale, mk, q, k, t0, n, raw, raw', A, B, i, j);
    }
  }

  /** A key outside the visible set gets no probability. */
  lemma HiddenProb(exp: real -> real, log: real -> real, N: int, mk: Masking, raw: Mat, i: int, j: int)
    requires IsExpLog(exp, log) && mk.Valid() && 0 <= i < N && !Visible(mk, i, j)
    ensures HeadProbs(exp, log, N, mk, raw)(i, j) == 0.0
  {
    ProbsAreShares(exp, log, N, mk, raw, i, j, Lse(exp, log, N, ForwardScores(mk, raw)));
  }

  lemma ProbAt(exp: real -> real, log: real -> real, N: int, D: int, scale: real, mk: Masking, q: Mat, k: Mat,
               t0: int, n: int, raw: Mat, raw': Mat, A: Mat, B: Mat, i: int, j: int)
    requires IsExpLog(exp, log) && mk.Valid() && Isolated(mk, N, t0, n) && 0 <= i < N && 0 <= j < N
    requires raw == Raw(D, scale, q, k) && raw' == Raw(D, scale, Window(q, t0), Window(k, t0))
    requires A == HeadProbs(exp, log, N, mk, raw) && B == HeadProbs(exp, log, n, CAUSAL, raw')
    ensures BlockAt(t0, n, A, B, i, j)
  {
    assert IsolatedAt(mk, t0, n, i, j);
    if t0 <= i < t0 + n && t0 <= j < t0 + n {
      SeenProb(exp, log, N, D, scale, mk, q, k, t0, n, raw, raw', i - t0, j - t0);
    } else if t0 <= i < t0 + n || t0 <= j < t0 + n {
      HiddenProb(exp, log, N, mk, raw, i, j);
    }
  }

  lemma SeenProb(exp: real -> real, log: real -> real, N: int, D: int, scale: real, mk: Masking, q: Mat, k: Mat,
                 t0: int, n: int, raw: Mat, raw': Mat, p: int, r: int)
    requires IsExpLog(exp, log) && mk.Valid() && Isolated(mk, N, t0, n) && 0 <= p < n && 0 <= r < n
    requires raw == Raw(D, scale, q, k) && raw' == Raw(D, scale, Window(q, t0), Window(k, t0))
    ensures HeadProbs(exp, log, N, mk, raw)(t0 + p, t0 + r) == HeadProbs(exp, log, n, CAUSAL, raw')(p, r)
  {
    DenominatorWindow(exp, N, D, scale, mk, q, k, t0, n, p, raw, raw');
    ProbsAreShares(exp, log, N, mk, raw, t0 + p, t0 + r, Lse(exp, log, N, ForwardScores(mk, raw)));
    ProbsAreShares(exp, log, n, CAUSAL, raw', p, r, Lse(exp, log, n, ForwardScores(CAUSAL, raw')));
    RawWindow(D, scale, q, k, t0, p, r);
    assert IsolatedAt(mk, t0, n, t0 + p, t0 + r);
  }

  // ----- outputs and gradients of the window -----

  ghost predicate SameOutputAt(whole: Attention.Output, alone: Attention.Output, t0: int, p: int) {
    whole.lse(t0 + p) == alone.lse(p) && forall e :: whole.o(t0 + p, e) == alone.o(p, e)
  }

  lemma OutputWindow(exp: real -> real, log: real -> real, N: int, D: int, scale: real, mk: Masking, q: Mat, k: Mat,
                     v: Mat, t0: int, n: int, whole: Attention.Output, alone: Attention.Output, p: int)
    requires IsExpLog(exp, log) && mk.Valid() && Isolated(mk, N, t0, n) && 0 <= p < n
    requires whole == HeadForward(exp, log, N, D, scale, mk, q, k, v)
    requires alone == HeadForward(exp, log, n, D, scale, CAUSAL, Window(q, t0), Window(k, t0), Window(v, t0))
    ensures SameOutputAt(whole, alone, t0, p)
  {
    var raw, raw' := Raw(D, scale, q, k), Raw(D, scale, Window(q, t0), Window(k, t0));
    var A, B := HeadProbs(exp, log, N, mk, raw), HeadProbs(exp, log, n, CAUSAL, raw');
    ProbsWindow(exp, log, N, D, scale, mk, q, k, t0, n, raw, raw', A, B);
    LseWindow(exp, log, N, D, scale, mk, q, k, t0, n, raw, raw', p);
    forall e ensures whole.o(t0 + p, e) == alone.o(p, e) {
      BlockMul(N, t0, n, A, B, v, p, e);
    }
  }

  lemma DpWindow(D: int, dO: Mat, v: Mat, t0: int, p: int, r: int)
    ensures Mul(D, dO, Transposed(v))(t0 + p, t0 + r) == Mul(D, Window(dO, t0), Transposed(Window(v, t0)))(p, r)
  {
    var vT, wT, w := Transposed(v), Transposed(Window(v, t0)), Window(dO, t0);
    var i, j := t0 + p, t0 + r;
    forall c ensures dO(i, c) * vT(c, j) == w(p, c) * wT(c, r) {}
    SumCong(0, D, c => dO(i, c) * vT(c, j), c => w(p, c) * wT(c, r));
    assert Mul(D, dO, vT)(i, j) == Mul(D, w, wT)(p, r);
  }

  lemma RowWindow(D: int, dO: Mat, o: Mat, o': Mat, t0: int, p: int)
    requires forall e :: o(t0 + p, e) == o'(p, e)
    ensures RowDot(D, dO, o, t0 + p) == RowDot(D, Window(dO, t0), o', p)
  {
    var w, i := Window(dO, t0), t0 + p;
    forall c ensures dO(i, c) * o(i, c) == w(p, c) * o'(p, c) {}
    SumCong(0, D, c => dO(i, c) * o(i, c), c => w(p, c) * o'(p, c));
    assert RowDot(D, dO, o, i) == RowDot(D, w, o', p);
  }

  ghost predicate OnWindow(t0: int, n: int, A: Mat, B: Mat) {
    forall p, r :: 0 <= p < n && 0 <= r < n ==> A(t0 + p, t0 + r) == B(p, r)
  }

  ghost predicate VecOnWindow(t0: int, n: int, d: Vec, d': Vec) {
    forall p :: 0 <= p < n ==> d(t0 + p) == d'(p)
  }

  lemma DpOnWindow(D: int, dO: Mat, v: Mat, t0: int, n: int)
    ensures OnWindow(t0, n, Mul(D, dO, Transposed(v)), Mul(D, Window(dO, t0), Transposed(Window(v, t0))))
  {
    forall p, r | 0 <= p < n && 0 <= r < n
      ensures Mul(D, dO, Transposed(v))(t0 + p, t0 + r) == Mul(D, Window(dO, t0), Transposed(Window(v, t0)))(p, r)
    {
      DpWindow(D, dO, v, t0, p, r);
    }
  }

  lemma BwdDOnWindow(D: int, dO: Mat, t0: int, n: int, whole: Attention.Output, alone: Attention.Output)
    requires forall x :: 0 <= x < n ==> SameOutputAt(whole, alone, t0, x)
    ensures VecOnWindow(t0, n, BwdD(D, dO, whole.o), BwdD(D, Window(dO, t0), alone.o))
  {
    forall x | 0 <= x < n ensures BwdD(D, dO, whole.o)(t0 + x) == BwdD(D, Window(dO, t0), alone.o)(x) {
      assert SameOutputAt(whole, alone, t0, x);
      RowWindow(D, dO, whole.o, alone.o, t0, x);
    }
  }

  /** The score gradients of the window form a block of their own. */
  lemma ScoreGradBlock(N: int, t0: int, n: int, P: Mat, Q: Mat, dP: Mat, dP': Mat, d: Vec, d': Vec, E: Mat, F: Mat)
    requires Block(N, t0, n, P, Q)
    requires OnWindow(t0, n, dP, dP') && VecOnWindow(t0, n, d, d')
    requires E == ScoreGrad(P, dP, d) && F == ScoreGrad(Q, dP', d')
    ensures Block(N, t0, n, E, F)
  {
    forall i, j | 0 <= i < N && 0 <= j < N ensures BlockAt(t0, n, E, F, i, j) {
      assert BlockAt(t0, n, P, Q, i, j);
      if t0 <= i < t0 + n && t0 <= j < t0 + n {
        assert dP(t0 + (i - t0), t0 + (j - t0)) == dP'(i - t0, j - t0);
        assert d(t0 + (i - t0)) == d'(i - t0);
      }
    }
  }

  /** The three matmuls of the backward, on a block. */
  lemma GradsOfBlock(N: int, D: int, scale: real, t0: int, n: int, P: Mat, Q: Mat, E: Mat, F: Mat, q: Mat, k: Mat,
                     dO: Mat, p: int, e: int)
    requires 0 <= t0 && 0 <= n && t0 + n <= N && 0 <= p < n
    requires Block(N, t0, n, P, Q) && Block(N, t0, n, E, F)
    ensures Times(scale, Mul(N, E, k))(t0 + p, e) == Times(scale, Mul(n, F, Window(k, t0)))(p, e)
    ensures Times(scale, Mul(N, Transposed(E), q))(t0 + p, e)
         == Times(scale, Mul(n, Transposed(F), Window(q, t0)))(p, e)
    ensures Mul(N, Transposed(P), dO)(t0 + p, e) == Mul(n, Transposed(Q), Window(dO, t0))(p, e)
  {
    BlockTransposed(N, t0, n, P, Q);
    BlockTransposed(N, t0, n, E, F);
    BlockMul(N, t0, n, E, F, k, p, e);
    BlockMul(N, t0, n, Transposed(E), Transposed(F), q, p, e);
    BlockMul(N, t0, n, Transposed(P), Transposed(Q), dO, p, e);
  }

  ghost predicate SameGradsAt(D: int, whole: Grads, alone: Grads, t0: int, p: int) {
    forall e :: 0 <= e < D ==>
      && whole.dq(t0 + p, e) == alone.dq(p, e)
      && whole.dk(t0 + p, e) == alone.dk(p, e)
      && whole.dv(t0 + p, e) == alone.dv(p, e)
  }

  lemma GradWindow(exp: real -> real, log: real -> real, N: int, D: int, scale: real, mk: Masking, q: Mat, k: Mat,
                   v: Mat, dO: Mat, t0: int, n: int, whole: Attention.Output, alone: Attention.Output, gw: Grads,
                   ga: Grads, p: int)
    requires IsExpLog(exp, log) && mk.Valid() && Isolated(mk, N, t0, n) && 0 <= p < n
    requires whole == HeadForward(exp, log, N, D, scale, mk, q, k, v)
    requires alone == HeadForward(exp, log, n, D, scale, CAUSAL, Window(q, t0), Window(k, t0), Window(v, t0))
    requires gw == HeadBackward(exp, N, D, scale, mk, q, k, v, whole.o, whole.lse, dO)
    requires ga == HeadBackward(exp, n, D, scale, CAUSAL, Window(q, t0), Window(k, t0), Window(v, t0), alone.o,
                                alone.lse, Window(dO, t0))
    ensures SameGradsAt(D, gw, ga, t0, p)
  {
    var qw, kw, vw, dw := Window(q, t0), Window(k, t0), Window(v, t0), Window(dO, t0);
    var P, Q := HeadProbs(exp, log, N, mk, Raw(D, scale, q, k)), HeadProbs(exp, log, n, CAUSAL, Raw(D, scale, qw, kw));
    var dP, dP' := Mul(D, dO, Transposed(v)), Mul(D, dw, Transposed(vw));
    var E, F := ScoreGrad(P, dP, BwdD(D, dO, whole.o)), ScoreGrad(Q, dP', BwdD(D, dw, alone.o));
    ProbsWindow(exp, log, N, D, scale, mk, q, k, t0, n, Raw(D, scale, q, k), Raw(D, scale, qw, kw), P, Q);
    DpOnWindow(D, dO, v, t0, n);
    forall x | 0 <= x < n ensures SameOutputAt(whole, alone, t0, x) {
      OutputWindow(exp, log, N, D, scale, mk, q, k, v, t0, n, whole, alone, x);
    }
    BwdDOnWindow(D, dO, t0, n, whole, alone);
    ScoreGradBlock(N, t0, n, P, Q, dP, dP', BwdD(D, dO, whole.o), BwdD(D, dw, alone.o), E, F);
    BackwardUsesForwardProbs(exp, log, N, D, scale, mk, q, k, v, dO, whole, gw, P, E);
    BackwardUsesForwardProbs(exp, log, n, D, scale, CAUSAL, qw, kw, vw, dw, alone, ga, Q, F);
    forall e | 0 <= e < D
      ensures gw.dq(t0 + p, e) == ga.dq(p, e) && gw.dk(t0 + p, e) == ga.dk(p, e) && gw.dv(t0 + p, e) == ga.dv(p, e)
    {
      GradsOfBlock(N, D, scale, t0, n, P, Q, E, F, q, k, dO, p, e);
    }
  }

  // ----- rows laid out by build_row -----

  function SegIds(l: PackedRow.Layout): int -> int {
    i => if 0 <= i < |l.segId| then l.segId[i] else -1
  }

  function PackedMasking(l: PackedRow.Layout): Masking {
    Masking(true, Some(SegIds(l)))
  }

  /** The input positions of segment s, clipped to the row (the tail for s = |entries|). */
  function Span(entries: seq<PackedRow.Entry>, packLen: nat, s: nat): int
    requires s <= |entries|
  {
    (if s < |entries| && PackedRow.Start(entries, s + 1) <= packLen then PackedRow.Start(entries, s + 1) else packLen)
    - PackedRow.Start(entries, s)
  }

  lemma SegmentIsolated(entries: seq<PackedRow.Entry>, packLen: nat, l: PackedRow.Layout, s: nat)
    requires PackedRow.IsLayout(entries, packLen, l) && s <= |entries| && PackedRow.Start(entries, s) <= packLen
    ensures Isolated(PackedMasking(l), packLen, PackedRow.Start(entries, s), Span(entries, packLen, s))
  {
    var t0, n, mk := PackedRow.Start(entries, s), Span(entries, packLen, s), PackedMasking(l);
    if s < |entries| { PackedRow.StartMonotone(entries, s, s + 1); }
    forall i, j | 0 <= i < packLen && 0 <= j < packLen ensures IsolatedAt(mk, t0, n, i, j) {
      if t0 <= i < t0 + n {
        OwnSegment(entries, packLen, l, s, i, j);
      } else if t0 <= j < t0 + n {
        OtherSegment(entries, packLen, l, s, i, j);
      }
    }
  }

  lemma OwnSegment(entries: seq<PackedRow.Entry>, packLen: nat, l: PackedRow.Layout, s: nat, i: nat, j: nat)
    requires PackedRow.IsLayout(entries, packLen, l) && PackedRow.InSegment(entries, s, i) && i < packLen && j < packLen
    ensures Visible(PackedMasking(l), i, j) <==> PackedRow.Start(entries, s) <= j <= i
  {
    assert PackedRow.InputOk(entries, s, i, l.segId[i], l.segStart[i], l.lossMask[i]);
    PackedRowLaws.SegmentIsInterval(entries, packLen, l, i, j);
  }

  lemma OtherSegment(entries: seq<PackedRow.Entry>, packLen: nat, l: PackedRow.Layout, s: nat, i: nat, j: nat)
    requires PackedRow.IsLayout(entries, packLen, l) && i < packLen && j < packLen
    requires PackedRow.InSegment(entries, s, j) && !PackedRow.InSegment(entries, s, i)
    ensures !Visible(PackedMasking(l), i, j)
  {
    var t := PackedRow.SegmentOf(entries, i);
    assert PackedRow.InputOk(entries, t, i, l.segId[i], l.segStart[i], l.lossMask[i]);
    assert PackedRow.InputOk(entries, s, j, l.segId[j], l.segStart[j], l.lossMask[j]);
  }

  /** A head on an isolated window: output, saved logsumexp and gradients are those of the window alone. */
  lemma WindowIsolation(exp: real -> real, log: real -> real, N: int, D: int, scale: real, mk: Masking, t0: int, n: int,
                        p: int, q: Mat, k: Mat, v: Mat, dO: Mat, whole: Attention.Output, alone: Attention.Output,
                        gw: Grads, ga: Grads)
    requires IsExpLog(exp, log) && mk.Valid() && Isolated(mk, N, t0, n) && 0 <= p < n
    requires whole == HeadForward(exp, log, N, D, scale, mk, q, k, v)
    requires alone == HeadForward(exp, log, n, D, scale, CAUSAL, Window(q, t0), Window(k, t0), Window(v, t0))
    requires gw == HeadBackward(exp, N, D, scale, mk, q, k, v, whole.o, whole.lse, dO)
    requires ga == HeadBackward(exp, n, D, scale, CAUSAL, Window(q, t0), Window(k, t0), Window(v, t0), alone.o,
                                alone.lse, Window(dO, t0))
    ensures SameOutputAt(whole, alone, t0, p) && SameGradsAt(D, gw, ga, t0, p)
  {
    OutputWindow(exp, log, N, D, scale, mk, q, k, v, t0, n, whole, alone, p);
    GradWindow(exp, log, N, D, scale, mk, q, k, v, dO, t0, n, whole, alone, gw, ga, p);
  }

  /**
   Packed isolation: in a row laid out by build_row, every position of every segment (the tail
   included) has the output, the saved logsumexp and the gradients of unpacked causal attention
   run on that segment alone.
   */
  lemma PackedIsolation(exp: real -> real, log: real -> real, D: int, scale: real, entries: seq<PackedRow.Entry>,
                        packLen: nat, l: PackedRow.Layout, s: nat, t0: int, n: int, p: int, q: Mat, k: Mat, v: Mat,
                        dO: Mat, whole: Attention.Output, alone: Attention.Output, gw: Grads, ga: Grads)
    requires IsExpLog(exp, log)
    requires PackedRow.IsLayout(entries, packLen, l) && s <= |entries| && PackedRow.Start(entries, s) <= packLen
    requires t0 == PackedRow.Start(entries, s) && n == Span(entries, packLen, s) && 0 <= p < n
    requires whole == HeadForward(exp, log, packLen, D, scale, PackedMasking(l), q, k, v)
    requires alone == HeadForward(exp, log, n, D, scale, CAUSAL, Window(q, t0), Window(k, t0), Window(v, t0))
    requires gw == HeadBackward(exp, packLen, D, scale, PackedMasking(l), q, k, v, whole.o, whole.lse, dO)
    requires ga == HeadBackward(exp, n, D, scale, CAUSAL, Window(q, t0), Window(k, t0), Window(v, t0), alone.o,
                                alone.lse, Window(dO, t0))
    ensures SameOutputAt(whole, alone, t0, p) && SameGradsAt(D, gw, ga, t0, p)
  {
    SegmentIsolated(entries, packLen, l, s);
    WindowIsolation(exp, log, packLen, D, scale, PackedMasking(l), t0, n, p, q, k, v, dO, whole, alone, gw, ga);
  }

  /**
   The pad positions included, every segment but the clipped last one spans its tokens and one slot,
   and the tail spans what is left of the row.
   */
  lemma SpanOf(entries: seq<PackedRow.Entry>, packLen: nat, s: nat)
    requires PackedRow.Fits(entries, packLen) && s <= |entries|
    ensures s == |entries| ==> Span(entries, packLen, s) == packLen - PackedRow.Start(entries, s)
    ensures s < |entries| && PackedRow.Start(entries, s + 1) <= packLen ==>
      Span(entries, packLen, s) == |entries[s].tokens| + 1
    ensures s < |entries| && PackedRow.Start(entries, s + 1) > packLen ==>
      s == |entries| - 1 && Span(entries, packLen, s) == |entries[s].tokens|
  {
    if s < |entries| { PackedRow.StartMonotone(entries, s + 1, |entries|); }
  }

  // ----- all heads -----

  function Windows(x: Heads, t0: int): Heads {
    h => Window(x(h), t0)
  }

  /** _flash_attention_backward of every query head, before the key/value heads are accumulated. */
  function PerHead(exp: real -> real, N: int, D: int, g: int, scale: real, mk: Masking,
                   q: Heads, k: Heads, v: Heads, fwd: int -> Attention.Output, dO: Heads): int -> Grads
    requires g >= 1
  {
    h => HeadBackward(exp, N, D, scale, mk, q(h), k(KvHeadFor(h, g)), v(KvHeadFor(h, g)), fwd(h).o, fwd(h).lse, dO(h))
  }

  lemma GroupWindow(g: int, X: Heads, Y: Heads, m: int, t0: int, p: int, e: int)
    requires forall h :: X(h)(t0 + p, e) == Y(h)(p, e)
    ensures GroupSum(g, X)(m)(t0 + p, e) == GroupSum(g, Y)(m)(p, e)
  {
    SumCong(0, g, r => X(m * g + r)(t0 + p, e), r => Y(m * g + r)(p, e));
  }

  lemma GroupedGrads(exp: real -> real, N: int, n: int, D: int, g: int, scale: real, mk: Masking, mk': Masking,
                     q: Heads, k: Heads, v: Heads, fwd: int -> Attention.Output, dO: Heads,
                     q': Heads, k': Heads, v': Heads, fwd': int -> Attention.Output, dO': Heads,
                     per: int -> Grads, per': int -> Grads, gw: HeadGrads, ga: HeadGrads, t0: int, p: int, h: int)
    requires g >= 1
    requires per == PerHead(exp, N, D, g, scale, mk, q, k, v, fwd, dO)
    requires per' == PerHead(exp, n, D, g, scale, mk', q', k', v', fwd', dO')
    requires gw == Backward(exp, N, D, g, scale, mk, q, k, v, fwd, dO)
    requires ga == Backward(exp, n, D, g, scale, mk', q', k', v', fwd', dO')
    requires forall x :: SameGradsAt(D, per(x), per'(x), t0, p)
    ensures SameGradsAt(D, Grads(gw.dq(h), gw.dk(h), gw.dv(h)), Grads(ga.dq(h), ga.dk(h), ga.dv(h)), t0, p)
  {
    forall e | 0 <= e < D
      ensures gw.dq(h)(t0 + p, e) == ga.dq(h)(p, e) && gw.dk(h)(t0 + p, e) == ga.dk(h)(p, e)
           && gw.dv(h)(t0 + p, e) == ga.dv(h)(p, e)
    {
      var K: Heads, K': Heads, V: Heads, V': Heads := x => per(x).dk, x => per'(x).dk, x => per(x).dv, x => per'(x).dv;
      assert SameGradsAt(D, per(h), per'(h), t0, p);
      forall x ensures K(x)(t0 + p, e) == K'(x)(p, e) && V(x)(t0 + p, e) == V'(x)(p, e) {
        assert SameGradsAt(D, per(x), per'(x), t0, p);
      }
      GroupWindow(g, K, K', h, t0, p, e);
      GroupWindow(g, V, V', h, t0, p, e);
    }
  }

  lemma GroupedIsolation(exp: real -> real, log: real -> real, D: int, Hkv: nat, g: nat, scale: real,
                             entries: seq<PackedRow.Entry>, packLen: nat, l: PackedRow.Layout, s: nat, t0: int, n: int,
                             p: int, q: Heads, k: Heads, v: Heads, dO: Heads, whole: int -> Attention.Output,
                             alone: int -> Attention.Output, gw: HeadGrads, ga: HeadGrads, h: int)
    requires IsExpLog(exp, log) && Hkv >= 1 && g >= 1 && Hkv * g >= 1
    requires PackedRow.IsLayout(entries, packLen, l) && s <= |entries| && PackedRow.Start(entries, s) <= packLen
    requires t0 == PackedRow.Start(entries, s) && n == Span(entries, packLen, s) && 0 <= p < n
    requires Forward(exp, log, packLen, D, Hkv * g, Hkv, scale, PackedMasking(l), q, k, v) == Ok(whole)
    requires Forward(exp, log, n, D, Hkv * g, Hkv, scale, CAUSAL, Windows(q, t0), Windows(k, t0), Windows(v, t0))
          == Ok(alone)
    requires gw == Backward(exp, packLen, D, g, scale, PackedMasking(l), q, k, v, whole, dO)
    requires ga == Backward(exp, n, D, g, scale, CAUSAL, Windows(q, t0), Windows(k, t0), Windows(v, t0), alone,
                            Windows(dO, t0))
    ensures SameOutputAt(whole(h), alone(h), t0, p)
    ensures SameGradsAt(D, Grads(gw.dq(h), gw.dk(h), gw.dv(h)), Grads(ga.dq(h), ga.dk(h), ga.dv(h)), t0, p)
  {
    var q', k', v', dO' := Windows(q, t0), Windows(k, t0), Windows(v, t0), Windows(dO, t0);
    var per := PerHead(exp, packLen, D, g, scale, PackedMasking(l), q, k, v, whole, dO);
    var per' := PerHead(exp, n, D, g, scale, CAUSAL, q', k', v', alone, dO');
    DivMod(Hkv * g, Hkv, g, 0);
    SegmentIsolated(entries, packLen, l, s);
    forall x ensures SameOutputAt(whole(x), alone(x), t0, p) && SameGradsAt(D, per(x), per'(x), t0, p) {
      WindowIsolation(exp, log, packLen, D, scale, PackedMasking(l), t0, n, p, q(x), k(KvHeadFor(x, g)),
                      v(KvHeadFor(x, g)), dO(x), whole(x), alone(x), per(x), per'(x));
    }
    GroupedGrads(exp, packLen, n, D, g, scale, PackedMasking(l), CAUSAL, q, k, v, whole, dO, q', k', v', alone, dO',
                 per, per', gw, ga, t0, p, h);
  }

  /**
   Packed isolation for grouped heads: the packed and the unpacked forward succeed, and at every
   position of a segment, every query head's output and query gradient, and every key/value head's
   accumulated gradients, are those of unpacked causal attention on that segment's slices.
   */
  lemma PackedHeadsIsolation(exp: real -> real, log: real -> real, D: int, Hq: nat, Hkv: nat, g: nat, scale: real,
                             entries: seq<PackedRow.Entry>, packLen: nat, l: PackedRow.Layout, s: nat, t0: int, n: int,
                             p: int, q: Heads, k: Heads, v: Heads, dO: Heads, h: int)
    requires IsExpLog(exp, log) && Hkv >= 1 && g >= 1 && Hq >= 1 && Hq == Hkv * g
    requires PackedRow.IsLayout(entries, packLen, l) && s <= |entries| && PackedRow.Start(entries, s) <= packLen
    requires t0 == PackedRow.Start(entries, s) && n == Span(entries, packLen, s) && 0 <= p < n
    ensures Forward(exp, log, packLen, D, Hq, Hkv, scale, PackedMasking(l), q, k, v).Ok?
    ensures Forward(exp, log, n, D, Hq, Hkv, scale, CAUSAL, Windows(q, t0), Windows(k, t0), Windows(v, t0)).Ok?
    ensures
      var q', k', v' := Windows(q, t0), Windows(k, t0), Windows(v, t0);
      var whole := Forward(exp, log, packLen, D, Hq, Hkv, scale, PackedMasking(l), q, k, v).value;
      var alone := Forward(exp, log, n, D, Hq, Hkv, scale, CAUSAL, q', k', v').value;
      var gw := Backward(exp, packLen, D, g, scale, PackedMasking(l), q, k, v, whole, dO);
      var ga := Backward(exp, n, D, g, scale, CAUSAL, q', k', v', alone, Windows(dO, t0));
      && SameOutputAt(whole(h), alone(h), t0, p)
      && SameGradsAt(D, Grads(gw.dq(h), gw.dk(h), gw.dv(h)), Grads(ga.dq(h), ga.dk(h), ga.dv(h)), t0, p)
  {
    var q', k', v' := Windows(q, t0), Windows(k, t0), Windows(v, t0);
    DivMod(Hkv * g, Hkv, g, 0);
    var whole := Forward(exp, log, packLen, D, Hq, Hkv, scale, PackedMasking(l), q, k, v).value;
    var alone := Forward(exp, log, n, D, Hq, Hkv, scale, CAUSAL, q', k', v').value;
    GroupedIsolation(exp, log, D, Hkv, g, scale, entries, packLen, l, s, t0, n, p, q, k, v, dO, whole, alone,
                     Backward(exp, packLen, D, g, scale, PackedMasking(l), q, k, v, whole, dO),
                     Backward(exp, n, D, g, scale, CAUSAL, q', k', v', alone, Windows(dO, t0)), h);
  }
}
