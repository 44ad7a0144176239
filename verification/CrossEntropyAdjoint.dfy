/**
 The chunked backward of the linear cross-entropy is the adjoint of the naive loss's derivative.
 */
module CrossEntropyAdjoint {
  import opened RealSums
  import opened ExpLog
  import opened TriangularSolve
  import opened InnerProduct
  import opened DualNumbers
  import opened LogSumExps
  import opened CrossEntropy

  // ----- the naive loss on dual numbers -----

  function DualLogits(d: int, hidden: DualMat, w: DualMat): DualMat {
    DualMul(d, hidden, (e, c) => w(c, e))
  }

  function DualWeightRow(exp: real -> real, logits: DualMat, i: int): int -> Dual {
    c => Exp(exp, logits(i, c))
  }

  function DualLseRow(exp: real -> real, log: real -> real, v: int, logits: DualMat, i: int): Dual {
    LogSum(log, DualSum(0, v, DualWeightRow(exp, logits, i)))
  }

  /** naive_linear_ce with its derivative along the direction the inputs carry. */
  function DualNaive(exp: real -> real, log: real -> real, d: int, v: int, hidden: DualMat, w: DualMat,
                     targets: Targets): int -> Dual
  {
    i => Minus(DualLseRow(exp, log, v, DualLogits(d, hidden, w), i), DualLogits(d, hidden, w)(i, targets(i)))
  }

  function LogitTangent(d: int, hidden: Mat, w: Mat, dh: Mat, dw: Mat): Mat {
    Add(Mul(d, dh, Transposed(w)), Mul(d, hidden, Transposed(dw)))
  }

  lemma DualLogitParts(d: int, hidden: Mat, w: Mat, dh: Mat, dw: Mat, i: int, c: int)
    ensures HasParts(DualLogits(d, Along(hidden, dh), Along(w, dw))(i, c),
                     Logits(d, hidden, w)(i, c), LogitTangent(d, hidden, w, dh, dw)(i, c))
  {
    var Y: DualMat := (e, c) => Along(w, dw)(c, e);
    forall e ensures HasParts(Along(hidden, dh)(i, e), hidden(i, e), dh(i, e)) {}
    forall e ensures HasParts(Y(e, c), Transposed(w)(e, c), Transposed(dw)(e, c)) {
      assert Y(e, c) == Along(w, dw)(c, e);
    }
    DualMulParts(d, hidden, dh, Transposed(w), Transposed(dw), Along(hidden, dh), Y, i, c);
  }

  ghost predicate EntryHasParts(x: DualMat, value: Mat, tangent: Mat, i: int, c: int) {
    HasParts(x(i, c), value(i, c), tangent(i, c))
  }

  ghost predicate RowHasParts(x: DualMat, value: Mat, tangent: Mat, i: int) {
    forall c :: EntryHasParts(x, value, tangent, i, c)
  }

  lemma DualLogitRow(d: int, hidden: Mat, w: Mat, dh: Mat, dw: Mat, i: int, logits: Mat, x: DualMat, L: Mat)
    requires logits == Logits(d, hidden, w) && L == LogitTangent(d, hidden, w, dh, dw)
    requires x == DualLogits(d, Along(hidden, dh), Along(w, dw))
    ensures RowHasParts(x, logits, L, i)
  {
    forall c ensures EntryHasParts(x, logits, L, i, c) { DualLogitParts(d, hidden, w, dh, dw, i, c); }
  }

  /** p = exp(logits - lse) */
  function Softmax(exp: real -> real, logits: Mat, lse: ExtVec): Mat {
    (i, c) => ExpDiff(exp, Fin(logits(i, c)), lse(i))
  }

  function ExpRow(exp: real -> real, logits: Mat, i: int): Vec {
    c => exp(logits(i, c))
  }

  lemma Denominator(exp: real -> real, log: real -> real, v: int, logits: Mat, i: int, z: real)
    requires IsExpLog(exp, log) && v >= 1 && z == Sum(0, v, ExpRow(exp, logits, i))
    ensures z > 0.0 && FullLse(exp, log, v, logits)(i) == Fin(log(z))
  {
    FullLseFinite(exp, log, v, logits, i);
    forall c ensures Weights(exp, LogitRow(logits, i))(c) == ExpRow(exp, logits, i)(c) {
      assert LogitRow(logits, i)(c) == Fin(logits(i, c));
    }
    SumCong(0, v, Weights(exp, LogitRow(logits, i)), ExpRow(exp, logits, i));
  }

  lemma SoftmaxShare(exp: real -> real, log: real -> real, v: int, logits: Mat, lse: ExtVec, i: int, c: int, z: real)
    requires IsExpLog(exp, log) && v >= 1 && z == Sum(0, v, ExpRow(exp, logits, i))
    requires lse(i) == FullLse(exp, log, v, logits)(i)
    ensures z > 0.0 && ShareAt(Softmax(exp, logits, lse)(i, c), ExpRow(exp, logits, i)(c), z)
  {
    Denominator(exp, log, v, logits, i, z);
    ExpSub(exp, log, logits(i, c), log(z));
    ExpOfLog(exp, log, z);
    Undivide(exp(logits(i, c)), z, Softmax(exp, logits, lse)(i, c));
  }

  lemma DualLseRowParts(exp: real -> real, log: real -> real, v: int, logits: Mat, L: Mat, x: DualMat, P: Mat, i: int,
                        z: real)
    requires z > 0.0 && z == Sum(0, v, ExpRow(exp, logits, i))
    requires RowHasParts(x, logits, L, i)
    requires forall c :: 0 <= c < v ==> ShareAt(P(i, c), ExpRow(exp, logits, i)(c), z)
    ensures HasParts(DualLseRow(exp, log, v, x, i), log(z), RowDot(v, P, L, i))
  {
    var W := ExpRow(exp, logits, i);
    var t: Vec := c => W(c) * L(i, c);
    DualRowSum(exp, v, logits, L, x, i, W, t);
    WeightedTangent(v, W, L, P, i, z, t);
    LogSumParts(log, DualSum(0, v, DualWeightRow(exp, x, i)), z, Sum(0, v, t), RowDot(v, P, L, i));
  }

  lemma DualRowSum(exp: real -> real, v: int, logits: Mat, L: Mat, x: DualMat, i: int, W: Vec, t: Vec)
    requires W == ExpRow(exp, logits, i) && forall c :: t(c) == W(c) * L(i, c)
    requires RowHasParts(x, logits, L, i)
    ensures HasParts(DualSum(0, v, DualWeightRow(exp, x, i)), Sum(0, v, W), Sum(0, v, t))
  {
    forall c | 0 <= c < v ensures HasParts(DualWeightRow(exp, x, i)(c), W(c), t(c)) {
      assert EntryHasParts(x, logits, L, i, c);
      WeightParts(exp, x(i, c), logits(i, c), L(i, c));
    }
    DualSumParts(0, v, DualWeightRow(exp, x, i), W, t);
  }

  lemma WeightParts(exp: real -> real, x: Dual, value: real, tangent: real)
    requires HasParts(x, value, tangent)
    ensures HasParts(Exp(exp, x), exp(value), exp(value) * tangent)
  {
  }

  /** Row i has an in-range target and its saved logsumexp. */
  ghost predicate RowReady(exp: real -> real, log: real -> real, v: int, logits: Mat, targets: Targets, lse: ExtVec,
                           i: int)
  {
    0 <= targets(i) < v && lse(i) == FullLse(exp, log, v, logits)(i)
  }

  /** Row i of the naive loss on dual numbers: its value, and the softmax-minus-target differential. */
  ghost predicate RowParts(nll: int -> Dual, value: Vec, v: int, P: Mat, L: Mat, targets: Targets, i: int) {
    0 <= targets(i) < v && HasParts(nll(i), value(i), RowDot(v, P, L, i) - L(i, targets(i)))
  }

  lemma DualNaiveParts(exp: real -> real, log: real -> real, d: int, v: int, hidden: Mat, w: Mat, dh: Mat, dw: Mat,
                       targets: Targets, lse: ExtVec, P: Mat, L: Mat, i: int, logits: Mat, x: DualMat,
                       nll: int -> Dual, value: Vec)
    requires IsExpLog(exp, log) && v >= 1 && logits == Logits(d, hidden, w)
    requires x == DualLogits(d, Along(hidden, dh), Along(w, dw)) && L == LogitTangent(d, hidden, w, dh, dw)
    requires RowReady(exp, log, v, logits, targets, lse, i) && P == Softmax(exp, logits, lse)
    requires nll == DualNaive(exp, log, d, v, Along(hidden, dh), Along(w, dw), targets)
    requires value == NaiveNll(exp, log, d, v, hidden, w, targets)
    ensures RowParts(nll, value, v, P, L, targets, i)
  {
    DualLogitRow(d, hidden, w, dh, dw, i, logits, x, L);
    DualNaiveAt(exp, log, d, v, hidden, w, dh, dw, targets, i, logits, x, nll, value);
    NaiveTangent(exp, log, v, targets, lse, P, L, i, logits, x, nll, value);
  }

  lemma DualNaiveAt(exp: real -> real, log: real -> real, d: int, v: int, hidden: Mat, w: Mat, dh: Mat, dw: Mat,
                    targets: Targets, i: int, logits: Mat, x: DualMat, nll: int -> Dual, value: Vec)
    requires logits == Logits(d, hidden, w) && x == DualLogits(d, Along(hidden, dh), Along(w, dw))
    requires nll == DualNaive(exp, log, d, v, Along(hidden, dh), Along(w, dw), targets)
    requires value == NaiveNll(exp, log, d, v, hidden, w, targets)
    ensures nll(i) == Minus(DualLseRow(exp, log, v, x, i), x(i, targets(i)))
    ensures value(i) == Finite(FullLse(exp, log, v, logits)(i)) - logits(i, targets(i))
  {
  }

  /** The loss of a row from logits that carry the tangents L, whatever they were computed from. */
  lemma NaiveTangent(exp: real -> real, log: real -> real, v: int, targets: Targets, lse: ExtVec, P: Mat, L: Mat,
                     i: int, logits: Mat, x: DualMat, nll: int -> Dual, value: Vec)
    requires IsExpLog(exp, log) && v >= 1 && RowHasParts(x, logits, L, i)
    requires RowReady(exp, log, v, logits, targets, lse, i) && P == Softmax(exp, logits, lse)
    requires nll(i) == Minus(DualLseRow(exp, log, v, x, i), x(i, targets(i)))
    requires value(i) == Finite(FullLse(exp, log, v, logits)(i)) - logits(i, targets(i))
    ensures RowParts(nll, value, v, P, L, targets, i)
  {
    var z, t, l := Sum(0, v, ExpRow(exp, logits, i)), targets(i), DualLseRow(exp, log, v, x, i);
    assert EntryHasParts(x, logits, L, i, t);
    DualLseRowFull(exp, log, v, logits, L, x, P, i, z, lse);
    MinusParts(l, log(z), RowDot(v, P, L, i), x(i, t), logits(i, t), L(i, t));
  }

  lemma DualLseRowFull(exp: real -> real, log: real -> real, v: int, logits: Mat, L: Mat, x: DualMat, P: Mat, i: int,
                       z: real, lse: ExtVec)
    requires IsExpLog(exp, log) && v >= 1 && z == Sum(0, v, ExpRow(exp, logits, i))
    requires RowHasParts(x, logits, L, i)
    requires lse(i) == FullLse(exp, log, v, logits)(i) && P == Softmax(exp, logits, lse)
    ensures HasParts(DualLseRow(exp, log, v, x, i), log(z), RowDot(v, P, L, i))
    ensures FullLse(exp, log, v, logits)(i) == Fin(log(z))
  {
    Denominator(exp, log, v, logits, i, z);
    SoftmaxShares(exp, log, v, logits, lse, i, P, z);
    DualLseRowParts(exp, log, v, logits, L, x, P, i, z);
  }

  // ----- rows of the gradient -----

  lemma GradSplit(exp: real -> real, logits: Mat, lse: ExtVec, targets: Targets, ct: Vec, v: int, i: int, L: Mat,
                  P: Mat, G: Mat)
    requires 0 <= targets(i) < v
    requires P == Softmax(exp, logits, lse) && G == FullGrad(exp, logits, lse, targets, ct)
    ensures ScaledBy(RowDot(v, G, L, i), ct(i), RowDot(v, P, L, i) - L(i, targets(i)))
  {
    var hot: Vec := c => if c == targets(i) then L(i, c) else 0.0;
    SumSingle(0, v, targets(i), hot);
    forall c ensures GradEntry(L, P, G, ct(i), i, c, hot(c)) {
      GradAt(exp, logits, lse, targets, ct, i, c, L, P, G, hot(c));
    }
    GradSums(v, i, L, P, G, ct(i), hot);
  }

  ghost predicate GradEntry(L: Mat, P: Mat, G: Mat, ct: real, i: int, c: int, hot: real) {
    ScaledBy(G(i, c) * L(i, c), ct, P(i, c) * L(i, c) - hot)
  }

  lemma GradSums(v: int, i: int, L: Mat, P: Mat, G: Mat, ct: real, hot: Vec)
    requires forall c :: GradEntry(L, P, G, ct, i, c, hot(c))
    ensures ScaledBy(RowDot(v, G, L, i), ct, RowDot(v, P, L, i) - Sum(0, v, hot))
  {
    var all: Vec := c => P(i, c) * L(i, c);
    var rest: Vec := c => all(c) - hot(c);
    forall c ensures ScaledBy(G(i, c) * L(i, c), ct, rest(c)) { assert GradEntry(L, P, G, ct, i, c, hot(c)); }
    SumScale(0, v, ct, rest, c => G(i, c) * L(i, c));
    SumAdd(0, v, rest, hot, all);
    SumCong(0, v, all, c => P(i, c) * L(i, c));
    assert Sum(0, v, rest) == RowDot(v, P, L, i) - Sum(0, v, hot);
  }

  lemma GradAt(exp: real -> real, logits: Mat, lse: ExtVec, targets: Targets, ct: Vec, i: int, c: int, L: Mat, P: Mat,
               G: Mat, hot: real)
    requires P == Softmax(exp, logits, lse) && G == FullGrad(exp, logits, lse, targets, ct)
    requires hot == if c == targets(i) then L(i, c) else 0.0
    ensures GradEntry(L, P, G, ct(i), i, c, hot)
  {
    GradTerm(P(i, c), if c == targets(i) then 1.0 else 0.0, ct(i), L(i, c), G(i, c), hot);
  }

  lemma GradTerm(p: real, one: real, ct: real, l: real, g: real, hot: real)
    requires g == (p - one) * ct && hot == one * l
    ensures ScaledBy(g * l, ct, p * l - hot)
  {
    assert g * l == ct * (p * l) - ct * (one * l);
  }

  /** In range, every row of (p - onehot) * ct sums to zero. */
  lemma GradRowsSumToZero(exp: real -> real, log: real -> real, v: int, logits: Mat, lse: ExtVec, targets: Targets,
                          ct: Vec, i: int, G: Mat)
    requires IsExpLog(exp, log) && v >= 1 && 0 <= targets(i) < v
    requires lse(i) == FullLse(exp, log, v, logits)(i) && G == FullGrad(exp, logits, lse, targets, ct)
    ensures Sum(0, v, c => G(i, c)) == 0.0
  {
    var ones: Mat, P := (i, c) => 1.0, Softmax(exp, logits, lse);
    GradSplit(exp, logits, lse, targets, ct, v, i, ones, P, G);
    ProbsSumToOne(exp, log, v, logits, lse, i, P, ones);
    SumCong(0, v, c => G(i, c) * ones(i, c), c => G(i, c));
    Vanishes(RowDot(v, G, ones, i), ct(i), RowDot(v, P, ones, i) - ones(i, targets(i)));
  }

  lemma Vanishes(x: real, m: real, y: real)
    requires ScaledBy(x, m, y) && y == 0.0
    ensures x == 0.0
  {
  }

  lemma SoftmaxShares(exp: real -> real, log: real -> real, v: int, logits: Mat, lse: ExtVec, i: int, P: Mat, z: real)
    requires IsExpLog(exp, log) && v >= 1 && z == Sum(0, v, ExpRow(exp, logits, i))
    requires lse(i) == FullLse(exp, log, v, logits)(i) && P == Softmax(exp, logits, lse)
    ensures z > 0.0 && forall c :: ShareAt(P(i, c), ExpRow(exp, logits, i)(c), z)
  {
    Denominator(exp, log, v, logits, i, z);
    forall c ensures ShareAt(P(i, c), ExpRow(exp, logits, i)(c), z) {
      SoftmaxShare(exp, log, v, logits, lse, i, c, z);
    }
  }

  lemma ProbsSumToOne(exp: real -> real, log: real -> real, v: int, logits: Mat, lse: ExtVec, i: int, P: Mat, ones: Mat)
    requires IsExpLog(exp, log) && v >= 1
    requires lse(i) == FullLse(exp, log, v, logits)(i) && P == Softmax(exp, logits, lse)
    requires forall c :: ones(i, c) == 1.0
    ensures RowDot(v, P, ones, i) == 1.0
  {
    var W := ExpRow(exp, logits, i);
    var z := Sum(0, v, W);
    SoftmaxShares(exp, log, v, logits, lse, i, P, z);
    WeightedTangent(v, W, ones, P, i, z, W);
    Unit(z, RowDot(v, P, ones, i));
  }

  lemma Unit(z: real, r: real)
    requires z > 0.0 && z / z == r
    ensures r == 1.0
  {
  }

  function NllTangent(ct: Vec, nll: int -> Dual): Vec {
    i => ct(i) * nll(i).d
  }

  lemma TangentRow(ct: Vec, nll: int -> Dual, i: int, value: real, tangent: real, row: real)
    requires HasParts(nll(i), value, tangent) && ScaledBy(row, ct(i), tangent)
    ensures NllTangent(ct, nll)(i) == row
  {
  }

  lemma NllRow(exp: real -> real, v: int, targets: Targets, lse: ExtVec, ct: Vec, i: int, nll: int -> Dual, G: Mat,
               L: Mat, logits: Mat, P: Mat, value: Vec)
    requires RowParts(nll, value, v, P, L, targets, i)
    requires P == Softmax(exp, logits, lse) && G == FullGrad(exp, logits, lse, targets, ct)
    ensures NllTangent(ct, nll)(i) == RowDot(v, G, L, i)
  {
    GradSplit(exp, logits, lse, targets, ct, v, i, L, P, G);
    TangentRow(ct, nll, i, value(i), RowDot(v, P, L, i) - L(i, targets(i)), RowDot(v, G, L, i));
  }

  lemma LogitAdjoint(n: int, d: int, v: int, G: Mat, hidden: Mat, w: Mat, dh: Mat, dw: Mat)
    ensures Inner(n, v, G, LogitTangent(d, hidden, w, dh, dw))
         == Inner(n, d, Mul(v, G, w), dh) + Inner(v, d, Mul(n, Transposed(G), hidden), dw)
  {
    InnerAdd(n, v, G, Mul(d, dh, Transposed(w)), Mul(d, hidden, Transposed(dw)), LogitTangent(d, hidden, w, dh, dw));
    LeftFactorAdjoint(n, v, d, G, dh, w);
    RightFactorAdjoint(n, v, d, G, hidden, dw);
  }

  /**
   The gradients chunked_backward computes are the adjoint of the naive loss's derivative: for
   every cotangent and every direction, the cotangent applied to the derivative of the losses
   is <d_hidden, dh> + <d_w, dw>.
   */
  lemma CrossEntropyIsAdjoint(exp: real -> real, log: real -> real, n: int, d: int, v: int, hidden: Mat, w: Mat,
                              dh: Mat, dw: Mat, targets: Targets, lse: ExtVec, ct: Vec, nll: int -> Dual, G: Mat,
                              logits: Mat)
    requires IsExpLog(exp, log) && v >= 1 && logits == Logits(d, hidden, w)
    requires forall i :: 0 <= i < n ==> RowReady(exp, log, v, logits, targets, lse, i)
    requires nll == DualNaive(exp, log, d, v, Along(hidden, dh), Along(w, dw), targets)
    requires G == FullGrad(exp, logits, lse, targets, ct)
    ensures Sum(0, n, NllTangent(ct, nll))
         == Inner(n, d, Mul(v, G, w), dh) + Inner(v, d, Mul(n, Transposed(G), hidden), dw)
  {
    var L, P := LogitTangent(d, hidden, w, dh, dw), Softmax(exp, logits, lse);
    var value := NaiveNll(exp, log, d, v, hidden, w, targets);
    NaiveRows(exp, log, n, d, v, hidden, w, dh, dw, targets, lse, P, L, logits,
              DualLogits(d, Along(hidden, dh), Along(w, dw)), nll, value);
    NllRows(exp, n, v, targets, lse, ct, nll, G, logits, L, P, value);
    LogitAdjoint(n, d, v, G, hidden, w, dh, dw);
  }

  lemma NaiveRows(exp: real -> real, log: real -> real, n: int, d: int, v: int, hidden: Mat, w: Mat, dh: Mat, dw: Mat,
                  targets: Targets, lse: ExtVec, P: Mat, L: Mat, logits: Mat, x: DualMat, nll: int -> Dual, value: Vec)
    requires IsExpLog(exp, log) && v >= 1 && logits == Logits(d, hidden, w)
    requires x == DualLogits(d, Along(hidden, dh), Along(w, dw)) && L == LogitTangent(d, hidden, w, dh, dw)
    requires P == Softmax(exp, logits, lse)
    requires nll == DualNaive(exp, log, d, v, Along(hidden, dh), Along(w, dw), targets)
    requires value == NaiveNll(exp, log, d, v, hidden, w, targets)
    requires forall i :: 0 <= i < n ==> RowReady(exp, log, v, logits, targets, lse, i)
    ensures forall i :: 0 <= i < n ==> RowParts(nll, value, v, P, L, targets, i)
  {
    forall i | 0 <= i < n ensures RowParts(nll, value, v, P, L, targets, i) {
      DualNaiveParts(exp, log, d, v, hidden, w, dh, dw, targets, lse, P, L, i, logits, x, nll, value);
    }
  }

  lemma NllRows(exp: real -> real, n: int, v: int, targets: Targets, lse: ExtVec, ct: Vec, nll: int -> Dual, G: Mat,
                logits: Mat, L: Mat, P: Mat, value: Vec)
    requires forall i :: 0 <= i < n ==> RowParts(nll, value, v, P, L, targets, i)
    requires P == Softmax(exp, logits, lse) && G == FullGrad(exp, logits, lse, targets, ct)
    ensures Sum(0, n, NllTangent(ct, nll)) == Inner(n, v, G, L)
  {
    forall i | 0 <= i < n ensures NllTangent(ct, nll)(i) == RowDots(v, G, L)(i) {
      NllRow(exp, v, targets, lse, ct, i, nll, G, L, logits, P, value);
    }
    SumCong(0, n, NllTangent(ct, nll), RowDots(v, G, L));
  }

  // ----- the registered vjp -----

  /** The dense head's weight callback: w[v0:v1] */
  function DenseRows(w: Mat): Chunks {
    (v0, v1) => (c, e) => w(v0 + c, e)
  }

  lemma DenseRowsAreSource(w: Mat)
    ensures IsWeightSource(DenseRows(w), w)
  {
    forall v0, v1, c, e ensures WeightAt(DenseRows(w), w, v0, v1, c, e) {}
  }

  /** The cotangent applied to the naive loss's derivative along (dh, dw) is <dHidden, dh> + <dW, dw>. */
  ghost predicate PairsWithDerivative(exp: real -> real, log: real -> real, n: int, d: int, v: int, hidden: Mat, w: Mat,
                                      targets: Targets, ct: Vec, dHidden: Mat, dW: Mat, dh: Mat, dw: Mat)
  {
    Sum(0, n, NllTangent(ct, DualNaive(exp, log, d, v, Along(hidden, dh), Along(w, dw), targets)))
    == Inner(n, d, dHidden, dh) + Inner(v, d, dW, dw)
  }

  /**
   dense_ce_vjp: the logsumexp streamed again, then chunked_backward. For every tile size the two
   gradients it returns are the adjoint of the naive loss's derivative.
   */
  method DenseCeVjp(exp: real -> real, log: real -> real, n: nat, d: nat, v: nat, hidden: Mat, w: Mat, targets: Targets,
                    ct: Vec, chunkSize: nat)
    returns (dHidden: Mat, dW: Mat)
    requires IsExpLog(exp, log) && v >= 1 && chunkSize >= 1
    requires forall i :: 0 <= i < n ==> 0 <= targets(i) < v
    ensures forall dh: Mat, dw: Mat ::
      PairsWithDerivative(exp, log, n, d, v, hidden, w, targets, ct, dHidden, dW, dh, dw)
  {
    ghost var logits := Logits(d, hidden, w);
    var mm, wc := DenseChunks(d, hidden, w), DenseRows(w);
    DenseIsSource(d, hidden, w);
    DenseRowsAreSource(w);
    var lse, tgt := StreamedLseAndTarget(exp, log, mm, targets, v, chunkSize, logits);
    var rows;
    dHidden, rows := ChunkedBackward(exp, hidden, n, mm, wc, targets, lse, ct, v, chunkSize, true, logits, w);
    dW := rows.value;
    ghost var G := FullGrad(exp, logits, lse, targets, ct);
    forall i | 0 <= i < n ensures RowReady(exp, log, v, logits, targets, lse, i) {
      assert Streamed(exp, log, logits, targets, v, lse, tgt, i);
    }
    forall dh: Mat, dw: Mat
      ensures PairsWithDerivative(exp, log, n, d, v, hidden, w, targets, ct, dHidden, dW, dh, dw)
    {
      VjpPairs(exp, log, n, d, v, hidden, w, targets, lse, ct, dHidden, dW, dh, dw, G, logits);
    }
  }

  lemma VjpPairs(exp: real -> real, log: real -> real, n: nat, d: nat, v: nat, hidden: Mat, w: Mat, targets: Targets,
                 lse: ExtVec, ct: Vec, dHidden: Mat, dW: Mat, dh: Mat, dw: Mat, G: Mat, logits: Mat)
    requires IsExpLog(exp, log) && v >= 1 && logits == Logits(d, hidden, w)
    requires forall i :: 0 <= i < n ==> RowReady(exp, log, v, logits, targets, lse, i)
    requires G == FullGrad(exp, logits, lse, targets, ct) && Accumulated(G, w, v, dHidden)
    requires forall c, e :: 0 <= c < v ==> dW(c, e) == Mul(n, Transposed(G), hidden)(c, e)
    ensures PairsWithDerivative(exp, log, n, d, v, hidden, w, targets, ct, dHidden, dW, dh, dw)
  {
    var nll := DualNaive(exp, log, d, v, Along(hidden, dh), Along(w, dw), targets);
    CrossEntropyIsAdjoint(exp, log, n, d, v, hidden, w, dh, dw, targets, lse, ct, nll, G, logits);
    InnerCong(n, d, dHidden, Mul(v, G, w), dh, dh);
    InnerCong(v, d, dW, Mul(n, Transposed(G), hidden), dw, dw);
  }
}
