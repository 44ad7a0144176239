/**
 The hand-written attention backward is the adjoint of the forward's derivative, for one head
 and for grouped query heads.
 */
module AttentionAdjoint {
  import opened Results
  import opened Integers
  import opened RealSums
  import opened ExpLog
  import opened TriangularSolve
  import opened InnerProduct
  import opened DualNumbers
  import opened Attention

  // ----- the derivative of the forward, read off its dual run -----

  /** The derivative of the raw scores. */
  function ScoreTangent(D: int, scale: real, q: Mat, k: Mat, dq: Mat, dk: Mat): Mat {
    (i, j) => (Mul(D, dq, Transposed(k))(i, j) + Mul(D, q, Transposed(dk))(i, j)) * scale
  }

  /** The softmax differential: each probability moves by its share of the centred score. */
  function ProbTangent(N: int, P: Mat, dS: Mat): Mat {
    (i, j) => P(i, j) * (dS(i, j) - RowDot(N, P, dS, i))
  }

  lemma DualScoreParts(D: int, scale: real, q: Mat, k: Mat, dq: Mat, dk: Mat, i: int, j: int)
    ensures HasParts(DualScores(D, scale, Along(q, dq), Along(k, dk))(i, j),
                     Raw(D, scale, q, k)(i, j), ScoreTangent(D, scale, q, k, dq, dk)(i, j))
  {
    var Y: DualMat := (a, b) => Along(k, dk)(b, a);
    forall c ensures HasParts(Along(q, dq)(i, c), q(i, c), dq(i, c)) {}
    forall c ensures HasParts(Y(c, j), Transposed(k)(c, j), Transposed(dk)(c, j)) {
      assert Y(c, j) == Along(k, dk)(j, c);
    }
    DualMulParts(D, q, dq, Transposed(k), Transposed(dk), Along(q, dq), Y, i, j);
    assert Mul(D, q, Transposed(k))(i, j) * 0.0 == 0.0;
  }

  lemma DualWeightParts(exp: real -> real, mk: Masking, raw: real, dS: real, s: DualMat, i: int, j: int, w: real)
    requires HasParts(s(i, j), raw, dS) && w == if Visible(mk, i, j) then exp(raw) else 0.0
    ensures HasParts(DualWeights(exp, mk, s, i)(j), w, w * dS)
  {
  }

  lemma DualLseParts(exp: real -> real, log: real -> real, N: int, mk: Masking, raw: Mat, dS: Mat, s: DualMat, P: Mat,
                     i: int, z: real)
    requires z == Sum(0, N, VisibleWeights(exp, mk, raw, i)) && z > 0.0
    requires forall j :: 0 <= j < N ==> HasParts(s(i, j), raw(i, j), dS(i, j))
    requires forall j :: 0 <= j < N ==> ShareAt(P(i, j), VisibleWeights(exp, mk, raw, i)(j), z)
    ensures HasParts(DualLse(exp, log, N, mk, s, i), log(z), RowDot(N, P, dS, i))
  {
    var W := VisibleWeights(exp, mk, raw, i);
    var t: Vec := j => W(j) * dS(i, j);
    DualDenominator(exp, N, mk, raw, dS, s, i, W, t);
    WeightedTangent(N, W, dS, P, i, z, t);
    LogSumParts(log, DualSum(0, N, DualWeights(exp, mk, s, i)), z, Sum(0, N, t), RowDot(N, P, dS, i));
  }

  lemma DualDenominator(exp: real -> real, N: int, mk: Masking, raw: Mat, dS: Mat, s: DualMat, i: int, W: Vec, t: Vec)
    requires W == VisibleWeights(exp, mk, raw, i) && forall j :: t(j) == W(j) * dS(i, j)
    requires forall j :: 0 <= j < N ==> HasParts(s(i, j), raw(i, j), dS(i, j))
    ensures HasParts(DualSum(0, N, DualWeights(exp, mk, s, i)), Sum(0, N, W), Sum(0, N, t))
  {
    forall j | 0 <= j < N ensures HasParts(DualWeights(exp, mk, s, i)(j), W(j), t(j)) {
      DualWeightParts(exp, mk, raw(i, j), dS(i, j), s, i, j, W(j));
    }
    DualSumParts(0, N, DualWeights(exp, mk, s, i), W, t);
  }

  lemma ShareOfExp(exp: real -> real, log: real -> real, x: real, z: real, p: real)
    requires IsExpLog(exp, log) && z > 0.0 && ShareAt(p, exp(x), z)
    ensures exp(x - log(z)) == p
  {
    ExpSub(exp, log, x, log(z));
    ExpOfLog(exp, log, z);
    Cancel(z, p, exp(x));
  }

  lemma DualProbParts(exp: real -> real, log: real -> real, N: int, mk: Masking, raw: Mat, dS: Mat, s: DualMat, P: Mat,
                      i: int, j: int, z: real, l: Dual)
    requires IsExpLog(exp, log) && z > 0.0
    requires l == DualLse(exp, log, N, mk, s, i) && HasParts(l, log(z), RowDot(N, P, dS, i))
    requires HasParts(s(i, j), raw(i, j), dS(i, j))
    requires ShareAt(P(i, j), VisibleWeights(exp, mk, raw, i)(j), z)
    ensures HasParts(DualProbs(exp, log, N, mk, s)(i, j), P(i, j), ProbTangent(N, P, dS)(i, j))
  {
    var r, p := RowDot(N, P, dS, i), ProbTangent(N, P, dS)(i, j);
    assert IsProbTangent(p, P(i, j), dS(i, j), r);
    DualProbAt(exp, log, raw(i, j), dS(i, j), s(i, j), l, P(i, j), VisibleWeights(exp, mk, raw, i)(j), z, r,
               Visible(mk, i, j), p);
  }

  ghost predicate IsProbTangent(dp: real, p: real, dS: real, r: real) {
    dp == p * (dS - r)
  }

  lemma DualProbAt(exp: real -> real, log: real -> real, raw: real, dS: real, s: Dual, l: Dual, p: real, w: real,
                   z: real, r: real, visible: bool, dp: real)
    requires IsExpLog(exp, log) && z > 0.0 && IsProbTangent(dp, p, dS, r)
    requires HasParts(s, raw, dS) && HasParts(l, log(z), r) && ShareAt(p, w, z)
    requires w == if visible then exp(raw) else 0.0
    ensures HasParts(if visible then Exp(exp, Minus(s, l)) else Constant(0.0), p, dp)
  {
    if visible {
      ShareOfExp(exp, log, raw, z, p);
    } else {
      Cancel(z, p, 0.0);
    }
  }

  /** What the forward's derivative is, in closed form. */
  function Tangent(N: int, P: Mat, dS: Mat, v: Mat, dv: Mat): Mat {
    Add(Mul(N, ProbTangent(N, P, dS), v), Mul(N, P, dv))
  }

  lemma ProbShare(exp: real -> real, log: real -> real, N: int, mk: Masking, raw: Mat, i: int, j: int, P: Mat, z: real)
    requires IsExpLog(exp, log) && mk.Valid() && 0 <= i < N
    requires P == Probs(exp, ForwardScores(mk, raw), Lse(exp, log, N, ForwardScores(mk, raw)))
    requires z == Sum(0, N, VisibleWeights(exp, mk, raw, i))
    ensures ShareAt(P(i, j), VisibleWeights(exp, mk, raw, i)(j), z)
  {
    ProbsAreShares(exp, log, N, mk, raw, i, j, Lse(exp, log, N, ForwardScores(mk, raw)));
    Undivide(VisibleWeights(exp, mk, raw, i)(j), z, P(i, j));
  }

  /** The dual run computes the forward's output together with its derivative. */
  lemma DualForwardParts(exp: real -> real, log: real -> real, N: int, D: int, scale: real, mk: Masking,
                         q: Mat, k: Mat, v: Mat, dq: Mat, dk: Mat, dv: Mat, i: int, e: int)
    requires IsExpLog(exp, log) && mk.Valid() && 0 <= i < N
    ensures HasParts(DualForward(exp, log, N, D, scale, mk, Along(q, dq), Along(k, dk), Along(v, dv))(i, e),
                     HeadForward(exp, log, N, D, scale, mk, q, k, v).o(i, e),
                     Tangent(N, HeadProbs(exp, log, N, mk, Raw(D, scale, q, k)),
                             ScoreTangent(D, scale, q, k, dq, dk), v, dv)(i, e))
  {
    var raw, dS := Raw(D, scale, q, k), ScoreTangent(D, scale, q, k, dq, dk);
    var P, s := HeadProbs(exp, log, N, mk, Raw(D, scale, q, k)), DualScores(D, scale, Along(q, dq), Along(k, dk));
    var z := Sum(0, N, VisibleWeights(exp, mk, raw, i));
    forall j | 0 <= j < N
      ensures HasParts(s(i, j), raw(i, j), dS(i, j))
      ensures ShareAt(P(i, j), VisibleWeights(exp, mk, raw, i)(j), z)
    {
      DualScoreParts(D, scale, q, k, dq, dk, i, j);
      ProbShare(exp, log, N, mk, raw, i, j, P, z);
    }
    VisibleSum(exp, log, N, mk, raw, i);
    var X, l := DualProbs(exp, log, N, mk, s), DualLse(exp, log, N, mk, s, i);
    DualLseParts(exp, log, N, mk, raw, dS, s, P, i, z);
    forall j | 0 <= j < N ensures HasParts(X(i, j), P(i, j), ProbTangent(N, P, dS)(i, j)) {
      DualProbParts(exp, log, N, mk, raw, dS, s, P, i, j, z, l);
    }
    forall j ensures HasParts(Along(v, dv)(j, e), v(j, e), dv(j, e)) {}
    DualMulParts(N, P, ProbTangent(N, P, dS), v, dv, X, Along(v, dv), i, e);
  }

  // ----- the softmax differential is self-adjoint, row by row -----

  function Triples(A: Mat, B: Mat, C: Mat, i: int): Vec {
    j => A(i, j) * B(i, j) * C(i, j)
  }

  /** A row centred by r and weighted by p. */
  ghost predicate Centred(t: real, p: real, x: real, r: real) {
    t == p * (x - r)
  }

  ghost predicate Corrected(total: real, sum: real, r: real, weight: real) {
    total == sum - r * weight
  }

  lemma {:induction false} CentredRight(n: int, P: Mat, gP: Mat, dS: Mat, T: Mat, r: real, i: int)
    requires forall j :: 0 <= j < n ==> Centred(T(i, j), P(i, j), dS(i, j), r)
    ensures Corrected(RowDot(n, gP, T, i), Sum(0, n, Triples(P, gP, dS, i)), r, RowDot(n, gP, P, i))
    decreases n
  {
    if n > 0 {
      var j := n - 1;
      CentredRight(j, P, gP, dS, T, r, i);
      RightTerm(P(i, j), gP(i, j), dS(i, j), T(i, j), r, Sum(0, j, Triples(P, gP, dS, i)), RowDot(j, gP, P, i),
                RowDot(j, gP, T, i));
    }
  }

  lemma {:induction false} CentredLeft(n: int, P: Mat, gP: Mat, dS: Mat, E: Mat, d: real, i: int)
    requires forall j :: 0 <= j < n ==> Centred(E(i, j), P(i, j), gP(i, j), d)
    ensures Corrected(RowDot(n, E, dS, i), Sum(0, n, Triples(P, gP, dS, i)), d, RowDot(n, P, dS, i))
    decreases n
  {
    if n > 0 {
      var j := n - 1;
      CentredLeft(j, P, gP, dS, E, d, i);
      LeftTerm(P(i, j), gP(i, j), dS(i, j), E(i, j), d, Sum(0, j, Triples(P, gP, dS, i)), RowDot(j, P, dS, i),
               RowDot(j, E, dS, i));
    }
  }

  lemma RightTerm(p: real, g: real, s: real, t: real, r: real, q: real, a: real, l: real)
    requires Centred(t, p, s, r) && Corrected(l, q, r, a)
    ensures Corrected(l + g * t, q + p * g * s, r, a + g * p)
  {
    assert g * t == g * p * s - g * p * r;
  }

  lemma LeftTerm(p: real, g: real, s: real, e: real, d: real, q: real, b: real, l: real)
    requires Centred(e, p, g, d) && Corrected(l, q, d, b)
    ensures Corrected(l + e * s, q + p * g * s, d, b + p * s)
  {
    assert e * s == p * g * s - p * d * s;
  }

  lemma SoftmaxRow(N: int, P: Mat, gP: Mat, dS: Mat, d: Vec, i: int)
    requires d(i) == RowDot(N, gP, P, i)
    ensures RowDot(N, gP, ProbTangent(N, P, dS), i) == RowDot(N, ScoreGrad(P, gP, d), dS, i)
  {
    CentredRight(N, P, gP, dS, ProbTangent(N, P, dS), RowDot(N, P, dS, i), i);
    CentredLeft(N, P, gP, dS, ScoreGrad(P, gP, d), d(i), i);
    SameCorrection(RowDot(N, gP, ProbTangent(N, P, dS), i), RowDot(N, ScoreGrad(P, gP, d), dS, i),
                   Sum(0, N, Triples(P, gP, dS, i)), RowDot(N, P, dS, i), d(i));
  }

  lemma SameCorrection(x: real, y: real, sum: real, r: real, d: real)
    requires Corrected(x, sum, r, d) && Corrected(y, sum, d, r)
    ensures x == y
  {
  }

  /** <dP, softmax differential of dS> = <dS_code, dS>, with the row correction the code uses. */
  lemma SoftmaxAdjoint(N: int, D: int, P: Mat, v: Mat, dO: Mat, o: Mat, dS: Mat, dP: Mat)
    requires forall i, e :: 0 <= i < N ==> o(i, e) == Mul(N, P, v)(i, e)
    requires dP == Mul(D, dO, Transposed(v))
    ensures Inner(N, N, dP, ProbTangent(N, P, dS)) == Inner(N, N, ScoreGrad(P, dP, BwdD(D, dO, o)), dS)
  {
    var d := BwdD(D, dO, o);
    forall i | 0 <= i < N
      ensures RowDots(N, dP, ProbTangent(N, P, dS))(i) == RowDots(N, ScoreGrad(P, dP, d), dS)(i)
    {
      RowDotCong(D, dO, dO, o, Mul(N, P, v), i);
      RowMul(N, D, dO, P, v, i, Mul(N, P, v), dP);
      SoftmaxRow(N, P, dP, dS, d, i);
    }
    SumCong(0, N, RowDots(N, dP, ProbTangent(N, P, dS)), RowDots(N, ScoreGrad(P, dP, d), dS));
  }

  // ----- the score matmuls -----

  lemma ScoreAdjoint(N: int, D: int, scale: real, E: Mat, q: Mat, k: Mat, dq: Mat, dk: Mat)
    ensures Inner(N, N, E, ScoreTangent(D, scale, q, k, dq, dk))
         == Inner(N, D, Times(scale, Mul(N, E, k)), dq) + Inner(N, D, Times(scale, Mul(N, Transposed(E), q)), dk)
  {
    var A, B := Mul(D, dq, Transposed(k)), Mul(D, q, Transposed(dk));
    var S := ScoreTangent(D, scale, q, k, dq, dk);
    InnerCong(N, N, E, E, S, Times(scale, Add(A, B)));
    InnerScale(N, N, scale, E, Add(A, B));
    InnerAdd(N, N, E, A, B, Add(A, B));
    LeftFactorAdjoint(N, N, D, E, dq, k);
    RightFactorAdjoint(N, N, D, E, q, dk);
    InnerScaleLeft(N, D, scale, Mul(N, E, k), dq);
    InnerScaleLeft(N, D, scale, Mul(N, Transposed(E), q), dk);
    Spread(scale, Inner(N, N, E, A), Inner(N, N, E, B), Inner(N, N, E, S),
           Inner(N, D, Times(scale, Mul(N, E, k)), dq), Inner(N, D, Times(scale, Mul(N, Transposed(E), q)), dk));
  }

  lemma Spread(c: real, a: real, b: real, total: real, x: real, y: real)
    requires ScaledBy(total, c, a + b) && ScaledBy(x, c, a) && ScaledBy(y, c, b)
    ensures total == x + y
  {
  }

  // ----- one head -----

  lemma TangentAdjoint(N: int, D: int, scale: real, P: Mat, q: Mat, k: Mat, v: Mat, o: Mat, dO: Mat,
                       dq: Mat, dk: Mat, dv: Mat, E: Mat)
    requires forall i, e :: 0 <= i < N ==> o(i, e) == Mul(N, P, v)(i, e)
    requires E == ScoreGrad(P, Mul(D, dO, Transposed(v)), BwdD(D, dO, o))
    ensures Inner(N, D, dO, Tangent(N, P, ScoreTangent(D, scale, q, k, dq, dk), v, dv))
         == Inner(N, D, Times(scale, Mul(N, E, k)), dq)
          + Inner(N, D, Times(scale, Mul(N, Transposed(E), q)), dk)
          + Inner(N, D, Mul(N, Transposed(P), dO), dv)
  {
    var dS := ScoreTangent(D, scale, q, k, dq, dk);
    var T, dP := ProbTangent(N, P, dS), Mul(D, dO, Transposed(v));
    InnerAdd(N, D, dO, Mul(N, T, v), Mul(N, P, dv), Tangent(N, P, dS, v, dv));
    InnerMulRight(N, N, D, dO, T, v);
    InnerMulLeft(N, N, D, dO, P, dv);
    SoftmaxAdjoint(N, D, P, v, dO, o, dS, dP);
    ScoreAdjoint(N, D, scale, E, q, k, dq, dk);
  }

  /** The derivative of the forward in the direction (dq, dk, dv), from its dual run. */
  function Derivative(exp: real -> real, log: real -> real, N: int, D: int, scale: real, mk: Masking,
                      q: Mat, k: Mat, v: Mat, dq: Mat, dk: Mat, dv: Mat): Mat
  {
    (i, e) => DualForward(exp, log, N, D, scale, mk, Along(q, dq), Along(k, dk), Along(v, dv))(i, e).d
  }

  /**
   The backward is the adjoint of the forward's derivative: for every cotangent dO and every
   direction, <dO, dOut> = <dQ, dq> + <dK, dk> + <dV, dv>.
   */
  lemma HeadAdjoint(exp: real -> real, log: real -> real, N: int, D: int, scale: real, mk: Masking,
                    q: Mat, k: Mat, v: Mat, dO: Mat, dq: Mat, dk: Mat, dv: Mat, fwd: Output, gr: Grads)
    requires IsExpLog(exp, log) && mk.Valid()
    requires fwd == HeadForward(exp, log, N, D, scale, mk, q, k, v)
    requires gr == HeadBackward(exp, N, D, scale, mk, q, k, v, fwd.o, fwd.lse, dO)
    ensures Inner(N, D, dO, Derivative(exp, log, N, D, scale, mk, q, k, v, dq, dk, dv))
         == Inner(N, D, gr.dq, dq) + Inner(N, D, gr.dk, dk) + Inner(N, D, gr.dv, dv)
  {
    var P, raw := HeadProbs(exp, log, N, mk, Raw(D, scale, q, k)), Raw(D, scale, q, k);
    var dS := ScoreTangent(D, scale, q, k, dq, dk);
    var dOut := Derivative(exp, log, N, D, scale, mk, q, k, v, dq, dk, dv);
    forall i, e | 0 <= i < N && 0 <= e < D ensures dOut(i, e) == Tangent(N, P, dS, v, dv)(i, e) {
      DualForwardParts(exp, log, N, D, scale, mk, q, k, v, dq, dk, dv, i, e);
    }
    InnerCong(N, D, dO, dO, dOut, Tangent(N, P, dS, v, dv));
    var E := ScoreGrad(P, Mul(D, dO, Transposed(v)), BwdD(D, dO, fwd.o));
    TangentAdjoint(N, D, scale, P, q, k, v, fwd.o, dO, dq, dk, dv, E);
    BackwardUsesForwardProbs(exp, log, N, D, scale, mk, q, k, v, dO, fwd, gr, P, E);
    InnerCong(N, D, gr.dq, Times(scale, Mul(N, E, k)), dq, dq);
    InnerCong(N, D, gr.dk, Times(scale, Mul(N, Transposed(E), q)), dk, dk);
    InnerCong(N, D, gr.dv, Mul(N, Transposed(P), dO), dv, dv);
  }

  /** Rebuilt from the saved logsumexp, the backward's probabilities are the forward's. */
  lemma BackwardUsesForwardProbs(exp: real -> real, log: real -> real, N: int, D: int, scale: real, mk: Masking,
                                 q: Mat, k: Mat, v: Mat, dO: Mat, fwd: Output, gr: Grads, P: Mat, E: Mat)
    requires IsExpLog(exp, log) && mk.Valid()
    requires fwd == HeadForward(exp, log, N, D, scale, mk, q, k, v)
    requires gr == HeadBackward(exp, N, D, scale, mk, q, k, v, fwd.o, fwd.lse, dO)
    requires P == HeadProbs(exp, log, N, mk, Raw(D, scale, q, k))
    requires E == ScoreGrad(P, Mul(D, dO, Transposed(v)), BwdD(D, dO, fwd.o))
    ensures SameOn(N, D, gr.dq, Times(scale, Mul(N, E, k)))
    ensures SameOn(N, D, gr.dk, Times(scale, Mul(N, Transposed(E), q)))
    ensures SameOn(N, D, gr.dv, Mul(N, Transposed(P), dO))
  {
    var raw := Raw(D, scale, q, k);
    var p := Probs(exp, BackwardScores(mk, raw), fwd.lse);
    forall i, j | 0 <= i < N ensures p(i, j) == P(i, j) {
      ProbsAreShares(exp, log, N, mk, raw, i, j, fwd.lse);
    }
    var E' := ScoreGrad(p, Mul(D, dO, Transposed(v)), BwdD(D, dO, fwd.o));
    forall i, j | 0 <= i < N ensures E'(i, j) == E(i, j) {}
    TimesMulCong(N, D, scale, E', E, k);
    TransposedCong(N, E', E);
    TimesMulCong(N, D, scale, Transposed(E'), Transposed(E), q);
    forall i, e | 0 <= i < N ensures Mul(N, Transposed(p), dO)(i, e) == Mul(N, Transposed(P), dO)(i, e) {
      MulCong(N, Transposed(p), Transposed(P), dO, dO, i, e);
    }
  }

  lemma TransposedCong(N: int, A: Mat, B: Mat)
    requires SameOn(N, N, A, B)
    ensures SameOn(N, N, Transposed(A), Transposed(B))
  {
  }

  lemma TimesMulCong(N: int, D: int, c: real, A: Mat, B: Mat, x: Mat)
    requires SameOn(N, N, A, B)
    ensures SameOn(N, D, Times(c, Mul(N, A, x)), Times(c, Mul(N, B, x)))
  {
    forall i, e | 0 <= i < N && 0 <= e < D
      ensures Times(c, Mul(N, A, x))(i, e) == Times(c, Mul(N, B, x))(i, e)
    {
      MulCong(N, A, B, x, x, i, e);
    }
  }

  // ----- grouped query heads -----

  function Stacked(cnt: int, X: Heads): Mat {
    (j, d) => Sum(0, cnt, r => X(r)(j, d))
  }

  function Inners(n: int, m: int, X: Heads, Y: Heads): Vec {
    h => Inner(n, m, X(h), Y(h))
  }

  /** An inner product is linear in a sum of matrices. */
  lemma {:induction false} InnerStacked(n: int, m: int, cnt: nat, X: Heads, Y: Mat)
    ensures Inner(n, m, Stacked(cnt, X), Y) == Sum(0, cnt, Inners(n, m, X, r => Y))
  {
    var S := Stacked(cnt, X);
    if cnt == 0 {
      forall i | 0 <= i < n ensures RowDots(m, S, Y)(i) == 0.0 {
        SumZero(0, m, j => S(i, j) * Y(i, j));
      }
      SumZero(0, n, RowDots(m, S, Y));
    } else {
      var S', L := Stacked(cnt - 1, X), X(cnt - 1);
      InnerStacked(n, m, cnt - 1, X, Y);
      InnerSymmetric(n, m, S, Y);
      InnerAdd(n, m, Y, S', L, S);
      InnerSymmetric(n, m, Y, S');
      InnerSymmetric(n, m, Y, L);
    }
  }

  lemma GroupIndex(m: int, g: int, r: int)
    requires g >= 1 && 0 <= r < g
    ensures KvHeadFor(m * g + r, g) == m
  {
    DivMod(m * g + r, g, m, r);
  }

  /** Summing a kv head's gradient over its group is the adjoint of reading it from each query head. */
  lemma GroupAdjoint(n: int, m: int, Hkv: nat, g: nat, X: Heads, y: Heads, Y: Heads)
    requires g >= 1
    requires forall h :: Y(h) == y(KvHeadFor(h, g))
    ensures Sum(0, Hkv * g, Inners(n, m, X, Y)) == Sum(0, Hkv, Inners(n, m, GroupSum(g, X), y))
  {
    var F := Inners(n, m, X, Y);
    SumGroups(Hkv, g, F);
    forall u | 0 <= u < Hkv
      ensures Sum(0, g, r => F(u * g + r)) == Inners(n, m, GroupSum(g, X), y)(u)
    {
      OneGroup(n, m, g, X, y, Y, u, F, u * g);
    }
    SumCong(0, Hkv, u => Sum(0, g, r => F(u * g + r)), Inners(n, m, GroupSum(g, X), y));
  }

  lemma OneGroup(n: int, m: int, g: nat, X: Heads, y: Heads, Y: Heads, u: int, F: Vec, first: int)
    requires g >= 1 && first == u * g
    requires forall h :: Y(h) == y(KvHeadFor(h, g))
    requires F == Inners(n, m, X, Y)
    ensures Sum(0, g, r => F(first + r)) == Inner(n, m, GroupSum(g, X)(u), y(u))
  {
    var Z: Heads, W: Vec := r => X(first + r), r => F(first + r);
    InnerStacked(n, m, g, Z, y(u));
    var V := Inners(n, m, Z, r => y(u));
    forall r | 0 <= r < g ensures W(r) == V(r) { GroupMember(n, m, g, X, y, Y, u, r, first); }
    SumCong(0, g, W, V);
    SumCong(0, g, r => F(first + r), W);
    SameStack(n, m, g, X, u, Z, y(u), first);
  }

  lemma GroupMember(n: int, m: int, g: nat, X: Heads, y: Heads, Y: Heads, u: int, r: int, first: int)
    requires 0 <= r < g && first == u * g
    requires forall h :: Y(h) == y(KvHeadFor(h, g))
    ensures Inners(n, m, X, Y)(first + r) == Inner(n, m, X(first + r), y(u))
  {
    GroupIndex(u, g, r);
  }

  lemma SameStack(n: int, m: int, g: nat, X: Heads, u: int, Z: Heads, Y: Mat, first: int)
    requires first == u * g && forall r :: Z(r) == X(first + r)
    ensures Inner(n, m, GroupSum(g, X)(u), Y) == Inner(n, m, Stacked(g, Z), Y)
  {
    forall j, d | 0 <= j < n && 0 <= d < m ensures GroupSum(g, X)(u)(j, d) == Stacked(g, Z)(j, d) {
      SumCong(0, g, r => X(first + r)(j, d), r => Z(r)(j, d));
    }
    InnerCong(n, m, GroupSum(g, X)(u), Stacked(g, Z), Y, Y);
  }

  lemma GroupedAdjoint(exp: real -> real, log: real -> real, N: int, D: int, Hkv: nat, g: nat, scale: real,
                       mk: Masking, q: Heads, k: Heads, v: Heads, dO: Heads, dq: Heads, dk: Heads, dv: Heads,
                       fwd: int -> Attention.Output, gr: HeadGrads, dOut: Heads)
    requires IsExpLog(exp, log) && mk.Valid() && g >= 1 && Hkv >= 1
    requires Forward(exp, log, N, D, Hkv * g, Hkv, scale, mk, q, k, v) == Ok(fwd)
    requires gr == Backward(exp, N, D, g, scale, mk, q, k, v, fwd, dO)
    requires forall h :: dOut(h) == Derivative(exp, log, N, D, scale, mk, q(h), k(KvHeadFor(h, g)), v(KvHeadFor(h, g)),
                                               dq(h), dk(KvHeadFor(h, g)), dv(KvHeadFor(h, g)))
    ensures Sum(0, Hkv * g, Inners(N, D, dO, dOut))
         == Sum(0, Hkv * g, Inners(N, D, gr.dq, dq)) + Sum(0, Hkv, Inners(N, D, gr.dk, dk))
          + Sum(0, Hkv, Inners(N, D, gr.dv, dv))
  {
    var per := (h: int) => HeadBackward(exp, N, D, scale, mk, q(h), k(KvHeadFor(h, g)), v(KvHeadFor(h, g)),
                                        fwd(h).o, fwd(h).lse, dO(h));
    var pk: Heads, pv: Heads := h => per(h).dk, h => per(h).dv;
    var gk: Heads, gv: Heads := h => dk(KvHeadFor(h, g)), h => dv(KvHeadFor(h, g));
    assert (Hkv * g) / Hkv == g by { DivMod(Hkv * g, Hkv, g, 0); }
    var ik, iv := Inners(N, D, pk, gk), Inners(N, D, pv, gv);
    var kv: Vec := h => ik(h) + iv(h);
    forall h | 0 <= h < Hkv * g
      ensures Inners(N, D, dO, dOut)(h) == Inners(N, D, gr.dq, dq)(h) + kv(h)
    {
      var hk := KvHeadFor(h, g);
      assert fwd(h) == HeadForward(exp, log, N, D, scale, mk, q(h), k(hk), v(hk));
      HeadAdjoint(exp, log, N, D, scale, mk, q(h), k(hk), v(hk), dO(h), dq(h), dk(hk), dv(hk), fwd(h), per(h));
      assert dOut(h) == Derivative(exp, log, N, D, scale, mk, q(h), k(hk), v(hk), dq(h), dk(hk), dv(hk));
      assert gr.dq(h) == per(h).dq && pk(h) == per(h).dk && pv(h) == per(h).dv && gk(h) == dk(hk) && gv(h) == dv(hk);
      assert Inners(N, D, dO, dOut)(h) == Inner(N, D, dO(h), dOut(h));
      assert Inners(N, D, gr.dq, dq)(h) == Inner(N, D, gr.dq(h), dq(h));
      assert ik(h) == Inner(N, D, pk(h), gk(h)) && iv(h) == Inner(N, D, pv(h), gv(h));
    }
    SumAdd(0, Hkv * g, Inners(N, D, gr.dq, dq), kv, Inners(N, D, dO, dOut));
    SumAdd(0, Hkv * g, ik, iv, kv);
    GroupAdjoint(N, D, Hkv, g, pk, dk, gk);
    GroupAdjoint(N, D, Hkv, g, pv, dv, gv);
  }

  /**
   flash attention's backward over all heads, the gradients of every kv head accumulated over
   its contiguous group. For every group size the forward succeeds, and the backward from what it
   saved is the adjoint of the whole forward's derivative.
   */
  lemma BackwardIsAdjoint(exp: real -> real, log: real -> real, N: int, D: int, Hq: nat, Hkv: nat, g: nat, scale: real,
                          mk: Masking, q: Heads, k: Heads, v: Heads, dO: Heads, dq: Heads, dk: Heads, dv: Heads,
                          dOut: Heads)
    requires IsExpLog(exp, log) && mk.Valid() && Hkv >= 1 && g >= 1 && Hq >= 1 && Hq == Hkv * g
    requires forall h :: dOut(h) == Derivative(exp, log, N, D, scale, mk, q(h), k(h / g), v(h / g),
                                               dq(h), dk(h / g), dv(h / g))
    ensures Forward(exp, log, N, D, Hq, Hkv, scale, mk, q, k, v).Ok?
    ensures var fwd := Forward(exp, log, N, D, Hq, Hkv, scale, mk, q, k, v).value;
      var gr := Backward(exp, N, D, g, scale, mk, q, k, v, fwd, dO);
      Sum(0, Hq, Inners(N, D, dO, dOut))
      == Sum(0, Hq, Inners(N, D, gr.dq, dq)) + Sum(0, Hkv, Inners(N, D, gr.dk, dk))
       + Sum(0, Hkv, Inners(N, D, gr.dv, dv))
  {
    DivMod(Hkv * g, Hkv, g, 0);
    var fwd := Forward(exp, log, N, D, Hq, Hkv, scale, mk, q, k, v).value;
    forall h ensures dOut(h) == Derivative(exp, log, N, D, scale, mk, q(h), k(KvHeadFor(h, g)), v(KvHeadFor(h, g)),
                                           dq(h), dk(KvHeadFor(h, g)), dv(KvHeadFor(h, g))) {
      assert KvHeadFor(h, g) == h / g;
    }
    GroupedAdjoint(exp, log, N, D, Hkv, g, scale, mk, q, k, v, dO, dq, dk, dv, fwd,
                   Backward(exp, N, D, g, scale, mk, q, k, v, fwd, dO), dOut);
  }

  /** Every query head's output is the value of the dual forward on its own key/value head, h div (Hq div Hkv). */
  lemma ForwardIsDualValue(exp: real -> real, log: real -> real, N: int, D: int, Hq: nat, Hkv: nat, scale: real,
                           mk: Masking, q: Heads, k: Heads, v: Heads, dq: Heads, dk: Heads, dv: Heads,
                           fwd: int -> Attention.Output, h: int, i: int, e: int)
    requires IsExpLog(exp, log) && mk.Valid() && Hq >= 1 && Hkv >= 1 && Hq / Hkv >= 1
    requires 0 <= h < Hq && 0 <= i < N
    requires Forward(exp, log, N, D, Hq, Hkv, scale, mk, q, k, v) == Ok(fwd)
    ensures var m := h / (Hq / Hkv);
      fwd(h).o(i, e)
      == DualForward(exp, log, N, D, scale, mk, Along(q(h), dq(h)), Along(k(m), dk(m)), Along(v(m), dv(m)))(i, e).v
  {
    var m := h / (Hq / Hkv);
    DualForwardParts(exp, log, N, D, scale, mk, q(h), k(m), v(m), dq(h), dk(m), dv(m), i, e);
  }
}
