/**
 The attention oracle (attention/reference.py), its hand-written backward (attention/api.py)
 and the packed mask (attention/segments.py), for one batch row.

 A head is a matrix (position, feature). `N` positions, `D` features, `g` query heads per
 key/value head.
 */
module Attention {
  import opened Results
  import opened Options
  import opened RealSums
  import opened ExpLog
  import opened TriangularSolve
  import opened InnerProduct
  import opened DualNumbers
  import opened LogSumExps

  type Heads = int -> Mat

  datatype HeadCountError = HeadCountError

  /** `causal` and the segment ids of a packed row. Segments are only accepted with causal. */
  datatype Masking = Masking(causal: bool, seg: Option<int -> int>) {
    ghost predicate Valid() {
      seg.Some? ==> causal
    }
  }

  // ----- masks -----

  /** segment_allowed: same segment and not in the future. */
  predicate SegmentAllowed(seg: int -> int, i: int, j: int) {
    seg(i) == seg(j) && j <= i
  }

  /** triu(-inf, k=1) */
  function FutureBias(i: int, j: int): Ext {
    if j > i then NegInf else Fin(0.0)
  }

  /** _masked_scaled_scores: the segment mask replaces the causal bias. */
  function ForwardScores(mk: Masking, raw: Mat): ExtMat {
    (i, j) =>
      if mk.seg.Some? then (if SegmentAllowed(mk.seg.value, i, j) then Fin(raw(i, j)) else NegInf)
      else if mk.causal then AddExt(Fin(raw(i, j)), FutureBias(i, j))
      else Fin(raw(i, j))
  }

  /** The backward's own masking: the segment mask, and the causal bias on top. */
  function BackwardScores(mk: Masking, raw: Mat): ExtMat {
    (i, j) =>
      var s := if mk.seg.Some? && !SegmentAllowed(mk.seg.value, i, j) then NegInf else Fin(raw(i, j));
      if mk.causal then AddExt(s, FutureBias(i, j)) else s
  }

  /** Key j is visible to query i. */
  predicate Visible(mk: Masking, i: int, j: int) {
    (mk.causal ==> j <= i) && (mk.seg.Some? ==> mk.seg.value(i) == mk.seg.value(j))
  }

  function VisibleScore(mk: Masking, raw: Mat, i: int, j: int): Ext {
    if Visible(mk, i, j) then Fin(raw(i, j)) else NegInf
  }

  /** Forward and backward mask identically, although each spells its mask differently. */
  lemma MasksAgree(mk: Masking, raw: Mat, i: int, j: int)
    requires mk.Valid()
    ensures ForwardScores(mk, raw)(i, j) == BackwardScores(mk, raw)(i, j) == VisibleScore(mk, raw, i, j)
  {
    assert raw(i, j) + 0.0 == raw(i, j);
  }

  // ----- forward -----

  /** Contiguous grouping: kv_head_for. */
  function KvHeadFor(h: int, g: int): int
    requires g >= 1
  {
    h / g
  }

  function Raw(D: int, scale: real, q: Mat, k: Mat): Mat {
    (i, j) => Mul(D, q, Transposed(k))(i, j) * scale
  }

  function Row(s: ExtMat, i: int): ExtVec {
    j => s(i, j)
  }

  function Lse(exp: real -> real, log: real -> real, N: int, s: ExtMat): ExtVec {
    i => LogSumExp(exp, log, 0, N, Row(s, i))
  }

  function Probs(exp: real -> real, s: ExtMat, l: ExtVec): Mat {
    (i, j) => ExpDiff(exp, s(i, j), l(i))
  }

  /** The forward's probabilities for given raw scores. */
  function HeadProbs(exp: real -> real, log: real -> real, N: int, mk: Masking, raw: Mat): Mat {
    var s := ForwardScores(mk, raw);
    Probs(exp, s, Lse(exp, log, N, s))
  }

  datatype Output = Output(o: Mat, lse: ExtVec)

  /** _attention_core for one query head and the key/value head it reads. */
  function HeadForward(exp: real -> real, log: real -> real, N: int, D: int, scale: real, mk: Masking,
                       q: Mat, k: Mat, v: Mat): Output
  {
    var s := ForwardScores(mk, Raw(D, scale, q, k));
    var l := Lse(exp, log, N, s);
    Output(Mul(N, Probs(exp, s, l), v), l)
  }

  /** flash_attention_reference over all query heads. */
  function Forward(exp: real -> real, log: real -> real, N: int, D: int, Hq: nat, Hkv: nat, scale: real, mk: Masking,
                   q: Heads, k: Heads, v: Heads): Result<int -> Output, HeadCountError>
    requires Hq >= 1 && Hkv >= 1
  {
    if Hq % Hkv != 0 then Err(HeadCountError) else
      assert Hq / Hkv >= 1;
      Ok(h => HeadForward(exp, log, N, D, scale, mk, q(h), k(KvHeadFor(h, Hq / Hkv)), v(KvHeadFor(h, Hq / Hkv))))
  }

  /** The forward refuses exactly the head counts that do not group. */
  lemma ForwardOkIff(exp: real -> real, log: real -> real, N: int, D: int, Hq: nat, Hkv: nat, scale: real, mk: Masking,
                     q: Heads, k: Heads, v: Heads)
    requires Hq >= 1 && Hkv >= 1
    ensures Forward(exp, log, N, D, Hq, Hkv, scale, mk, q, k, v).Err? <==> Hq % Hkv != 0
  {
  }

  // ----- backward -----

  /** _bwd_D: the row correction. */
  function BwdD(D: int, dO: Mat, o: Mat): Vec {
    RowDots(D, dO, o)
  }

  /** dS = P * (dP - D) */
  function ScoreGrad(p: Mat, dP: Mat, d: Vec): Mat {
    (i, j) => p(i, j) * (dP(i, j) - d(i))
  }

  datatype Grads = Grads(dq: Mat, dk: Mat, dv: Mat)

  /** _flash_attention_backward for one query head, from the saved output and logsumexp. */
  function HeadBackward(exp: real -> real, N: int, D: int, scale: real, mk: Masking,
                        q: Mat, k: Mat, v: Mat, o: Mat, lse: ExtVec, dO: Mat): Grads
  {
    var d := BwdD(D, dO, o);
    var p := Probs(exp, BackwardScores(mk, Raw(D, scale, q, k)), lse);
    var dP := Mul(D, dO, Transposed(v));
    var dS := ScoreGrad(p, dP, d);
    Grads(Times(scale, Mul(N, dS, k)), Times(scale, Mul(N, Transposed(dS), q)), Mul(N, Transposed(p), dO))
  }

  /** reshape(Hkv, g, ...).sum(axis=group): the gradients of the g query heads that read kv head m. */
  function GroupSum(g: int, x: Heads): Heads {
    m => (j, d) => Sum(0, g, r => x(m * g + r)(j, d))
  }

  datatype HeadGrads = HeadGrads(dq: Heads, dk: Heads, dv: Heads)

  function Backward(exp: real -> real, N: int, D: int, g: int, scale: real, mk: Masking,
                    q: Heads, k: Heads, v: Heads, fwd: int -> Output, dO: Heads): HeadGrads
    requires g >= 1
  {
    var per := (h: int) => HeadBackward(exp, N, D, scale, mk, q(h), k(KvHeadFor(h, g)), v(KvHeadFor(h, g)),
                                        fwd(h).o, fwd(h).lse, dO(h));
    HeadGrads(h => per(h).dq, GroupSum(g, h => per(h).dk), GroupSum(g, h => per(h).dv))
  }

  // ----- the same forward pass on dual numbers -----

  function DualScores(D: int, scale: real, q: DualMat, k: DualMat): DualMat {
    (i, j) => Prod(DualMul(D, q, (a, b) => k(b, a))(i, j), Constant(scale))
  }

  function DualWeights(exp: real -> real, mk: Masking, s: DualMat, i: int): int -> Dual {
    j => if Visible(mk, i, j) then Exp(exp, s(i, j)) else Constant(0.0)
  }

  function DualLse(exp: real -> real, log: real -> real, N: int, mk: Masking, s: DualMat, i: int): Dual {
    LogSum(log, DualSum(0, N, DualWeights(exp, mk, s, i)))
  }

  function DualProbs(exp: real -> real, log: real -> real, N: int, mk: Masking, s: DualMat): DualMat {
    (i, j) => if Visible(mk, i, j) then Exp(exp, Minus(s(i, j), DualLse(exp, log, N, mk, s, i))) else Constant(0.0)
  }

  /** softmax(scale * Q K^T + mask) V, with its derivative along the direction the inputs carry. */
  function DualForward(exp: real -> real, log: real -> real, N: int, D: int, scale: real, mk: Masking,
                       q: DualMat, k: DualMat, v: DualMat): DualMat
  {
    DualMul(N, DualProbs(exp, log, N, mk, DualScores(D, scale, q, k)), v)
  }

  // ----- probabilities -----

  /** exp of the visible scores of row i. */
  function VisibleWeights(exp: real -> real, mk: Masking, raw: Mat, i: int): Vec {
    j => if Visible(mk, i, j) then exp(raw(i, j)) else 0.0
  }

  /** Every query sees itself, so its softmax denominator is positive. */
  lemma VisibleSum(exp: real -> real, log: real -> real, N: int, mk: Masking, raw: Mat, i: int)
    requires IsExpLog(exp, log) && 0 <= i < N
    ensures Sum(0, N, VisibleWeights(exp, mk, raw, i)) > 0.0
  {
    var w := VisibleWeights(exp, mk, raw, i);
    ExpPositive(exp, log, raw(i, i));
    forall j ensures w(j) >= 0.0 { ExpPositive(exp, log, raw(i, j)); }
    SumPositive(0, N, i, w);
  }

  lemma LseOfVisible(exp: real -> real, log: real -> real, N: int, mk: Masking, raw: Mat, i: int, s: ExtMat)
    requires mk.Valid()
    requires s == ForwardScores(mk, raw)
    ensures Lse(exp, log, N, s)(i) == LogOf(log, Sum(0, N, VisibleWeights(exp, mk, raw, i)))
  {
    forall j ensures Weights(exp, Row(s, i))(j) == VisibleWeights(exp, mk, raw, i)(j) {
      MasksAgree(mk, raw, i, j);
      assert Row(s, i)(j) == VisibleScore(mk, raw, i, j);
    }
    SumCong(0, N, Weights(exp, Row(s, i)), VisibleWeights(exp, mk, raw, i));
  }

  /** The probabilities of the forward, rebuilt by the backward from the saved logsumexp. */
  lemma ProbsAreShares(exp: real -> real, log: real -> real, N: int, mk: Masking, raw: Mat, i: int, j: int, l: ExtVec)
    requires IsExpLog(exp, log) && mk.Valid() && 0 <= i < N
    requires l == Lse(exp, log, N, ForwardScores(mk, raw))
    ensures Sum(0, N, VisibleWeights(exp, mk, raw, i)) > 0.0
    ensures Probs(exp, ForwardScores(mk, raw), l)(i, j)
         == VisibleWeights(exp, mk, raw, i)(j) / Sum(0, N, VisibleWeights(exp, mk, raw, i))
    ensures Probs(exp, BackwardScores(mk, raw), l)(i, j) == Probs(exp, ForwardScores(mk, raw), l)(i, j)
  {
    VisibleSum(exp, log, N, mk, raw, i);
    LseOfVisible(exp, log, N, mk, raw, i, ForwardScores(mk, raw));
    MasksAgree(mk, raw, i, j);
    ExpDiffIsShare(exp, log, VisibleScore(mk, raw, i, j), Sum(0, N, VisibleWeights(exp, mk, raw, i)));
  }

  // ----- the forward in the formula's own terms -----

  /** Row i's scaled dot products. */
  ghost predicate AreScores(D: int, scale: real, q: Mat, k: Mat, i: int, score: Vec) {
    forall j :: score(j) == scale * Sum(0, D, c => q(i, c) * k(j, c))
  }

  /** Row i's softmax weights: nothing for a later key under the causal mask or for another segment's key. */
  ghost predicate AreWeights(exp: real -> real, mk: Masking, i: int, score: Vec, w: Vec) {
    forall j ::
      w(j) == if (mk.causal ==> j <= i) && (mk.seg.Some? ==> mk.seg.value(i) == mk.seg.value(j))
              then exp(score(j)) else 0.0
  }

  /**
   Query head h reads key/value head h div (Hq div Hkv): row i's weights have a positive sum, whose
   log is saved, and the output is the mean of the values under them.
   */
  lemma ForwardIsSoftmax(exp: real -> real, log: real -> real, N: int, D: int, Hq: nat, Hkv: nat, scale: real,
                         mk: Masking, q: Heads, k: Heads, v: Heads, fwd: int -> Output, h: int, m: int, i: int,
                         e: int, score: Vec, w: Vec)
    requires IsExpLog(exp, log) && mk.Valid() && 0 <= i < N
    requires Hq >= 1 && Hkv >= 1 && Hq / Hkv >= 1 && m == h / (Hq / Hkv)
    requires Forward(exp, log, N, D, Hq, Hkv, scale, mk, q, k, v) == Ok(fwd)
    requires AreScores(D, scale, q(h), k(m), i, score) && AreWeights(exp, mk, i, score, w)
    ensures Sum(0, N, w) > 0.0 && fwd(h).lse(i) == Fin(log(Sum(0, N, w)))
    ensures ScaledBy(Sum(0, N, j => w(j) * v(m)(j, e)), Sum(0, N, w), fwd(h).o(i, e))
  {
    ForwardAtHead(exp, log, N, D, Hq, Hkv, scale, mk, q, k, v, fwd, h, m);
    HeadFormula(exp, log, N, D, scale, mk, q(h), k(m), v(m), fwd(h), i, e, score, w);
  }

  lemma ForwardAtHead(exp: real -> real, log: real -> real, N: int, D: int, Hq: nat, Hkv: nat, scale: real,
                      mk: Masking, q: Heads, k: Heads, v: Heads, fwd: int -> Output, h: int, m: int)
    requires Hq >= 1 && Hkv >= 1 && Hq / Hkv >= 1 && m == h / (Hq / Hkv)
    requires Forward(exp, log, N, D, Hq, Hkv, scale, mk, q, k, v) == Ok(fwd)
    ensures fwd(h) == HeadForward(exp, log, N, D, scale, mk, q(h), k(m), v(m))
  {
  }

  lemma HeadFormula(exp: real -> real, log: real -> real, N: int, D: int, scale: real, mk: Masking, q: Mat, k: Mat,
                    v: Mat, fwd: Output, i: int, e: int, score: Vec, w: Vec)
    requires IsExpLog(exp, log) && mk.Valid() && 0 <= i < N
    requires fwd == HeadForward(exp, log, N, D, scale, mk, q, k, v)
    requires AreScores(D, scale, q, k, i, score) && AreWeights(exp, mk, i, score, w)
    ensures Sum(0, N, w) > 0.0 && fwd.lse(i) == Fin(log(Sum(0, N, w)))
    ensures ScaledBy(Sum(0, N, j => w(j) * v(j, e)), Sum(0, N, w), fwd.o(i, e))
  {
    forall j ensures w(j) == VisibleWeights(exp, mk, Raw(D, scale, q, k), i)(j) {
      WeightEntry(exp, D, scale, mk, q, k, i, j, score(j), w(j));
    }
    HeadIsSoftmax(exp, log, N, D, scale, mk, q, k, v, fwd, i, e, w);
  }

  lemma WeightEntry(exp: real -> real, D: int, scale: real, mk: Masking, q: Mat, k: Mat, i: int, j: int, score: real,
                    w: real)
    requires score == scale * Sum(0, D, c => q(i, c) * k(j, c))
    requires w == if (mk.causal ==> j <= i) && (mk.seg.Some? ==> mk.seg.value(i) == mk.seg.value(j))
                  then exp(score) else 0.0
    ensures w == VisibleWeights(exp, mk, Raw(D, scale, q, k), i)(j)
  {
    RawScore(D, scale, q, k, i, j);
  }

  lemma RawScore(D: int, scale: real, q: Mat, k: Mat, i: int, j: int)
    ensures Raw(D, scale, q, k)(i, j) == scale * Sum(0, D, c => q(i, c) * k(j, c))
  {
    var kT := Transposed(k);
    SumCong(0, D, c => q(i, c) * kT(c, j), c => q(i, c) * k(j, c));
    var m := Mul(D, q, kT)(i, j);
    assert m == Sum(0, D, c => q(i, c) * k(j, c));
    assert Raw(D, scale, q, k)(i, j) == m * scale;
  }

  lemma HeadIsSoftmax(exp: real -> real, log: real -> real, N: int, D: int, scale: real, mk: Masking, q: Mat, k: Mat,
                      v: Mat, fwd: Output, i: int, e: int, w: Vec)
    requires IsExpLog(exp, log) && mk.Valid() && 0 <= i < N
    requires fwd == HeadForward(exp, log, N, D, scale, mk, q, k, v)
    requires forall j :: w(j) == VisibleWeights(exp, mk, Raw(D, scale, q, k), i)(j)
    ensures Sum(0, N, w) > 0.0 && fwd.lse(i) == Fin(log(Sum(0, N, w)))
    ensures ScaledBy(Sum(0, N, j => w(j) * v(j, e)), Sum(0, N, w), fwd.o(i, e))
  {
    var raw := Raw(D, scale, q, k);
    var P := HeadProbs(exp, log, N, mk, raw);
    HeadShares(exp, log, N, mk, raw, i, P, w);
    VisibleSum(exp, log, N, mk, raw, i);
    LseOfVisible(exp, log, N, mk, raw, i, ForwardScores(mk, raw));
    SharesAverage(N, Sum(0, N, w), P, v, w, i, e);
    assert fwd.o == Mul(N, P, v);
  }

  lemma HeadShares(exp: real -> real, log: real -> real, N: int, mk: Masking, raw: Mat, i: int, P: Mat, w: Vec)
    requires IsExpLog(exp, log) && mk.Valid() && 0 <= i < N && P == HeadProbs(exp, log, N, mk, raw)
    requires forall j :: w(j) == VisibleWeights(exp, mk, raw, i)(j)
    ensures Sum(0, N, w) == Sum(0, N, VisibleWeights(exp, mk, raw, i))
    ensures forall j :: IsShare(w(j), Sum(0, N, w), P(i, j))
  {
    SumCong(0, N, w, VisibleWeights(exp, mk, raw, i));
    forall j ensures IsShare(w(j), Sum(0, N, w), P(i, j)) {
      ProbsAreShares(exp, log, N, mk, raw, i, j, Lse(exp, log, N, ForwardScores(mk, raw)));
    }
  }

  ghost predicate IsShare(w: real, z: real, p: real) {
    z > 0.0 && p == w / z
  }

  lemma SharesAverage(N: int, z: real, P: Mat, v: Mat, w: Vec, i: int, e: int)
    requires forall j :: IsShare(w(j), z, P(i, j))
    ensures ScaledBy(Sum(0, N, j => w(j) * v(j, e)), z, Mul(N, P, v)(i, e))
  {
    var f: Vec, g: Vec := j => P(i, j) * v(j, e), j => w(j) * v(j, e);
    forall j ensures ScaledBy(g(j), z, f(j)) { ShareOfValue(w(j), z, P(i, j), v(j, e)); }
    SumScale(0, N, z, f, g);
    SumCong(0, N, f, j => P(i, j) * v(j, e));
    SumCong(0, N, g, j => w(j) * v(j, e));
  }

  lemma ShareOfValue(w: real, z: real, p: real, v: real)
    requires IsShare(w, z, p)
    ensures ScaledBy(w * v, z, p * v)
  {
    assert w == z * p;
  }
}
