/**
 Streaming linear cross-entropy (core/chunked.py) against full materialization
 (core/naive.py), tiled over the vocabulary.

 `hidden` is (row, feature), `w` is (vocabulary entry, feature).
 */
module CrossEntropy {
  import opened Options
  import opened Integers
  import opened RealSums
  import opened ExpLog
  import opened TriangularSolve
  import opened LogSumExps

  type Targets = int -> int
  type Chunks = (int, int) -> Mat

  // ----- the naive loss -----

  function Logits(d: int, hidden: Mat, w: Mat): Mat {
    Mul(d, hidden, Transposed(w))
  }

  function LogitRow(logits: Mat, i: int): ExtVec {
    c => Fin(logits(i, c))
  }

  /** logsumexp over the whole vocabulary. */
  function FullLse(exp: real -> real, log: real -> real, v: int, logits: Mat): ExtVec {
    i => LogSumExp(exp, log, 0, v, LogitRow(logits, i))
  }

  /** A finite logsumexp's value; every row of a non-empty vocabulary has one (FullLseFinite). */
  function Finite(l: Ext): real {
    if l.Fin? then l.x else 0.0
  }

  /** naive_linear_ce */
  function NaiveNll(exp: real -> real, log: real -> real, d: int, v: int, hidden: Mat, w: Mat, targets: Targets): Vec {
    i => Finite(FullLse(exp, log, v, Logits(d, hidden, w))(i)) - Logits(d, hidden, w)(i, targets(i))
  }

  lemma FullLseFinite(exp: real -> real, log: real -> real, v: int, logits: Mat, i: int)
    requires IsExpLog(exp, log) && v >= 1
    ensures Sum(0, v, Weights(exp, LogitRow(logits, i))) > 0.0
    ensures FullLse(exp, log, v, logits)(i) == Fin(log(Sum(0, v, Weights(exp, LogitRow(logits, i)))))
  {
    var row := LogitRow(logits, i);
    forall c ensures Weights(exp, row)(c) > 0.0 {
      assert row(c) == Fin(logits(i, c));
      ExpPositive(exp, log, logits(i, c));
    }
    SumPositive(0, v, 0, Weights(exp, row));
  }

  /** Row by row: the log of the sum of the exponentials of hidden . w_c, minus that of the target. */
  lemma NaiveIsCrossEntropy(exp: real -> real, log: real -> real, d: int, v: int, hidden: Mat, w: Mat, targets: Targets,
                            i: int, logit: Vec, weight: Vec)
    requires IsExpLog(exp, log) && v >= 1
    requires forall c :: logit(c) == Sum(0, d, e => hidden(i, e) * w(c, e))
    requires forall c :: weight(c) == exp(logit(c))
    ensures Sum(0, v, weight) > 0.0
    ensures NaiveNll(exp, log, d, v, hidden, w, targets)(i) == log(Sum(0, v, weight)) - logit(targets(i))
  {
    var logits := Logits(d, hidden, w);
    forall c ensures logits(i, c) == logit(c) { LogitEntry(d, hidden, w, i, c); }
    forall c ensures Weights(exp, LogitRow(logits, i))(c) == weight(c) {
      assert LogitRow(logits, i)(c) == Fin(logit(c));
    }
    SumCong(0, v, Weights(exp, LogitRow(logits, i)), weight);
    FullLseFinite(exp, log, v, logits, i);
  }

  lemma LogitEntry(d: int, hidden: Mat, w: Mat, i: int, c: int)
    ensures Logits(d, hidden, w)(i, c) == Sum(0, d, e => hidden(i, e) * w(c, e))
  {
    var wT := Transposed(w);
    SumCong(0, d, e => hidden(i, e) * wT(e, c), e => hidden(i, e) * w(c, e));
  }

  // ----- streaming forward -----

  ghost predicate SliceAt(mm: Chunks, logits: Mat, v0: int, v1: int, i: int, c: int) {
    mm(v0, v1)(i, c) == logits(i, v0 + c)
  }

  /** The chunk callback computes slices of one logit matrix. */
  ghost predicate IsLogitSource(mm: Chunks, logits: Mat) {
    forall v0, v1, i, c :: SliceAt(mm, logits, v0, v1, i, c)
  }

  /** Row i of a chunk is the stretch of the full row that starts at v0. */
  ghost predicate IsSliceRow(chunk: Mat, logits: Mat, v0: int, i: int) {
    forall c :: chunk(i, c) == logits(i, v0 + c)
  }

  lemma SourceRow(mm: Chunks, logits: Mat, v0: int, v1: int, i: int)
    requires IsLogitSource(mm, logits)
    ensures IsSliceRow(mm(v0, v1), logits, v0, i)
  {
    forall c ensures mm(v0, v1)(i, c) == logits(i, v0 + c) { assert SliceAt(mm, logits, v0, v1, i, c); }
  }

  function Picked(logits: Mat, targets: Targets, v: int): Vec {
    i => if 0 <= targets(i) < v then logits(i, targets(i)) else 0.0
  }

  lemma WeightsSplit(exp: real -> real, v0: int, v1: int, logits: Mat, chunk: Mat, i: int, f: Vec, g: Vec)
    requires 0 <= v0 <= v1 && IsSliceRow(chunk, logits, v0, i)
    requires f == Weights(exp, LogitRow(logits, i)) && g == Weights(exp, LogitRow(chunk, i))
    ensures Sum(0, v1, f) == Sum(0, v0, f) + Sum(0, v1 - v0, g)
  {
    SumSplit(0, v0, v1, f);
    forall c ensures g(c) == f(c + v0) { assert chunk(i, c) == logits(i, v0 + c); }
    SumShift(0, v1 - v0, v0, g, f);
  }

  lemma LseExtends(exp: real -> real, log: real -> real, v0: int, v1: int, logits: Mat, chunk: Mat, i: int, l: Ext,
                   next: Ext)
    requires IsExpLog(exp, log) && 0 <= v0 <= v1
    requires IsSliceRow(chunk, logits, v0, i)
    requires l == FullLse(exp, log, v0, logits)(i)
    requires next == LogAddExp(exp, log, l, LogSumExp(exp, log, 0, v1 - v0, LogitRow(chunk, i)))
    ensures next == FullLse(exp, log, v1, logits)(i)
  {
    var f, g := Weights(exp, LogitRow(logits, i)), Weights(exp, LogitRow(chunk, i));
    WeightsSplit(exp, v0, v1, logits, chunk, i, f, g);
    WeightsNonNegative(exp, log, 0, v0, LogitRow(logits, i));
    WeightsNonNegative(exp, log, 0, v1 - v0, LogitRow(chunk, i));
    ExpOfLogOf(exp, log, Sum(0, v0, f));
    ExpOfLogOf(exp, log, Sum(0, v1 - v0, g));
  }

  function Min(a: int, b: int): int { if a < b then a else b }

  /** mx.clip(x, 0, hi) */
  function Clip(x: int, hi: int): int {
    if x < 0 then 0 else if x > hi then hi else x
  }

  function NextLse(exp: real -> real, log: real -> real, lse: ExtVec, chunk: Mat, width: int): ExtVec {
    i => LogAddExp(exp, log, lse(i), LogSumExp(exp, log, 0, width, LogitRow(chunk, i)))
  }

  /** take_along_axis at the clipped index, kept where the target falls into this chunk. */
  function NextTgt(targets: Targets, chunk: Mat, v0: int, v1: int, tgt: Vec): Vec {
    i => if targets(i) >= v0 && targets(i) < v1 then chunk(i, Clip(targets(i) - v0, v1 - v0 - 1)) else tgt(i)
  }

  ghost predicate Streamed(exp: real -> real, log: real -> real, logits: Mat, targets: Targets, v: int, lse: ExtVec,
                           tgt: Vec, i: int)
  {
    lse(i) == FullLse(exp, log, v, logits)(i) && tgt(i) == Picked(logits, targets, v)(i)
  }

  lemma PickExtends(logits: Mat, targets: Targets, v0: int, v1: int, chunk: Mat, tgt: Vec, i: int)
    requires 0 <= v0 < v1
    requires IsSliceRow(chunk, logits, v0, i)
    requires tgt(i) == Picked(logits, targets, v0)(i)
    ensures NextTgt(targets, chunk, v0, v1, tgt)(i) == Picked(logits, targets, v1)(i)
  {
    if v0 <= targets(i) < v1 { assert chunk(i, targets(i) - v0) == logits(i, v0 + (targets(i) - v0)); }
  }

  lemma StreamStep(exp: real -> real, log: real -> real, logits: Mat, targets: Targets, v0: int, v1: int, chunk: Mat,
                   lse: ExtVec, tgt: Vec, i: int, lse': ExtVec, tgt': Vec)
    requires IsExpLog(exp, log) && 0 <= v0 < v1
    requires IsSliceRow(chunk, logits, v0, i)
    requires Streamed(exp, log, logits, targets, v0, lse, tgt, i)
    requires lse' == NextLse(exp, log, lse, chunk, v1 - v0) && tgt' == NextTgt(targets, chunk, v0, v1, tgt)
    ensures Streamed(exp, log, logits, targets, v1, lse', tgt', i)
  {
    LseExtends(exp, log, v0, v1, logits, chunk, i, lse(i), lse'(i));
    PickExtends(logits, targets, v0, v1, chunk, tgt, i);
  }

  /** streamed_lse_and_target: the one-shot logsumexp and target pick, for every chunk size. */
  method StreamedLseAndTarget(exp: real -> real, log: real -> real, mm: Chunks, targets: Targets, v: nat,
                              chunkSize: nat, ghost logits: Mat)
    returns (lse: ExtVec, tgt: Vec)
    requires IsExpLog(exp, log) && chunkSize >= 1 && IsLogitSource(mm, logits)
    ensures forall i :: Streamed(exp, log, logits, targets, v, lse, tgt, i)
  {
    lse, tgt := i => NegInf, i => 0.0;
    var v0 := 0;
    assert Min(v0, v) == 0;
    while v0 < v
      invariant 0 <= v0
      invariant forall i :: Streamed(exp, log, logits, targets, Min(v0, v), lse, tgt, i)
    {
      assert Min(v0, v) == v0;
      var v1 := Min(v0 + chunkSize, v);
      var chunk := mm(v0, v1);
      var lse', tgt' := NextLse(exp, log, lse, chunk, v1 - v0), NextTgt(targets, chunk, v0, v1, tgt);
      forall i ensures Streamed(exp, log, logits, targets, v1, lse', tgt', i) {
        SourceRow(mm, logits, v0, v1, i);
        StreamStep(exp, log, logits, targets, v0, v1, chunk, lse, tgt, i, lse', tgt');
      }
      lse, tgt := lse', tgt';
      v0 := v0 + chunkSize;
      assert Min(v0, v) == v1;
    }
    assert Min(v0, v) == v;
  }

  /** The dense head's chunk callback: hidden @ w[v0:v1].T */
  function DenseChunks(d: int, hidden: Mat, w: Mat): Chunks {
    (v0, v1) => Logits(d, hidden, (c, e) => w(v0 + c, e))
  }

  lemma DenseIsSource(d: int, hidden: Mat, w: Mat)
    ensures IsLogitSource(DenseChunks(d, hidden, w), Logits(d, hidden, w))
  {
    forall v0, v1, i, c ensures SliceAt(DenseChunks(d, hidden, w), Logits(d, hidden, w), v0, v1, i, c) {
      var ws: Mat := (x, e) => w(v0 + x, e);
      var A, B := Transposed(ws), Transposed(w);
      SumCong(0, d, e => hidden(i, e) * A(e, c), e => hidden(i, e) * B(e, v0 + c));
      assert Mul(d, hidden, A)(i, c) == Mul(d, hidden, B)(i, v0 + c);
    }
  }

  /** make_chunked_dense's forward is the naive loss wherever the target is in range. */
  method ChunkedDenseCe(exp: real -> real, log: real -> real, d: nat, v: nat, hidden: Mat, w: Mat, targets: Targets,
                        chunkSize: nat)
    returns (nll: Vec)
    requires IsExpLog(exp, log) && chunkSize >= 1
    ensures forall i :: 0 <= targets(i) < v ==> nll(i) == NaiveNll(exp, log, d, v, hidden, w, targets)(i)
  {
    DenseIsSource(d, hidden, w);
    var lse, tgt := StreamedLseAndTarget(exp, log, DenseChunks(d, hidden, w), targets, v, chunkSize,
                                         Logits(d, hidden, w));
    nll := NllOf(lse, tgt);
    forall i | 0 <= targets(i) < v ensures nll(i) == NaiveNll(exp, log, d, v, hidden, w, targets)(i) {
      StreamedNll(exp, log, d, v, hidden, w, targets, lse, tgt, i);
    }
  }

  /** lse - tgt */
  function NllOf(lse: ExtVec, tgt: Vec): Vec {
    i => Finite(lse(i)) - tgt(i)
  }

  lemma StreamedNll(exp: real -> real, log: real -> real, d: nat, v: nat, hidden: Mat, w: Mat, targets: Targets,
                    lse: ExtVec, tgt: Vec, i: int)
    requires Streamed(exp, log, Logits(d, hidden, w), targets, v, lse, tgt, i) && 0 <= targets(i) < v
    ensures NllOf(lse, tgt)(i) == NaiveNll(exp, log, d, v, hidden, w, targets)(i)
  {
  }

  // ----- streaming backward -----

  /** (p - onehot) * ct over the columns v0.. of the logits. */
  function ChunkGrad(exp: real -> real, logits: Mat, lse: ExtVec, targets: Targets, ct: Vec, v0: int): Mat {
    (i, c) => (ExpDiff(exp, Fin(logits(i, c)), lse(i)) - (if v0 + c == targets(i) then 1.0 else 0.0)) * ct(i)
  }

  ghost predicate WeightAt(wc: Chunks, w: Mat, v0: int, v1: int, c: int, e: int) {
    wc(v0, v1)(c, e) == w(v0 + c, e)
  }

  ghost predicate IsWeightSource(wc: Chunks, w: Mat) {
    forall v0, v1, c, e :: WeightAt(wc, w, v0, v1, c, e)
  }

  ghost predicate IsRowsFrom(ws: Mat, w: Mat, v0: int) {
    forall c, e :: ws(c, e) == w(v0 + c, e)
  }

  ghost predicate IsColumnsFrom(Gc: Mat, G: Mat, v0: int) {
    forall i, c :: Gc(i, c) == G(i, v0 + c)
  }

  lemma SourceGrad(exp: real -> real, mm: Chunks, logits: Mat, lse: ExtVec, targets: Targets, ct: Vec, v0: int, v1: int,
                   Gc: Mat, G: Mat)
    requires IsLogitSource(mm, logits)
    requires Gc == ChunkGrad(exp, mm(v0, v1), lse, targets, ct, v0) && G == ChunkGrad(exp, logits, lse, targets, ct, 0)
    ensures IsColumnsFrom(Gc, G, v0)
  {
    forall i, c ensures Gc(i, c) == G(i, v0 + c) {
      assert SliceAt(mm, logits, v0, v1, i, c);
      assert 0 + (v0 + c) == v0 + c;
    }
  }

  lemma SourceRows(wc: Chunks, w: Mat, v0: int, v1: int)
    requires IsWeightSource(wc, w)
    ensures IsRowsFrom(wc(v0, v1), w, v0)
  {
    forall c, e ensures wc(v0, v1)(c, e) == w(v0 + c, e) { assert WeightAt(wc, w, v0, v1, c, e); }
  }

  /** One more chunk of columns extends the product G @ w. */
  lemma ProductExtends(G: Mat, w: Mat, v0: int, v1: int, Gc: Mat, ws: Mat, i: int, e: int)
    requires 0 <= v0 <= v1 && IsColumnsFrom(Gc, G, v0) && IsRowsFrom(ws, w, v0)
    ensures Mul(v1, G, w)(i, e) == Mul(v0, G, w)(i, e) + Mul(v1 - v0, Gc, ws)(i, e)
  {
    var f: Vec, g: Vec := c => G(i, c) * w(c, e), c => Gc(i, c) * ws(c, e);
    SumSplit(0, v0, v1, f);
    forall c ensures g(c) == f(c + v0) { assert Gc(i, c) == G(i, v0 + c) && ws(c, e) == w(v0 + c, e); }
    SumShift(0, v1 - v0, v0, g, f);
  }

  /** mx.concatenate of the row chunks: row c is row c % size of chunk c / size. */
  function JoinRows(chunks: seq<Mat>, size: int): Mat
    requires size >= 1
  {
    (c, e) => if 0 <= c / size < |chunks| then chunks[c / size](c % size, e) else 0.0
  }

  /** The whole-vocabulary gradients, multiplied out once. */
  function FullGrad(exp: real -> real, logits: Mat, lse: ExtVec, targets: Targets, ct: Vec): Mat {
    ChunkGrad(exp, logits, lse, targets, ct, 0)
  }

  ghost predicate RowChunkOk(n: nat, G: Mat, hidden: Mat, size: int, m: int, chunk: Mat) {
    forall c, e :: chunk(c, e) == Mul(n, Transposed(G), hidden)(m * size + c, e)
  }

  lemma RowChunk(n: nat, G: Mat, Gc: Mat, hidden: Mat, size: int, m: int, v0: int, chunk: Mat)
    requires v0 == m * size && IsColumnsFrom(Gc, G, v0) && chunk == Mul(n, Transposed(Gc), hidden)
    ensures RowChunkOk(n, G, hidden, size, m, chunk)
  {
    forall c, e ensures chunk(c, e) == Mul(n, Transposed(G), hidden)(v0 + c, e) {
      var A, B := Transposed(Gc), Transposed(G);
      forall i ensures A(c, i) * hidden(i, e) == B(v0 + c, i) * hidden(i, e) { assert Gc(i, c) == G(i, v0 + c); }
      SumCong(0, n, i => A(c, i) * hidden(i, e), i => B(v0 + c, i) * hidden(i, e));
    }
  }

  ghost predicate Accumulated(G: Mat, w: Mat, v0: int, acc: Mat) {
    forall i, e :: acc(i, e) == Mul(v0, G, w)(i, e)
  }

  lemma AccumulateStep(G: Mat, w: Mat, v0: int, v1: int, Gc: Mat, ws: Mat, acc: Mat, next: Mat)
    requires 0 <= v0 <= v1 && IsColumnsFrom(Gc, G, v0) && IsRowsFrom(ws, w, v0)
    requires Accumulated(G, w, v0, acc) && next == Add(acc, Mul(v1 - v0, Gc, ws))
    ensures Accumulated(G, w, v1, next)
  {
    forall i, e ensures next(i, e) == Mul(v1, G, w)(i, e) {
      ProductExtends(G, w, v0, v1, Gc, ws, i, e);
    }
  }

  /**
   chunked_backward: for every chunk size the accumulated d_hidden and the concatenated d_w are
   the full-vocabulary products (p - onehot) * ct @ w and its transpose @ hidden.
   */
  method ChunkedBackward(exp: real -> real, hidden: Mat, n: nat, mm: Chunks, wc: Chunks, targets: Targets, lse: ExtVec,
                         ct: Vec, v: nat, chunkSize: nat, headTrainable: bool, ghost logits: Mat, ghost w: Mat)
    returns (dHidden: Mat, dW: Option<Mat>)
    requires v >= 1 && chunkSize >= 1 && IsLogitSource(mm, logits) && IsWeightSource(wc, w)
    ensures Accumulated(FullGrad(exp, logits, lse, targets, ct), w, v, dHidden)
    ensures dW.Some? <==> headTrainable
    ensures dW.Some? ==> forall c, e :: 0 <= c < v ==>
      dW.value(c, e) == Mul(n, Transposed(FullGrad(exp, logits, lse, targets, ct)), hidden)(c, e)
  {
    ghost var G := FullGrad(exp, logits, lse, targets, ct);
    dHidden := (i, e) => 0.0;
    var dWChunks: seq<Mat> := [];
    var v0 := 0;
    ghost var m := 0;
    while v0 < v
      invariant v0 == m * chunkSize && 0 <= m
      invariant Accumulated(G, w, Min(v0, v), dHidden)
      invariant headTrainable ==> |dWChunks| == m
      invariant forall x :: 0 <= x < |dWChunks| ==> RowChunkOk(n, G, hidden, chunkSize, x, dWChunks[x])
    {
      assert Min(v0, v) == v0;
      var v1 := Min(v0 + chunkSize, v);
      var g := ChunkGrad(exp, mm(v0, v1), lse, targets, ct, v0);
      SourceGrad(exp, mm, logits, lse, targets, ct, v0, v1, g, G);
      SourceRows(wc, w, v0, v1);
      var next := Add(dHidden, Mul(v1 - v0, g, wc(v0, v1)));
      AccumulateStep(G, w, v0, v1, g, wc(v0, v1), dHidden, next);
      dHidden := next;
      if headTrainable {
        RowChunk(n, G, g, hidden, chunkSize, m, v0, Mul(n, Transposed(g), hidden));
        dWChunks := dWChunks + [Mul(n, Transposed(g), hidden)];
      }
      v0 := v0 + chunkSize;
      assert (m + 1) * chunkSize == m * chunkSize + chunkSize;
      m := m + 1;
      assert Min(v0, v) == v1;
    }
    assert Min(v0, v) == v;
    if !headTrainable { return dHidden, None; }
    JoinedRows(n, G, hidden, chunkSize, dWChunks, v);
    dW := Some(JoinRows(dWChunks, chunkSize));
  }

  lemma JoinedRows(n: nat, G: Mat, hidden: Mat, size: nat, chunks: seq<Mat>, v: nat)
    requires size >= 1 && |chunks| * size >= v
    requires forall x :: 0 <= x < |chunks| ==> RowChunkOk(n, G, hidden, size, x, chunks[x])
    ensures forall c, e :: 0 <= c < v ==> JoinRows(chunks, size)(c, e) == Mul(n, Transposed(G), hidden)(c, e)
  {
    forall c, e | 0 <= c < v ensures JoinRows(chunks, size)(c, e) == Mul(n, Transposed(G), hidden)(c, e) {
      BlockIndex(c, size, |chunks|);
      assert RowChunkOk(n, G, hidden, size, c / size, chunks[c / size]);
    }
  }
}
