/**
 `chunked_gated_delta` of recurrent/ops.py: masking, padding, the chunk loop and the
 grouped-query head map, proved against the sequential recurrence of every value head.
 */
module ChunkedGatedDelta {
  import opened Results
  import opened Options
  import opened Integers
  import opened RealSums
  import opened ExpLog
  import opened TriangularSolve
  import opened GatedDelta
  import opened GatedDeltaChunk

  type BatchVec = (int, int) -> Vec
  type Tensor3 = (int, int, int) -> real
  type Tensor4 = (int, int, int, int) -> real

  datatype Error = VectorGating | HeadMismatch | EmptySequence

  // ----- one chunk for every batch row and value head -----

  /** broadcast_to(...).reshape(B, Hv, ...): value head h reads key head h div r. */
  function ToHv(x: Batch, r: int): Batch
    requires r >= 1
  {
    (u, h) => x(u, h / r)
  }

  function BatchGram(dk: nat, q: Batch, k: Batch): Batch {
    (u, h) => Gram(dk, q(u, h), k(u, h))
  }

  /** What value head (u, h) reads in a chunk. */
  function HeadAt(q: Batch, k: Batch, v: Batch, g: BatchVec, beta: BatchVec, u: int, h: int, hk: int): Head {
    ChunkHead(q(u, hk), k(u, hk), v(u, h), g(u, h), beta(u, h))
  }

  /** y and next are the outputs and the state after n steps of the recurrence of head x from state S. */
  ghost predicate IsRun(dk: nat, dv: nat, n: nat, x: Head, S: Mat, y: Mat, next: Mat) {
    && (forall i, c :: 0 <= i < n && 0 <= c < dv ==> y(i, c) == Output(dk, x, S, i)(c))
    && SameState(dv, next, Run(dk, x, S, n))
  }

  method ChunkStep(exp: real -> real, log: real -> real, state: Batch, q: Batch, k: Batch, v: Batch,
                   g: BatchVec, beta: BatchVec, C: nat, dk: nat, dv: nat, r: nat)
    returns (y: Batch, newState: Batch)
    requires IsExpLog(exp, log) && C >= 1 && r >= 1
    ensures forall u, h ::
      IsRun(dk, dv, C, HeadAt(q, k, v, g, beta, u, h, h / r), state(u, h), y(u, h), newState(u, h))
  {
    var mask: Batch := (u, h) => DecayMask(exp, log, g(u, h));
    var decay: BatchVec := (u, h) => Decay(exp, log, g(u, h));
    var kkT, qkT := BatchGram(dk, k, k), BatchGram(dk, q, k);
    var qh, kh := q, k;
    if r > 1 {
      kkT, qkT, qh, kh := ToHv(kkT, r), ToHv(qkT, r), ToHv(q, r), ToHv(k, r);
    }
    var A: Batch := (u, h) => ChunkMatrix(kkT(u, h), beta(u, h), mask(u, h));
    var rhs: Batch := (u, h) => ChunkRhs(dv, kh(u, h), v(u, h), beta(u, h), decay(u, h));
    forall u, h ensures StrictLower(C, A(u, h)) {
      ChunkMatrixStrict(C, kkT(u, h), beta(u, h), mask(u, h));
    }
    var sol := SolveStrictLower(A, rhs, C, SUB_BLOCK);
    var vNew: Batch := (u, h) => NewValues(dk, dv, sol(u, h), state(u, h));
    y := (u, h) => ChunkOutput(dk, C, qh(u, h), decay(u, h), state(u, h), qkT(u, h), mask(u, h), vNew(u, h));
    newState := (u, h) => ChunkState(C, kh(u, h), exp(CumLog(log, g(u, h))(C - 1)), DecayToEnd(exp, log, g(u, h), C),
                                     state(u, h), vNew(u, h));
    forall u, h
      ensures IsRun(dk, dv, C, HeadAt(q, k, v, g, beta, u, h, h / r), state(u, h), y(u, h), newState(u, h))
    {
      var hk := h / r;
      assert r == 1 ==> hk == h;
      assert kh(u, h) == k(u, hk) && qh(u, h) == q(u, hk);
      assert kkT(u, h) == Gram(dk, k(u, hk), k(u, hk)) && qkT(u, h) == Gram(dk, q(u, hk), k(u, hk));
      ChunkCorrect(exp, log, C, dk, dv, q(u, hk), k(u, hk), v(u, h), g(u, h), beta(u, h), state(u, h), sol(u, h),
                   vNew(u, h));
    }
  }

  // ----- masking and padding -----

  /** A head as the caller gave it: value head h of batch row u, its mask, and gates clamped from below. */
  function CallerHead(q: Tensor4, k: Tensor4, v: Tensor4, g: Tensor3, beta: Tensor3,
                      mask: Option<(int, int) -> bool>, u: int, h: int, hk: int): Head
  {
    Clamped(RawHead(q, k, v, g, beta, mask, u, h, hk))
  }

  /** ... and with its gates as they are. */
  function RawHead(q: Tensor4, k: Tensor4, v: Tensor4, g: Tensor3, beta: Tensor3,
                   mask: Option<(int, int) -> bool>, u: int, h: int, hk: int): Head
  {
    Head((t, a) => q(u, t, hk, a), (t, a) => k(u, t, hk, a), (t, c) => v(u, t, h, c),
         t => g(u, t, h), t => beta(u, t, h), t => mask.None? || mask.value(u, t))
  }

  function Clamped(x: Head): Head {
    x.(g := Clamp(x.g))
  }

  /** mx.where(m, g, 1) */
  function MaskGate(g: Tensor3, mask: Option<(int, int) -> bool>): Tensor3 {
    if mask.None? then g else (u, t, h) => if mask.value(u, t) then g(u, t, h) else 1.0
  }

  /** beta * m */
  function MaskBeta(beta: Tensor3, mask: Option<(int, int) -> bool>): Tensor3 {
    if mask.None? then beta else (u, t, h) => beta(u, t, h) * if mask.value(u, t) then 1.0 else 0.0
  }

  function PadTime4(x: Tensor4, T: int): Tensor4 {
    (u, t, h, a) => if t < T then x(u, t, h, a) else 0.0
  }

  function PadTime3(x: Tensor3, T: int, fill: real): Tensor3 {
    (u, t, h) => if t < T then x(u, t, h) else fill
  }

  /** The chunk of a time axis that starts at position base. */
  function Chunk4(x: Tensor4, base: int): Batch {
    (u, h) => (p, a) => x(u, base + p, h, a)
  }

  function Chunk3(x: Tensor3, base: int): BatchVec {
    (u, h) => p => x(u, base + p, h)
  }

  /** A head whose masked and padded steps have become identity steps. */
  function PlainHead(q: Tensor4, k: Tensor4, v: Tensor4, g: Tensor3, beta: Tensor3, u: int, h: int, hk: int): Head {
    Clamped(Head((t, a) => q(u, t, hk, a), (t, a) => k(u, t, hk, a), (t, c) => v(u, t, h, c),
                 t => g(u, t, h), t => beta(u, t, h), t => true))
  }

  ghost predicate PadsAt(dv: nat, x: Head, y: Head, T: nat, t: nat) {
    && y.live(t)
    && (if t < T && x.live(t) then SameStepAt(dv, x, t, y, t) else y.g(t) == 1.0 && y.beta(t) == 0.0)
    && (t < T ==> forall a :: y.q(t, a) == x.q(t, a))
  }

  /** Identity steps change nothing: the padded run is the caller's run, stopped at T. */
  lemma {:induction false} PaddedRun(dk: nat, dv: nat, x: Head, y: Head, S: Mat, T: nat, n: nat)
    requires forall t: nat :: PadsAt(dv, x, y, T, t)
    ensures SameState(dv, Run(dk, y, S, n), Run(dk, x, S, if n < T then n else T))
  {
    if n > 0 {
      var t := n - 1;
      PaddedRun(dk, dv, x, y, S, T, t);
      assert PadsAt(dv, x, y, T, t);
      if t < T && x.live(t) {
        StepCong(dk, dv, x, t, Run(dk, x, S, t), y, t, Run(dk, y, S, t));
      } else {
        IdentityStep(dk, dv, y, t, Run(dk, y, S, t));
      }
    }
  }

  lemma PaddedOutput(dk: nat, dv: nat, x: Head, y: Head, S: Mat, T: nat, t: nat, c: int)
    requires forall t: nat :: PadsAt(dv, x, y, T, t)
    requires t < T && 0 <= c < dv
    ensures Output(dk, y, S, t)(c) == Output(dk, x, S, t)(c)
  {
    PaddedRun(dk, dv, x, y, S, T, t + 1);
    assert PadsAt(dv, x, y, T, t);
    OutputCong(dk, dv, y, S, t, x, S, t, c);
  }

  lemma PlainPads(q: Tensor4, k: Tensor4, v: Tensor4, g: Tensor3, beta: Tensor3, mask: Option<(int, int) -> bool>,
                  T: nat, dv: nat, u: int, h: int, hk: int, x: Head, y: Head, t: nat)
    requires x == CallerHead(q, k, v, g, beta, mask, u, h, hk)
    requires y == PlainHead(PadTime4(q, T), PadTime4(k, T), PadTime4(v, T), PadTime3(MaskGate(g, mask), T, 1.0),
                            PadTime3(MaskBeta(beta, mask), T, 0.0), u, h, hk)
    ensures PadsAt(dv, x, y, T, t)
  {
    if t < T && x.live(t) {
      assert y.beta(t) == x.beta(t) by {
        if mask.Some? { assert y.beta(t) == beta(u, t, h) * 1.0; }
      }
    } else if t < T {
      assert y.beta(t) == beta(u, t, h) * 0.0;
    }
  }

  // ----- the chunk loop -----

  /** What value head (u, h) reads in the chunk at base. */
  function HeadFrom(q: Tensor4, k: Tensor4, v: Tensor4, g: Tensor3, beta: Tensor3, base: int, u: int, h: int,
                    hk: int): Head
  {
    HeadAt(Chunk4(q, base), Chunk4(k, base), Chunk4(v, base), Chunk3(g, base), Chunk3(beta, base), u, h, hk)
  }

  /** The chunk at base of the plain head, run from the state the earlier chunks left. */
  lemma ChunkOfPlain(q: Tensor4, k: Tensor4, v: Tensor4, g: Tensor3, beta: Tensor3, base: nat, dk: nat, dv: nat,
                     u: int, h: int, hk: int, S0: Mat, st: Mat, i: nat, y: Head, x: Head)
    requires y == PlainHead(q, k, v, g, beta, u, h, hk)
    requires x == HeadFrom(q, k, v, g, beta, base, u, h, hk)
    requires SameState(dv, st, Run(dk, y, S0, base))
    ensures SameState(dv, Run(dk, x, st, i), Run(dk, y, S0, base + i))
  {
    var z := Shift(y, base);
    forall t | 0 <= t < i ensures SameStepAt(dv, x, t, z, t) {
    }
    RunCong(dk, dv, x, st, z, Run(dk, y, S0, base), i);
    RunSplit(dk, dv, y, S0, base, i);
  }

  lemma ChunkOutputOfPlain(q: Tensor4, k: Tensor4, v: Tensor4, g: Tensor3, beta: Tensor3, base: nat, dk: nat, dv: nat,
                           u: int, h: int, hk: int, S0: Mat, st: Mat, i: nat, c: int, y: Head, x: Head)
    requires y == PlainHead(q, k, v, g, beta, u, h, hk)
    requires x == HeadFrom(q, k, v, g, beta, base, u, h, hk)
    requires SameState(dv, st, Run(dk, y, S0, base)) && 0 <= c < dv
    ensures Output(dk, x, st, i)(c) == Output(dk, y, S0, base + i)(c)
  {
    ChunkOfPlain(q, k, v, g, beta, base, dk, dv, u, h, hk, S0, st, i + 1, y, x);
    OutputCong(dk, dv, x, st, i, y, S0, base + i, c);
  }

  ghost predicate ChunkDone(dk: nat, dv: nat, C: nat, base: nat, y: Batch, u: int, h: int, x: Head, S0: Mat) {
    forall p, c :: 0 <= p < C && 0 <= c < dv ==> y(u, h)(p, c) == Output(dk, x, S0, base + p)(c)
  }

  /** ys are the outputs of the first nc chunks and st is the state they leave. */
  ghost predicate ChunksRun(dk: nat, dv: nat, C: nat, nc: nat, ys: seq<Batch>, st: Mat, u: int, h: int, x: Head,
                            S0: Mat)
  {
    && |ys| == nc
    && (forall ci :: 0 <= ci < nc ==> ChunkDone(dk, dv, C, ci * C, ys[ci], u, h, x, S0))
    && SameState(dv, st, Run(dk, x, S0, nc * C))
  }

  lemma ChunkAdvances(q: Tensor4, k: Tensor4, v: Tensor4, g: Tensor3, beta: Tensor3, C: nat, ci: nat, base: nat,
                      dk: nat, dv: nat, u: int, h: int, hk: int, S0: Mat, st: Mat, ys: seq<Batch>, y: Batch, next: Mat,
                      p: Head, x: Head)
    requires p == PlainHead(q, k, v, g, beta, u, h, hk)
    requires x == HeadFrom(q, k, v, g, beta, base, u, h, hk)
    requires base == ci * C && ChunksRun(dk, dv, C, ci, ys, st, u, h, p, S0) && IsRun(dk, dv, C, x, st, y(u, h), next)
    ensures ChunksRun(dk, dv, C, ci + 1, ys + [y], next, u, h, p, S0)
  {
    assert (ci + 1) * C == base + C;
    ChunkOfPlain(q, k, v, g, beta, base, dk, dv, u, h, hk, S0, st, C, p, x);
    ChunkOutputs(q, k, v, g, beta, C, base, dk, dv, u, h, hk, S0, st, y, p, x);
  }

  lemma ChunkOutputs(q: Tensor4, k: Tensor4, v: Tensor4, g: Tensor3, beta: Tensor3, C: nat, base: nat, dk: nat, dv: nat,
                     u: int, h: int, hk: int, S0: Mat, st: Mat, y: Batch, p: Head, x: Head)
    requires p == PlainHead(q, k, v, g, beta, u, h, hk)
    requires x == HeadFrom(q, k, v, g, beta, base, u, h, hk)
    requires SameState(dv, st, Run(dk, p, S0, base))
    requires forall i, c :: 0 <= i < C && 0 <= c < dv ==> y(u, h)(i, c) == Output(dk, x, st, i)(c)
    ensures ChunkDone(dk, dv, C, base, y, u, h, p, S0)
  {
    forall i, c | 0 <= i < C && 0 <= c < dv ensures y(u, h)(i, c) == Output(dk, p, S0, base + i)(c) {
      ChunkOutputOfPlain(q, k, v, g, beta, base, dk, dv, u, h, hk, S0, st, i, c, p, x);
    }
  }

  /** The loop over chunks, state carried from one to the next. */
  method RunChunks(exp: real -> real, log: real -> real, st0: Batch, q: Tensor4, k: Tensor4, v: Tensor4,
                   g: Tensor3, beta: Tensor3, nc: nat, C: nat, dk: nat, dv: nat, r: nat)
    returns (ys: seq<Batch>, st: Batch)
    requires IsExpLog(exp, log) && C >= 1 && r >= 1
    ensures forall u, h ::
      ChunksRun(dk, dv, C, nc, ys, st(u, h), u, h, PlainHead(q, k, v, g, beta, u, h, h / r), st0(u, h))
  {
    st, ys := st0, [];
    for ci := 0 to nc
      invariant forall u, h ::
        ChunksRun(dk, dv, C, ci, ys, st(u, h), u, h, PlainHead(q, k, v, g, beta, u, h, h / r), st0(u, h))
    {
      var base := ci * C;
      var qc, kc, vc, gc, bc := Chunk4(q, base), Chunk4(k, base), Chunk4(v, base), Chunk3(g, base), Chunk3(beta, base);
      var y, next := ChunkStep(exp, log, st, qc, kc, vc, gc, bc, C, dk, dv, r);
      forall u, h
        ensures ChunksRun(dk, dv, C, ci + 1, ys + [y], next(u, h), u, h, PlainHead(q, k, v, g, beta, u, h, h / r),
                          st0(u, h))
      {
        ChunkAdvances(q, k, v, g, beta, C, ci, base, dk, dv, u, h, h / r, st0(u, h), st(u, h), ys, y, next(u, h),
                      PlainHead(q, k, v, g, beta, u, h, h / r), HeadAt(qc, kc, vc, gc, bc, u, h, h / r));
      }
      ys, st := ys + [y], next;
    }
  }

  /** Position t of the concatenated chunk outputs. */
  function Joined(ys: seq<Batch>, C: int, u: int, t: int, h: int, c: int): real
    requires C >= 1
  {
    if 0 <= t && t / C < |ys| then ys[t / C](u, h)(t % C, c) else 0.0
  }

  /** Padding to a multiple of C. */
  lemma PadLength(T: nat, C: nat, pad: nat, nc: nat)
    requires C >= 1 && pad == (0 - T) % C && nc == (T + pad) / C
    ensures nc * C == T + pad && (nc == 0 <==> T == 0)
  {
    var m := (0 - T) / C;
    assert 0 - T == m * C + pad;
    assert T + pad == (-m) * C;
    DivMod(T + pad, C, -m, 0);
  }

  /** Cutting the padding off: the chunk outputs and the last state are the caller's. */
  lemma Unpad(dk: nat, dv: nat, x: Head, p: Head, S: Mat, T: nat, C: nat, nc: nat, ys: seq<Batch>, st: Mat, u: int,
              h: int)
    requires C >= 1 && nc * C >= T && ChunksRun(dk, dv, C, nc, ys, st, u, h, p, S)
    requires forall t: nat :: PadsAt(dv, x, p, T, t)
    ensures IsRun(dk, dv, T, x, S, (t, c) => Joined(ys, C, u, t, h, c), st)
  {
    PaddedRun(dk, dv, x, p, S, T, nc * C);
    forall t, c | 0 <= t < T && 0 <= c < dv
      ensures Joined(ys, C, u, t, h, c) == Output(dk, x, S, t)(c)
    {
      BlockIndex(t, C, nc);
      assert ChunkDone(dk, dv, C, (t / C) * C, ys[t / C], u, h, p, S);
      PaddedOutput(dk, dv, x, p, S, T, t, c);
    }
  }

  lemma HeadRun(q: Tensor4, k: Tensor4, v: Tensor4, g: Tensor3, beta: Tensor3, mask: Option<(int, int) -> bool>, T: nat,
                dk: nat, dv: nat, C: nat, nc: nat, u: int, h: int, hk: int, S: Mat, ys: seq<Batch>, st: Mat, p: Head)
    requires C >= 1 && nc * C >= T && ChunksRun(dk, dv, C, nc, ys, st, u, h, p, S)
    requires p == PlainHead(PadTime4(q, T), PadTime4(k, T), PadTime4(v, T), PadTime3(MaskGate(g, mask), T, 1.0),
                            PadTime3(MaskBeta(beta, mask), T, 0.0), u, h, hk)
    ensures IsRun(dk, dv, T, CallerHead(q, k, v, g, beta, mask, u, h, hk), S, (t, c) => Joined(ys, C, u, t, h, c), st)
  {
    var x := CallerHead(q, k, v, g, beta, mask, u, h, hk);
    forall t: nat ensures PadsAt(dv, x, p, T, t) {
      PlainPads(q, k, v, g, beta, mask, T, dv, u, h, hk, x, p, t);
    }
    Unpad(dk, dv, x, p, S, T, C, nc, ys, st, u, h);
  }

  function Effective(chunkSize: Option<nat>): nat {
    if chunkSize.None? || chunkSize.value == 0 then CHUNK_SIZE else chunkSize.value
  }

  /** Value head h of batch row u: its outputs (time, feature), and its state, swapped to (key, value). */
  function OutputsOf(y: Tensor4, u: int, h: int): Mat {
    (t, c) => y(u, t, h, c)
  }

  function StateOf(state: Tensor4, u: int, h: int): Mat {
    (a, c) => state(u, h, c, a)
  }

  function ZeroState(): Mat {
    (a, c) => 0.0
  }

  function InitialState(state: Option<Tensor4>): Batch {
    (u, h) => if state.None? then ZeroState() else StateOf(state.value, u, h)
  }

  /** Every value head's outputs and final state are those of its recurrence; it reads key head h div r. */
  ghost predicate AllHeadsRun(dk: nat, dv: nat, T: nat, r: nat, q: Tensor4, k: Tensor4, v: Tensor4, g: Tensor3,
                              beta: Tensor3, mask: Option<(int, int) -> bool>, S0: Batch, y: Tensor4, final: Tensor4)
    requires r >= 1
  {
    forall u, h :: IsRun(dk, dv, T, CallerHead(q, k, v, g, beta, mask, u, h, h / r), S0(u, h),
                         OutputsOf(y, u, h), StateOf(final, u, h))
  }

  /** y and final are what a call from the given starting state returns. */
  ghost predicate CallResult(dk: nat, dv: nat, T: nat, r: nat, q: Tensor4, k: Tensor4, v: Tensor4, g: Tensor3,
                             beta: Tensor3, mask: Option<(int, int) -> bool>, state: Option<Tensor4>, y: Tensor4,
                             final: Tensor4)
    requires r >= 1
  {
    AllHeadsRun(dk, dv, T, r, q, k, v, g, beta, mask, InitialState(state), y, final)
  }

  /** The same with the gates as the caller gave them, unclamped. */
  ghost predicate AllHeadsRecur(dk: nat, dv: nat, T: nat, r: nat, q: Tensor4, k: Tensor4, v: Tensor4, g: Tensor3,
                                beta: Tensor3, mask: Option<(int, int) -> bool>, S0: Batch, y: Tensor4, final: Tensor4)
    requires r >= 1
  {
    forall u, h :: IsRun(dk, dv, T, RawHead(q, k, v, g, beta, mask, u, h, h / r), S0(u, h),
                         OutputsOf(y, u, h), StateOf(final, u, h))
  }

  /** No unmasked gate of the call lies below the floor. */
  ghost predicate CallAboveFloor(T: nat, g: Tensor3, mask: Option<(int, int) -> bool>) {
    forall u, t, h :: 0 <= t < T && (mask.None? || mask.value(u, t)) ==> g(u, t, h) >= GATE_FLOOR
  }

  lemma UnclampedHeads(dk: nat, dv: nat, T: nat, r: nat, q: Tensor4, k: Tensor4, v: Tensor4, g: Tensor3, beta: Tensor3,
                       mask: Option<(int, int) -> bool>, S0: Batch, y: Tensor4, final: Tensor4)
    requires r >= 1 && CallAboveFloor(T, g, mask)
    requires AllHeadsRun(dk, dv, T, r, q, k, v, g, beta, mask, S0, y, final)
    ensures AllHeadsRecur(dk, dv, T, r, q, k, v, g, beta, mask, S0, y, final)
  {
    forall u, h
      ensures IsRun(dk, dv, T, RawHead(q, k, v, g, beta, mask, u, h, h / r), S0(u, h), OutputsOf(y, u, h),
                    StateOf(final, u, h))
    {
      var x := RawHead(q, k, v, g, beta, mask, u, h, h / r);
      assert IsRun(dk, dv, T, Clamped(x), S0(u, h), OutputsOf(y, u, h), StateOf(final, u, h));
      ClampExact(dk, dv, T, x, S0(u, h), OutputsOf(y, u, h), StateOf(final, u, h));
    }
  }

  /** Mask, pad, run the chunks, cut the padding off. */
  method RunPadded(exp: real -> real, log: real -> real, q: Tensor4, k: Tensor4, v: Tensor4, g: Tensor3, beta: Tensor3,
                   T: nat, nc: nat, C: nat, dk: nat, dv: nat, r: nat, S0: Batch, mask: Option<(int, int) -> bool>)
    returns (y: Tensor4, final: Tensor4)
    requires IsExpLog(exp, log) && C >= 1 && r >= 1 && nc * C >= T
    ensures AllHeadsRun(dk, dv, T, r, q, k, v, g, beta, mask, S0, y, final)
  {
    var qp, kp, vp := PadTime4(q, T), PadTime4(k, T), PadTime4(v, T);
    var gp, bp := PadTime3(MaskGate(g, mask), T, 1.0), PadTime3(MaskBeta(beta, mask), T, 0.0);
    var ys, st := RunChunks(exp, log, S0, qp, kp, vp, gp, bp, nc, C, dk, dv, r);
    y := (u, t, h, c) => Joined(ys, C, u, t, h, c);
    final := (u, h, c, a) => st(u, h)(a, c);
    forall u, h
      ensures IsRun(dk, dv, T, CallerHead(q, k, v, g, beta, mask, u, h, h / r), S0(u, h),
                    OutputsOf(y, u, h), StateOf(final, u, h))
    {
      HeadRun(q, k, v, g, beta, mask, T, dk, dv, C, nc, u, h, h / r, S0(u, h), ys, st(u, h),
              PlainHead(qp, kp, vp, gp, bp, u, h, h / r));
    }
  }

  /** The chunk count of the padded length; nothing can be concatenated from no chunks. */
  method PadAndRun(exp: real -> real, log: real -> real, q: Tensor4, k: Tensor4, v: Tensor4, g: Tensor3, beta: Tensor3,
                   T: nat, C: nat, dk: nat, dv: nat, r: nat, S0: Batch, mask: Option<(int, int) -> bool>)
    returns (res: Result<(Tensor4, Tensor4), Error>)
    requires IsExpLog(exp, log) && C >= 1 && r >= 1
    ensures res.Err? ==> res.error == EmptySequence
    ensures res.Err? <==> T == 0
    ensures res.Ok? ==> AllHeadsRun(dk, dv, T, r, q, k, v, g, beta, mask, S0, res.value.0, res.value.1)
  {
    var pad := (0 - T) % C;
    var nc := (T + pad) / C;
    PadLength(T, C, pad, nc);
    if nc == 0 { return Err(EmptySequence); }
    var y, final := RunPadded(exp, log, q, k, v, g, beta, T, nc, C, dk, dv, r, S0, mask);
    res := Ok((y, final));
  }

  /**
   chunked_gated_delta: for every length, chunk size, head ratio, mask and starting state, the
   outputs and the final state are those of the sequential recurrence of each value head, with
   its own gates if none lies below the floor and with clamped gates in any case.
   */
  method ChunkedGatedDelta(exp: real -> real, log: real -> real, q: Tensor4, k: Tensor4, v: Tensor4, g: Tensor3,
                           gateDims: nat, beta: Tensor3, T: nat, Hk: nat, Hv: nat, dk: nat, dv: nat,
                           state: Option<Tensor4>, mask: Option<(int, int) -> bool>, chunkSize: Option<nat>)
    returns (res: Result<(Tensor4, Tensor4), Error>)
    requires IsExpLog(exp, log) && Hk >= 1 && Hv >= 1
    ensures res == Err(VectorGating) <==> gateDims != 3
    ensures res == Err(HeadMismatch) <==> gateDims == 3 && Hv % Hk != 0
    ensures res == Err(EmptySequence) <==> gateDims == 3 && Hv % Hk == 0 && T == 0
    ensures res.Ok? ==>
      && Hv / Hk >= 1
      && CallResult(dk, dv, T, Hv / Hk, q, k, v, g, beta, mask, state, res.value.0, res.value.1)
      && (CallAboveFloor(T, g, mask) ==>
           AllHeadsRecur(dk, dv, T, Hv / Hk, q, k, v, g, beta, mask, InitialState(state), res.value.0, res.value.1))
  {
    if gateDims != 3 { return Err(VectorGating); }
    if Hv % Hk != 0 { return Err(HeadMismatch); }
    var C := Effective(chunkSize);
    var r := Hv / Hk;
    res := PadAndRun(exp, log, q, k, v, g, beta, T, C, dk, dv, r, InitialState(state), mask);
    if res.Ok? && CallAboveFloor(T, g, mask) {
      UnclampedHeads(dk, dv, T, r, q, k, v, g, beta, mask, InitialState(state), res.value.0, res.value.1);
    }
  }

  // ----- what every two calls share -----

  /** The chunk size is invisible: two calls on the same inputs agree, whatever their chunks. */
  lemma ChunkSizeIrrelevant(dk: nat, dv: nat, T: nat, r: nat, q: Tensor4, k: Tensor4, v: Tensor4, g: Tensor3,
                            beta: Tensor3, mask: Option<(int, int) -> bool>, S0: Batch, y: Tensor4, final: Tensor4,
                            y': Tensor4, final': Tensor4, u: int, h: int, c: int)
    requires r >= 1 && 0 <= c < dv
    requires AllHeadsRun(dk, dv, T, r, q, k, v, g, beta, mask, S0, y, final)
    requires AllHeadsRun(dk, dv, T, r, q, k, v, g, beta, mask, S0, y', final')
    ensures forall t :: 0 <= t < T ==> y(u, t, h, c) == y'(u, t, h, c)
    ensures forall a :: final(u, h, c, a) == final'(u, h, c, a)
  {
    var x := CallerHead(q, k, v, g, beta, mask, u, h, h / r);
    assert IsRun(dk, dv, T, x, S0(u, h), OutputsOf(y, u, h), StateOf(final, u, h));
    assert IsRun(dk, dv, T, x, S0(u, h), OutputsOf(y', u, h), StateOf(final', u, h));
    forall t | 0 <= t < T ensures y(u, t, h, c) == y'(u, t, h, c) {
      assert OutputsOf(y, u, h)(t, c) == Output(dk, x, S0(u, h), t)(c) == OutputsOf(y', u, h)(t, c);
    }
    forall a ensures final(u, h, c, a) == final'(u, h, c, a) {
      assert StateOf(final, u, h)(a, c) == StateOf(final', u, h)(a, c);
    }
  }

  // ----- what a call returns, entry by entry -----

  lemma InitialEntry(state: Option<Tensor4>, u: int, h: int, a: int, c: int)
    ensures InitialState(state)(u, h)(a, c) == if state.None? then 0.0 else state.value(u, h, c, a)
  {
    match state
    case None => assert ZeroState()(a, c) == 0.0;
    case Some(given) => assert StateOf(given, u, h)(a, c) == given(u, h, c, a);
  }

  /** Outputs do not depend on later steps. */
  lemma OutputsAgree(dk: nat, dv: nat, T: nat, T': nat, r: nat, q: Tensor4, k: Tensor4, v: Tensor4, g: Tensor3,
                     beta: Tensor3, mask: Option<(int, int) -> bool>, state: Option<Tensor4>, y: Tensor4,
                     final: Tensor4, y': Tensor4, final': Tensor4, u: int, h: int, c: int)
    requires T <= T' && r >= 1 && 0 <= c < dv
    requires CallResult(dk, dv, T, r, q, k, v, g, beta, mask, state, y, final)
    requires CallResult(dk, dv, T', r, q, k, v, g, beta, mask, state, y', final')
    ensures forall t :: 0 <= t < T ==> y'(u, t, h, c) == y(u, t, h, c)
  {
    var x, S := CallerHead(q, k, v, g, beta, mask, u, h, h / r), InitialState(state)(u, h);
    assert IsRun(dk, dv, T, x, S, OutputsOf(y, u, h), StateOf(final, u, h));
    assert IsRun(dk, dv, T', x, S, OutputsOf(y', u, h), StateOf(final', u, h));
    forall t | 0 <= t < T ensures y'(u, t, h, c) == y(u, t, h, c) {
      assert OutputsOf(y', u, h)(t, c) == Output(dk, x, S, t)(c) == OutputsOf(y, u, h)(t, c);
    }
  }

  /** State None: the call starts from an all-zero state, whichever way the zeros are given. */
  lemma NoStateIsZeros(dk: nat, dv: nat, T: nat, r: nat, q: Tensor4, k: Tensor4, v: Tensor4, g: Tensor3, beta: Tensor3,
                       mask: Option<(int, int) -> bool>, zeros: Tensor4, y: Tensor4, final: Tensor4, y': Tensor4,
                       final': Tensor4, u: int, h: int, c: int)
    requires r >= 1 && 0 <= c < dv
    requires forall u, h, c, a :: zeros(u, h, c, a) == 0.0
    requires CallResult(dk, dv, T, r, q, k, v, g, beta, mask, None, y, final)
    requires CallResult(dk, dv, T, r, q, k, v, g, beta, mask, Some(zeros), y', final')
    ensures forall t :: 0 <= t < T ==> y(u, t, h, c) == y'(u, t, h, c)
    ensures forall a :: final(u, h, c, a) == final'(u, h, c, a)
  {
    var x := CallerHead(q, k, v, g, beta, mask, u, h, h / r);
    var S, S' := InitialState(None)(u, h), InitialState(Some(zeros))(u, h);
    assert IsRun(dk, dv, T, x, S, OutputsOf(y, u, h), StateOf(final, u, h));
    assert IsRun(dk, dv, T, x, S', OutputsOf(y', u, h), StateOf(final', u, h));
    forall a, e ensures S(a, e) == S'(a, e) {
      InitialEntry(None, u, h, a, e);
      InitialEntry(Some(zeros), u, h, a, e);
    }
    SameStartSameRun(dk, dv, T, x, S, S', OutputsOf(y, u, h), StateOf(final, u, h), OutputsOf(y', u, h),
                     StateOf(final', u, h));
    forall t | 0 <= t < T ensures y(u, t, h, c) == y'(u, t, h, c) {
      assert OutputsOf(y, u, h)(t, c) == OutputsOf(y', u, h)(t, c);
    }
    forall a ensures final(u, h, c, a) == final'(u, h, c, a) {
      assert StateOf(final, u, h)(a, c) == StateOf(final', u, h)(a, c);
    }
  }

  lemma SameStartSameRun(dk: nat, dv: nat, n: nat, x: Head, S: Mat, S': Mat, y: Mat, next: Mat, y': Mat, next': Mat)
    requires IsRun(dk, dv, n, x, S, y, next) && IsRun(dk, dv, n, x, S', y', next') && SameState(dv, S, S')
    ensures forall t, c :: 0 <= t < n && 0 <= c < dv ==> y(t, c) == y'(t, c)
    ensures SameState(dv, next, next')
  {
    RunCong(dk, dv, x, S, x, S', n);
    forall t, c | 0 <= t < n && 0 <= c < dv ensures y(t, c) == y'(t, c) {
      RunCong(dk, dv, x, S, x, S', t + 1);
      OutputCong(dk, dv, x, S, t, x, S', t, c);
    }
  }

  /** A row of the state read along the key after its decay. */
  function DecayedRead(dk: nat, gate: real, old': Vec, key: Vec): real {
    Sum(0, dk, a => gate * old'(a) * key(a))
  }

  /** Decay, then beta * (v - read) written along the key. */
  ghost predicate IsWritten(new': real, gate: real, old': real, k: real, beta: real, v: real, read: real) {
    new' == gate * old' + k * (beta * (v - read))
  }

  /** A step's inputs, picked out. */
  ghost predicate StepIs(x: Head, t: int, c: int, gate: real, beta: real, v: real, key: Vec) {
    x.live(t) && x.g(t) == gate && x.beta(t) == beta && x.v(t, c) == v && forall a :: key(a) == x.k(t, a)
  }

  /** An unmasked step, entry by entry: decay, read, correct, write. */
  lemma StepEntries(dk: nat, dv: nat, x: Head, S: Mat, t: nat, c: int, gate: real, beta: real, v: real, key: Vec,
                    R: Mat, R': Mat, old': Vec, new': Vec)
    requires StepIs(x, t, c, gate, beta, v, key) && 0 <= c < dv
    requires SameState(dv, R, Run(dk, x, S, t)) && SameState(dv, R', Run(dk, x, S, t + 1))
    requires forall a :: old'(a) == R(a, c) && new'(a) == R'(a, c)
    ensures forall a :: IsWritten(new'(a), gate, old'(a), key(a), beta, v, DecayedRead(dk, gate, old', key))
  {
    var W, read := Run(dk, x, S, t), DecayedRead(dk, gate, old', key);
    SumCong(0, dk, b => x.g(t) * W(b, c) * x.k(t, b), b => gate * old'(b) * key(b));
    assert Delta(dk, x, t, W)(c) == beta * (v - read);
    forall a ensures IsWritten(new'(a), gate, old'(a), key(a), beta, v, read) {
      assert R'(a, c) == Step(dk, x, t, W)(a, c) == x.g(t) * W(a, c) + x.k(t, a) * Delta(dk, x, t, W)(c);
    }
  }

  /** The output of a step is the new state read along the query. */
  lemma OutputEntries(dk: nat, dv: nat, x: Head, S: Mat, t: nat, c: int, R': Mat, query: Vec)
    requires 0 <= c < dv && SameState(dv, R', Run(dk, x, S, t + 1)) && forall a :: query(a) == x.q(t, a)
    ensures Output(dk, x, S, t)(c) == Sum(0, dk, a => query(a) * R'(a, c))
  {
    SumCong(0, dk, a => x.q(t, a) * Run(dk, x, S, t + 1)(a, c), a => query(a) * R'(a, c));
  }

  /**
   One more unmasked step of a call. With read the old state read along the step's key after its
   decay by the gate, clamped at 1e-12: the new state adds beta * (v - read) along the key, and the
   output is the new state read along the query; value head h reads key head h div r.
   */
  lemma CallStep(dk: nat, dv: nat, T: nat, r: nat, q: Tensor4, k: Tensor4, v: Tensor4, g: Tensor3, beta: Tensor3,
                 mask: Option<(int, int) -> bool>, state: Option<Tensor4>, y: Tensor4, final: Tensor4, y': Tensor4,
                 final': Tensor4, u: int, h: int, c: int, gate: real, read: real)
    requires r >= 1 && 0 <= c < dv && (mask.None? || mask.value(u, T))
    requires CallResult(dk, dv, T, r, q, k, v, g, beta, mask, state, y, final)
    requires CallResult(dk, dv, T + 1, r, q, k, v, g, beta, mask, state, y', final')
    requires gate == if g(u, T, h) < 0.000000000001 then 0.000000000001 else g(u, T, h)
    requires read == Sum(0, dk, a => gate * final(u, h, c, a) * k(u, T, h / r, a))
    ensures forall a :: final'(u, h, c, a)
                     == gate * final(u, h, c, a) + k(u, T, h / r, a) * (beta(u, T, h) * (v(u, T, h, c) - read))
    ensures y'(u, T, h, c) == Sum(0, dk, a => q(u, T, h / r, a) * final'(u, h, c, a))
    ensures forall t :: 0 <= t < T ==> y'(u, t, h, c) == y(u, t, h, c)
  {
    var old', new', key: Vec := a => final(u, h, c, a), a => final'(u, h, c, a), a => k(u, T, h / r, a);
    CallWrites(dk, dv, T, r, q, k, v, g, beta, mask, state, y, final, y', final', u, h, c, gate, h / r, old', new',
               key);
    CallReads(dk, dv, T, r, q, k, v, g, beta, mask, state, y', final', u, h, c, h / r);
    OutputsAgree(dk, dv, T, T + 1, r, q, k, v, g, beta, mask, state, y, final, y', final', u, h, c);
    ReadEntries(dk, gate, final, k, u, h, c, T, h / r, old', key);
    WrittenEntries(gate, final, final', k, u, h, c, T, h / r, beta(u, T, h), v(u, T, h, c), read, old', new', key);
  }

  lemma ReadEntries(dk: nat, gate: real, final: Tensor4, k: Tensor4, u: int, h: int, c: int, T: nat, hk: int,
                    old': Vec, key: Vec)
    requires forall a :: old'(a) == final(u, h, c, a) && key(a) == k(u, T, hk, a)
    ensures Sum(0, dk, a => gate * final(u, h, c, a) * k(u, T, hk, a)) == DecayedRead(dk, gate, old', key)
  {
    SumCong(0, dk, a => gate * old'(a) * key(a), a => gate * final(u, h, c, a) * k(u, T, hk, a));
  }

  lemma WrittenEntries(gate: real, final: Tensor4, final': Tensor4, k: Tensor4, u: int, h: int, c: int, T: nat, hk: int,
                       beta: real, v: real, read: real, old': Vec, new': Vec, key: Vec)
    requires forall a :: old'(a) == final(u, h, c, a) && new'(a) == final'(u, h, c, a) && key(a) == k(u, T, hk, a)
    requires forall a :: IsWritten(new'(a), gate, old'(a), key(a), beta, v, read)
    ensures forall a :: final'(u, h, c, a) == gate * final(u, h, c, a) + k(u, T, hk, a) * (beta * (v - read))
  {
    forall a ensures final'(u, h, c, a) == gate * final(u, h, c, a) + k(u, T, hk, a) * (beta * (v - read)) {
      assert IsWritten(new'(a), gate, old'(a), key(a), beta, v, read);
    }
  }

  lemma CallWrites(dk: nat, dv: nat, T: nat, r: nat, q: Tensor4, k: Tensor4, v: Tensor4, g: Tensor3, beta: Tensor3,
                   mask: Option<(int, int) -> bool>, state: Option<Tensor4>, y: Tensor4, final: Tensor4, y': Tensor4,
                   final': Tensor4, u: int, h: int, c: int, gate: real, hk: int, old': Vec, new': Vec, key: Vec)
    requires r >= 1 && hk == h / r && 0 <= c < dv && (mask.None? || mask.value(u, T))
    requires CallResult(dk, dv, T, r, q, k, v, g, beta, mask, state, y, final)
    requires CallResult(dk, dv, T + 1, r, q, k, v, g, beta, mask, state, y', final')
    requires gate == if g(u, T, h) < 0.000000000001 then 0.000000000001 else g(u, T, h)
    requires forall a :: old'(a) == final(u, h, c, a) && new'(a) == final'(u, h, c, a) && key(a) == k(u, T, hk, a)
    ensures forall a :: IsWritten(new'(a), gate, old'(a), key(a), beta(u, T, h), v(u, T, h, c),
                                  DecayedRead(dk, gate, old', key))
  {
    var x, S := CallerHead(q, k, v, g, beta, mask, u, h, hk), InitialState(state)(u, h);
    var R, R' := StateOf(final, u, h), StateOf(final', u, h);
    assert IsRun(dk, dv, T, x, S, OutputsOf(y, u, h), R);
    assert IsRun(dk, dv, T + 1, x, S, OutputsOf(y', u, h), R');
    assert StepIs(x, T, c, gate, beta(u, T, h), v(u, T, h, c), key);
    StepEntries(dk, dv, x, S, T, c, gate, beta(u, T, h), v(u, T, h, c), key, R, R', old', new');
  }

  lemma CallReads(dk: nat, dv: nat, T: nat, r: nat, q: Tensor4, k: Tensor4, v: Tensor4, g: Tensor3, beta: Tensor3,
                  mask: Option<(int, int) -> bool>, state: Option<Tensor4>, y: Tensor4, final: Tensor4, u: int, h: int,
                  c: int, hk: int)
    requires r >= 1 && hk == h / r && 0 <= c < dv
    requires CallResult(dk, dv, T + 1, r, q, k, v, g, beta, mask, state, y, final)
    ensures y(u, T, h, c) == Sum(0, dk, a => q(u, T, hk, a) * final(u, h, c, a))
  {
    var x, S := CallerHead(q, k, v, g, beta, mask, u, h, hk), InitialState(state)(u, h);
    var R, query: Vec := StateOf(final, u, h), a => q(u, T, hk, a);
    assert IsRun(dk, dv, T + 1, x, S, OutputsOf(y, u, h), R);
    assert OutputsOf(y, u, h)(T, c) == Output(dk, x, S, T)(c);
    OutputEntries(dk, dv, x, S, T, c, R, query);
    SumCong(0, dk, a => query(a) * R(a, c), a => q(u, T, hk, a) * final(u, h, c, a));
  }

  /** One more masked step leaves the state and the earlier outputs as they are. */
  lemma CallSkip(dk: nat, dv: nat, T: nat, r: nat, q: Tensor4, k: Tensor4, v: Tensor4, g: Tensor3, beta: Tensor3,
                 mask: Option<(int, int) -> bool>, state: Option<Tensor4>, y: Tensor4, final: Tensor4, y': Tensor4,
                 final': Tensor4, u: int, h: int, c: int)
    requires r >= 1 && 0 <= c < dv && mask.Some? && !mask.value(u, T)
    requires CallResult(dk, dv, T, r, q, k, v, g, beta, mask, state, y, final)
    requires CallResult(dk, dv, T + 1, r, q, k, v, g, beta, mask, state, y', final')
    ensures forall a :: final'(u, h, c, a) == final(u, h, c, a)
    ensures forall t :: 0 <= t < T ==> y'(u, t, h, c) == y(u, t, h, c)
  {
    var x, S := CallerHead(q, k, v, g, beta, mask, u, h, h / r), InitialState(state)(u, h);
    assert IsRun(dk, dv, T, x, S, OutputsOf(y, u, h), StateOf(final, u, h));
    assert IsRun(dk, dv, T + 1, x, S, OutputsOf(y', u, h), StateOf(final', u, h));
    assert Run(dk, x, S, T + 1) == Run(dk, x, S, T);
    forall a ensures final'(u, h, c, a) == final(u, h, c, a) {
      assert StateOf(final', u, h)(a, c) == StateOf(final, u, h)(a, c);
    }
    OutputsAgree(dk, dv, T, T + 1, r, q, k, v, g, beta, mask, state, y, final, y', final', u, h, c);
  }

  /** Before any step the state is the caller's, entry by entry, or zero. */
  lemma CallBegins(dk: nat, dv: nat, r: nat, q: Tensor4, k: Tensor4, v: Tensor4, g: Tensor3, beta: Tensor3,
                   mask: Option<(int, int) -> bool>, state: Option<Tensor4>, y: Tensor4, final: Tensor4, u: int, h: int,
                   c: int)
    requires r >= 1 && 0 <= c < dv
    requires CallResult(dk, dv, 0, r, q, k, v, g, beta, mask, state, y, final)
    ensures forall a :: final(u, h, c, a) == if state.None? then 0.0 else state.value(u, h, c, a)
  {
    var x, S := CallerHead(q, k, v, g, beta, mask, u, h, h / r), InitialState(state)(u, h);
    assert IsRun(dk, dv, 0, x, S, OutputsOf(y, u, h), StateOf(final, u, h));
    forall a ensures final(u, h, c, a) == if state.None? then 0.0 else state.value(u, h, c, a) {
      assert StateOf(final, u, h)(a, c) == Run(dk, x, S, 0)(a, c) == S(a, c);
      InitialEntry(state, u, h, a, c);
    }
  }

  /** Results of every shorter length exist, so the step laws reach back to the start. */
  lemma CallOfLength(dk: nat, dv: nat, T: nat, r: nat, q: Tensor4, k: Tensor4, v: Tensor4, g: Tensor3, beta: Tensor3,
                     mask: Option<(int, int) -> bool>, state: Option<Tensor4>) returns (y: Tensor4, final: Tensor4)
    requires r >= 1
    ensures CallResult(dk, dv, T, r, q, k, v, g, beta, mask, state, y, final)
  {
    var X := (u: int, h: int) => CallerHead(q, k, v, g, beta, mask, u, h, h / r);
    var S0 := InitialState(state);
    y := (u, t, h, c) => if t >= 0 then Output(dk, X(u, h), S0(u, h), t)(c) else 0.0;
    final := (u, h, c, a) => Run(dk, X(u, h), S0(u, h), T)(a, c);
    forall u, h
      ensures IsRun(dk, dv, T, CallerHead(q, k, v, g, beta, mask, u, h, h / r), S0(u, h), OutputsOf(y, u, h),
                    StateOf(final, u, h))
    {
    }
  }

  /**
   A call without a starting state whose first step is unmasked outputs, at that step, beta * v times
   the query read along the key.
   */
  lemma FirstOutput(dk: nat, dv: nat, T: nat, r: nat, q: Tensor4, k: Tensor4, v: Tensor4, g: Tensor3, beta: Tensor3,
                    mask: Option<(int, int) -> bool>, y: Tensor4, final: Tensor4, u: int, h: int, c: int)
    requires T >= 1 && r >= 1 && 0 <= c < dv && (mask.None? || mask.value(u, 0))
    requires CallResult(dk, dv, T, r, q, k, v, g, beta, mask, None, y, final)
    ensures y(u, 0, h, c)
         == beta(u, 0, h) * v(u, 0, h, c) * Sum(0, dk, a => q(u, 0, h / r, a) * k(u, 0, h / r, a))
  {
    var y1, f1 := CallOfLength(dk, dv, 1, r, q, k, v, g, beta, mask, None);
    OutputsAgree(dk, dv, 1, T, r, q, k, v, g, beta, mask, None, y1, f1, y, final, u, h, c);
    FirstStepOutput(dk, dv, r, q, k, v, g, beta, mask, y1, f1, u, h, c, h / r, beta(u, 0, h) * v(u, 0, h, c));
  }

  lemma FirstStepOutput(dk: nat, dv: nat, r: nat, q: Tensor4, k: Tensor4, v: Tensor4, g: Tensor3, beta: Tensor3,
                        mask: Option<(int, int) -> bool>, y: Tensor4, final: Tensor4, u: int, h: int, c: int, hk: int,
                        m: real)
    requires r >= 1 && hk == h / r && 0 <= c < dv && (mask.None? || mask.value(u, 0))
    requires m == beta(u, 0, h) * v(u, 0, h, c)
    requires CallResult(dk, dv, 1, r, q, k, v, g, beta, mask, None, y, final)
    ensures ScaledBy(y(u, 0, h, c), m, Sum(0, dk, a => q(u, 0, hk, a) * k(u, 0, hk, a)))
  {
    var gate := if g(u, 0, h) < 0.000000000001 then 0.000000000001 else g(u, 0, h);
    var y0, f0 := CallOfLength(dk, dv, 0, r, q, k, v, g, beta, mask, None);
    var old', new', key: Vec := a => f0(u, h, c, a), a => final(u, h, c, a), a => k(u, 0, hk, a);
    CallBegins(dk, dv, r, q, k, v, g, beta, mask, None, y0, f0, u, h, c);
    SumZero(0, dk, a => gate * old'(a) * key(a));
    CallWrites(dk, dv, 0, r, q, k, v, g, beta, mask, None, y0, f0, y, final, u, h, c, gate, hk, old', new', key);
    CallReads(dk, dv, 0, r, q, k, v, g, beta, mask, None, y, final, u, h, c, hk);
    ReadAlongKey(dk, q, k, u, hk, key, beta(u, 0, h), v(u, 0, h, c), gate, old', new', m, final, h, c);
  }

  lemma ReadAlongKey(dk: nat, q: Tensor4, k: Tensor4, u: int, hk: int, key: Vec, beta: real, v: real, gate: real,
                     old': Vec, new': Vec, m: real, final: Tensor4, h: int, c: int)
    requires m == beta * v && DecayedRead(dk, gate, old', key) == 0.0 && forall a :: old'(a) == 0.0
    requires forall a :: IsWritten(new'(a), gate, old'(a), key(a), beta, v, DecayedRead(dk, gate, old', key))
    requires forall a :: key(a) == k(u, 0, hk, a) && new'(a) == final(u, h, c, a)
    ensures ScaledBy(Sum(0, dk, a => q(u, 0, hk, a) * final(u, h, c, a)), m,
                     Sum(0, dk, a => q(u, 0, hk, a) * k(u, 0, hk, a)))
  {
    var f: Vec, w: Vec := a => q(u, 0, hk, a) * k(u, 0, hk, a), a => q(u, 0, hk, a) * final(u, h, c, a);
    forall a ensures ScaledBy(w(a), m, f(a)) {
      FirstWrite(q(u, 0, hk, a), key(a), beta, v, gate, old'(a), 0.0, new'(a), m);
    }
    SumScale(0, dk, m, f, w);
  }

  lemma FirstWrite(q: real, k: real, beta: real, v: real, gate: real, old0: real, read: real, new0: real, m: real)
    requires old0 == 0.0 && read == 0.0 && m == beta * v && IsWritten(new0, gate, old0, k, beta, v, read)
    ensures ScaledBy(q * new0, m, q * k)
  {
    assert new0 == k * m;
    assert q * (k * m) == m * (q * k);
  }

  /** The time axis from position p on. */
  function From4(x: Tensor4, p: int): Tensor4 {
    (u, t, h, a) => x(u, p + t, h, a)
  }

  function From3(x: Tensor3, p: int): Tensor3 {
    (u, t, h) => x(u, p + t, h)
  }

  function MaskFrom(mask: Option<(int, int) -> bool>, p: int): Option<(int, int) -> bool> {
    if mask.None? then None else Some((u, t) => mask.value(u, p + t))
  }

  /** The outputs of two calls, one after the other. */
  function Glued(y: Tensor4, y': Tensor4, p: int): Tensor4 {
    (u, t, h, c) => if t < p then y(u, t, h, c) else y'(u, t - p, h, c)
  }

  lemma ResumedRun(dk: nat, dv: nat, p: nat, n: nat, x: Head, x': Head, S: Mat, S': Mat, y: Mat, y': Mat, next: Mat,
                   whole: Mat)
    requires IsRun(dk, dv, p, x, S, y, S') && IsRun(dk, dv, n, x', S', y', next)
    requires forall t :: SameStepAt(dv, x', t, Shift(x, p), t)
    requires forall t, a :: x'.q(t, a) == x.q(p + t, a)
    requires forall t, c :: whole(t, c) == if t < p then y(t, c) else y'(t - p, c)
    ensures IsRun(dk, dv, p + n, x, S, whole, next)
  {
    forall i: nat ensures SameState(dv, Run(dk, x', S', i), Run(dk, x, S, p + i)) {
      RunCong(dk, dv, x', S', Shift(x, p), Run(dk, x, S, p), i);
      RunSplit(dk, dv, x, S, p, i);
    }
    forall t, c | p <= t < p + n && 0 <= c < dv ensures whole(t, c) == Output(dk, x, S, t)(c) {
      assert SameState(dv, Run(dk, x', S', t - p + 1), Run(dk, x, S, p + (t - p + 1)));
      forall a ensures x'.q(t - p, a) == x.q(t, a) { assert p + (t - p) == t; }
      OutputCong(dk, dv, x', S', t - p, x, S, t, c);
    }
    assert SameState(dv, Run(dk, x', S', n), Run(dk, x, S, p + n));
  }

  /** A prefix, then the rest from the carried state: together they are one call on the whole. */
  lemma PrefixThenRest(dk: nat, dv: nat, p: nat, n: nat, r: nat, q: Tensor4, k: Tensor4, v: Tensor4, g: Tensor3,
                       beta: Tensor3, mask: Option<(int, int) -> bool>, S0: Batch, y: Tensor4, carried: Tensor4,
                       y': Tensor4, final: Tensor4)
    requires r >= 1
    requires AllHeadsRun(dk, dv, p, r, q, k, v, g, beta, mask, S0, y, carried)
    requires AllHeadsRun(dk, dv, n, r, From4(q, p), From4(k, p), From4(v, p), From3(g, p), From3(beta, p),
                         MaskFrom(mask, p), InitialState(Some(carried)), y', final)
    ensures AllHeadsRun(dk, dv, p + n, r, q, k, v, g, beta, mask, S0, Glued(y, y', p), final)
  {
    var w := Glued(y, y', p);
    forall u, h
      ensures IsRun(dk, dv, p + n, CallerHead(q, k, v, g, beta, mask, u, h, h / r), S0(u, h),
                    OutputsOf(w, u, h), StateOf(final, u, h))
    {
      var x := CallerHead(q, k, v, g, beta, mask, u, h, h / r);
      var x' := CallerHead(From4(q, p), From4(k, p), From4(v, p), From3(g, p), From3(beta, p), MaskFrom(mask, p), u, h,
                           h / r);
      assert InitialState(Some(carried))(u, h) == StateOf(carried, u, h);
      ResumedRun(dk, dv, p, n, x, x', S0(u, h), InitialState(Some(carried))(u, h), OutputsOf(y, u, h),
                 OutputsOf(y', u, h), StateOf(final, u, h), OutputsOf(w, u, h));
    }
  }

  // ----- the gate clamp -----

  /** No unmasked gate of the first n steps lies below the floor. */
  ghost predicate GatesAboveFloor(x: Head, n: nat) {
    forall t :: 0 <= t < n && x.live(t) ==> x.g(t) >= GATE_FLOOR
  }

  lemma {:induction false} ClampKeepsStates(dk: nat, dv: nat, x: Head, S: Mat, n: nat)
    requires GatesAboveFloor(x, n)
    ensures SameState(dv, Run(dk, Clamped(x), S, n), Run(dk, x, S, n))
  {
    if n > 0 {
      var y, t := Clamped(x), n - 1;
      ClampKeepsStates(dk, dv, x, S, t);
      if x.live(t) {
        StepCong(dk, dv, y, t, Run(dk, y, S, t), x, t, Run(dk, x, S, t));
      }
    }
  }

  ghost predicate SameOutputs(dk: nat, dv: nat, x: Head, x': Head, S: Mat, n: nat) {
    forall t: nat, c :: t < n && 0 <= c < dv ==> Output(dk, x, S, t)(c) == Output(dk, x', S, t)(c)
  }

  lemma ClampKeepsOutputs(dk: nat, dv: nat, x: Head, S: Mat, n: nat)
    requires GatesAboveFloor(x, n)
    ensures SameOutputs(dk, dv, Clamped(x), x, S, n)
  {
    forall t: nat, c | t < n && 0 <= c < dv ensures Output(dk, Clamped(x), S, t)(c) == Output(dk, x, S, t)(c) {
      ClampKeepsStates(dk, dv, x, S, t + 1);
      OutputCong(dk, dv, Clamped(x), S, t, x, S, t, c);
    }
  }

  /** Gates at or above the floor: outputs and final state are those of the recurrence with its own gates. */
  lemma ClampExact(dk: nat, dv: nat, n: nat, x: Head, S: Mat, y: Mat, next: Mat)
    requires IsRun(dk, dv, n, Clamped(x), S, y, next) && GatesAboveFloor(x, n)
    ensures IsRun(dk, dv, n, x, S, y, next)
  {
    ClampKeepsStates(dk, dv, x, S, n);
    ClampKeepsOutputs(dk, dv, x, S, n);
  }

  /** The state a zero key carries from an all-ones state: the product of the unmasked gates. */
  function LiveProduct(x: Head, n: nat): real {
    if n == 0 then 1.0 else LiveProduct(x, n - 1) * if x.live(n - 1) then x.g(n - 1) else 1.0
  }

  lemma {:induction false} ZeroKeyRun(dk: nat, x: Head, S: Mat, n: nat, a: int, c: int)
    requires forall t :: x.k(t, a) == 0.0
    requires S(a, c) == 1.0
    ensures Run(dk, x, S, n)(a, c) == LiveProduct(x, n)
  {
    if n > 0 {
      var t, R := n - 1, Run(dk, x, S, n - 1);
      ZeroKeyRun(dk, x, S, t, a, c);
      if x.live(t) {
        assert Step(dk, x, t, R)(a, c) == x.g(t) * R(a, c) + 0.0 * Delta(dk, x, t, R)(c);
      }
    }
  }

  lemma {:induction false} LiveProductPositive(x: Head, n: nat)
    requires GatesAboveFloor(x, n)
    ensures LiveProduct(x, n) > 0.0 && LiveProduct(Clamped(x), n) == LiveProduct(x, n)
  {
    if n > 0 { LiveProductPositive(x, n - 1); }
  }

  lemma FirstBelowFloor(x: Head, n: nat) returns (t: nat)
    requires !GatesAboveFloor(x, n)
    ensures t < n && x.live(t) && x.g(t) < GATE_FLOOR && GatesAboveFloor(x, t)
  {
    t := 0;
    while !(x.live(t) && x.g(t) < GATE_FLOOR)
      invariant t < n && GatesAboveFloor(x, t) && !GatesAboveFloor(x, n)
      decreases n - t
    {
      t := t + 1;
    }
  }

  /** With zero keys and an all-ones state, the first gate below the floor separates the two states. */
  lemma ZeroKeyDiverges(dk: nat, z: Head, S: Mat, t: nat)
    requires (forall i, a :: z.k(i, a) == 0.0) && forall a, c :: S(a, c) == 1.0
    requires GatesAboveFloor(z, t) && z.live(t) && z.g(t) < GATE_FLOOR
    ensures Run(dk, Clamped(z), S, t + 1)(0, 0) != Run(dk, z, S, t + 1)(0, 0)
  {
    LiveProductPositive(z, t);
    ZeroKeyRun(dk, z, S, t + 1, 0, 0);
    ZeroKeyRun(dk, Clamped(z), S, t + 1, 0, 0);
    Differs(LiveProduct(z, t), z.g(t), GATE_FLOOR);
  }

  /** Unit in feature 0, zero elsewhere. */
  function FirstFeature(): Mat {
    (t, a) => if a == 0 then 1.0 else 0.0
  }

  lemma FirstFeatureOutput(dk: nat, x: Head, S: Mat, t: nat, c: int)
    requires dk >= 1 && x.q == FirstFeature()
    ensures Output(dk, x, S, t)(c) == Run(dk, x, S, t + 1)(0, c)
  {
    var R := Run(dk, x, S, t + 1);
    SumSingle(0, dk, 0, a => x.q(t, a) * R(a, c));
  }

  function WithKeys(x: Head, q: Mat, k: Mat): Head {
    x.(q := q, k := k)
  }

  lemma BelowFloorShows(dk: nat, x: Head, n: nat) returns (q: Mat, k: Mat, S: Mat)
    requires dk >= 1 && !GatesAboveFloor(x, n)
    ensures forall dv: nat :: dv >= 1 ==>
      !SameOutputs(dk, dv, Clamped(WithKeys(x, q, k)), WithKeys(x, q, k), S, n)
  {
    q, k, S := FirstFeature(), (t, a) => 0.0, (a, c) => 1.0;
    var z := WithKeys(x, q, k);
    var t := FirstBelowFloor(x, n);
    ZeroKeyDiverges(dk, z, S, t);
    FirstFeatureOutput(dk, z, S, t, 0);
    FirstFeatureOutput(dk, Clamped(z), S, t, 0);
  }

  lemma Differs(p: real, g: real, floor: real)
    requires p > 0.0 && g < floor
    ensures p * g < p * floor
  {
  }

  /**
   At every length, whatever the values and betas: the clamp changes no output, for any queries,
   keys and starting state, exactly when no unmasked gate lies below the floor.
   */
  lemma ClampInvisibleIff(dk: nat, dv: nat, x: Head, n: nat)
    requires dk >= 1 && dv >= 1
    ensures (forall q: Mat, k: Mat, S: Mat ::
              SameOutputs(dk, dv, Clamped(WithKeys(x, q, k)), WithKeys(x, q, k), S, n))
       <==> GatesAboveFloor(x, n)
  {
    if GatesAboveFloor(x, n) {
      forall q: Mat, k: Mat, S: Mat
        ensures SameOutputs(dk, dv, Clamped(WithKeys(x, q, k)), WithKeys(x, q, k), S, n)
      {
        assert GatesAboveFloor(WithKeys(x, q, k), n);
        ClampKeepsOutputs(dk, dv, WithKeys(x, q, k), S, n);
      }
    } else {
      var q, k, S := BelowFloorShows(dk, x, n);
      assert !SameOutputs(dk, dv, Clamped(WithKeys(x, q, k)), WithKeys(x, q, k), S, n);
    }
  }

  ghost predicate SameStatesAt(dk: nat, dv: nat, x: Head, n: nat, k: Mat, S: Mat, m: nat) {
    m <= n ==> SameState(dv, Run(dk, Clamped(WithKeys(x, x.q, k)), S, m), Run(dk, WithKeys(x, x.q, k), S, m))
  }

  /** ... and the same for the states after every number of steps. */
  lemma ClampStatesIff(dk: nat, dv: nat, x: Head, n: nat)
    requires dv >= 1
    ensures (forall k: Mat, S: Mat, m: nat :: SameStatesAt(dk, dv, x, n, k, S, m)) <==> GatesAboveFloor(x, n)
  {
    if GatesAboveFloor(x, n) {
      forall k: Mat, S: Mat, m: nat ensures SameStatesAt(dk, dv, x, n, k, S, m) {
        if m <= n {
          assert GatesAboveFloor(WithKeys(x, x.q, k), m);
          ClampKeepsStates(dk, dv, WithKeys(x, x.q, k), S, m);
        }
      }
    } else {
      var k: Mat, S: Mat := (t, a) => 0.0, (a, c) => 1.0;
      var z := WithKeys(x, x.q, k);
      var t := FirstBelowFloor(x, n);
      ZeroKeyDiverges(dk, z, S, t);
      assert !SameStatesAt(dk, dv, x, n, k, S, t + 1);
    }
  }
}
