# Verified model of mlx-train-perf's hard core

This project models, in Dafny, the parts of mlx-train-perf whose correctness is hard to see by
reading one function, and proves what they are for:

| component | modules |
|---|---|
| chunk-parallel GatedDelta against the step-by-step recurrence | `TriangularSolve`, `GatedDelta`, `GatedDeltaChunk`, `ChunkedGatedDelta` |
| the attention oracle, its hand-written backward, packed masking | `Attention`, `AttentionAdjoint`, `PackedAttention` |
| first-fit packing, the packed row, one epoch | `Packing`, `FirstFitLaws`, `PackedRow`, `PackedRowLaws`, `PackedEpoch` |
| streaming cross-entropy against full materialization | `CrossEntropy`, `CrossEntropyAdjoint` |
| the two writers of one bench artifact, the resumable sweep | `ArtifactProtocol`, `ArtifactRecords`, `SweepRunner` |
| the two searches | `MemFit`, `ContextSearch` |

`RealSums`, `InnerProduct`, `DualNumbers`, `ExpLog`, `LogSumExps`, `Integers`, `Runs`, `Options` and `Results`
are the mathematics and the wrappers underneath.

## How things are modelled

- Arrays are index functions over `real` (`Vec = int -> real`, `Mat = (int, int) -> real`); a matmul is a
  finite sum. `exp` and `log` are parameters about which only `IsExpLog` is known: `exp` is positive and
  turns sums into products, and `log` inverts it on the positive reals. No other fact about either is used.
- A logsumexp that may be minus infinity is an `Ext`; `exp(-inf)` is 0 and `log 0` is minus infinity.
- Derivatives are not assumed. The forward passes are run again on dual numbers (value and tangent), whose
  product, quotient, `exp` and `log` rules are the usual ones (`ProdFirstOrder`, `ExpOfSum`, `ExpOfLogDual`), and
  the hand-written backward passes are proved adjoint to the tangents that come out.
- Loops that update variables are methods with invariants (`Doubling`, `SolveStrictLower`, `RunChunks`,
  `PackIndices`, `BuildRow`, `StreamedLseAndTarget`, `ChunkedBackward`, `EstimatePeak`, `Bisect`,
  `FindMaxContext`); `build_row` writes arrays in place; the sweep is a class over the artifact directory.
- The artifact protocol is a step relation: every action is one atomic effect of one thread (a write creates
  its temporary file, fills it and renames it, and each of these may fail), runs are arbitrary interleavings,
  and a kill may come at any point.
- The seeded shuffle is an arbitrary permutation of the dataset indices. The worker, its supervisor and the
  guard client are an arbitrary `World` per condition.

## Main results

- The chunked GatedDelta returns exactly the outputs and the final state of the sequential recurrence, for
  every length, chunk size, head ratio, mask and starting state, given or not: with the caller's own gates when no
  unmasked gate lies below the floor of 1e-12, and with gates clamped to that floor in any case. So the chunk size
  is invisible, and a prefix followed by the rest from the carried state is the whole.
- The flash-attention backward is the adjoint of the forward's derivative, grouped key/value heads included.
- In a row laid out by `build_row`, every position of every segment has the output, the saved logsumexp and
  the gradients of unpacked causal attention on that segment alone.
- At its turn every index joins the oldest of at most 8 open packs that has room, and a pack is closed early only
  when 8 newer ones were opened. The bounded-pool first fit never needs more than `2 m' - 1` packs when some packing
  uses `m'`.
- A packed row gives back its entries exactly when every offset lies between 1 and the sequence's length.
- Streaming the vocabulary in tiles changes neither the loss nor the gradients, and the gradients the registered
  vjp returns are the adjoint of the naive loss's derivative.
- No interleaving tears the artifact, no run leaves a record that none of its actions asked for, and a breach record
  that landed under the lock stands.
- What a condition's artifact says after an attempt follows, cause by cause, from the worker, the supervisor and the
  guard client.

## Where the code and its documentation disagree

The model follows the code.

- `bench/artifacts.py:241-243` says that when a breach write times out on the lock under a stalled
  writer, both outcomes are non-ok and retried. `bench/worker.py:897` sends the worker's final `ok` through
  the same writer, so the `ok` record can replace the landed breach record and count as fresh
  (`TimedOutBreachCanEndOk`). After a breach the path holds, now or later, an `ok` record of the run's own
  identity exactly when it already does or the main thread is past its flag check with that record
  (`FreshAfterBreachIff`); in every other state the documented promise holds.
- `scripts/northstar_context_sweep.py:197-199` promises bounds `granularity` tokens apart. With a start
  that is not a multiple of the granularity the aligned midpoint can have nowhere to go, and the bounds stay
  further apart, though by less than twice the granularity (`GranularityMissed`). `GranularityMissedIff` says
  exactly for which start, granularity and ceiling this can happen, by a condition on the doublings alone.
- `recurrent/ops.py:80` calls the chunk an exact reformulation; line 96 clamps every gate to at least 1e-12.
  The reformulation is exact exactly when no unmasked gate lies below that floor: then outputs and states are
  those of the recurrence with its own gates (`ClampExact`, `UnclampedHeads`), and otherwise, at any length and
  for any values and betas, some queries, keys and starting state show the difference (`ClampInvisibleIff`,
  `ClampStatesIff`). The comment on lines 94-95 says so too.

## Model

| member | source | states |
|---|---|---|
| `TriangularSolve.PowerBand` | src/mlx_train_perf/recurrent/ops.py:12-14 | nilpotency: the m-th power of a strictly lower-triangular matrix vanishes above its m-th subdiagonal |
| `TriangularSolve.NeumannSolves` | src/mlx_train_perf/recurrent/ops.py:12-14 | the first m >= n terms of the Neumann series solve (I - A) x = b |
| `TriangularSolve.SolutionUnique` | src/mlx_train_perf/recurrent/ops.py:28-36 | (I - A) x = b has at most one solution, so the blocked and the unblocked form agree for every sub-block size |
| `TriangularSolve.DoublingStep` | src/mlx_train_perf/recurrent/ops.py:46-49 | one doubling takes the sum of w terms and the w-th power to 2w terms and the 2w-th power |
| `TriangularSolve.BitLengthBounds` | src/mlx_train_perf/recurrent/ops.py:45 | bit_length(n) is the exponent of the first power of two above n, so bit_length(n-1) doublings reach n terms |
| `TriangularSolve.Doubling` | src/mlx_train_perf/recurrent/ops.py:40-50 | the doubling loop returns the solution, namely the Neumann series of 2^bit_length(n-1) terms, for every batch entry |
| `TriangularSolve.BlockRhs` | src/mlx_train_perf/recurrent/ops.py:58-61 | a block's right-hand side is its rows of b plus what the blocks already solved contribute through A |
| `TriangularSolve.ExtendSolution` | src/mlx_train_perf/recurrent/ops.py:57-62 | solving the next diagonal block against that right-hand side extends a solution of the first rows |
| `TriangularSolve.NextBlock` | src/mlx_train_perf/recurrent/ops.py:57-62 | one pass of the block loop extends the solved prefix from lo to hi rows |
| `TriangularSolve.SolveStrictLower` | src/mlx_train_perf/recurrent/ops.py:27-63 | for every sub-block size >= 1 the result solves (I - A) x = b |
| `GatedDelta.RunSplit` | src/mlx_train_perf/recurrent/ops.py:206-211 | running p steps and then the rest from the carried state is running the whole |
| `GatedDelta.MaskedStepsDeleted` | src/mlx_train_perf/recurrent/ops.py:158-162 | the states of a masked run are those of the run on the unmasked steps alone |
| `GatedDelta.MaskedOutputsDeleted` | src/mlx_train_perf/recurrent/ops.py:158-162 | and so are the outputs at every unmasked position |
| `GatedDelta.Unroll` | src/mlx_train_perf/recurrent/ops.py:80 | closed form of the recurrence's state: the decayed initial state plus one decayed outer product per step |
| `GatedDelta.ReadOut` | src/mlx_train_perf/recurrent/ops.py:80 | reading the state along any vector: the decayed initial reading plus one Gram entry per earlier step |
| `GatedDeltaChunk.DecayIsProduct` | src/mlx_train_perf/recurrent/ops.py:96-97 | exponentials of cumulative-log differences are the products of the clamped gates in between |
| `GatedDeltaChunk.MaskIsProduct` | src/mlx_train_perf/recurrent/ops.py:99-102 | the decay mask holds that product on and below the diagonal and 0 above |
| `GatedDeltaChunk.NewValuesSolve` | src/mlx_train_perf/recurrent/ops.py:121-126 | subtracting the state readout from the solved columns gives the solution of the system with the subtracted right-hand side |
| `GatedDeltaChunk.DeltaClosed` | src/mlx_train_perf/recurrent/ops.py:80 | each delta of the recurrence in terms of its input, the decayed initial state and the earlier deltas |
| `GatedDeltaChunk.DeltaSolves` | src/mlx_train_perf/recurrent/ops.py:116-126 | the recurrence's deltas solve the chunk's triangular system |
| `GatedDeltaChunk.NewValuesAreDeltas` | src/mlx_train_perf/recurrent/ops.py:121-126 | hence v_new is exactly the deltas of the sequential recurrence |
| `GatedDeltaChunk.OutputCorrect` | src/mlx_train_perf/recurrent/ops.py:127 | the chunk's output rows are the recurrence's outputs |
| `GatedDeltaChunk.StateCorrect` | src/mlx_train_perf/recurrent/ops.py:129-131 | the chunk's final state is the recurrence's |
| `GatedDeltaChunk.ChunkCorrect` | src/mlx_train_perf/recurrent/ops.py:69-133 | one chunk, from its solved system, gives the recurrence's outputs and state from every starting state |
| `ChunkedGatedDelta.ChunkStep` | src/mlx_train_perf/recurrent/ops.py:69-133 | the same for every batch row and value head, value head h reading key head h div r, both with and without the broadcast |
| `ChunkedGatedDelta.PaddedRun` | src/mlx_train_perf/recurrent/ops.py:183-197 | masked and padded steps as identity steps do not change the caller's run, stopped at T |
| `ChunkedGatedDelta.PlainPads` | src/mlx_train_perf/recurrent/ops.py:185-197 | the masking and the padding turn exactly the masked and the padded positions into identity steps |
| `ChunkedGatedDelta.RunChunks` | src/mlx_train_perf/recurrent/ops.py:199-211 | the chunk loop with the carried state gives every chunk's outputs and the last state of the whole run |
| `ChunkedGatedDelta.Unpad` | src/mlx_train_perf/recurrent/ops.py:212-215 | cutting the padding off the joined outputs leaves the caller's outputs and state |
| `ChunkedGatedDelta.ChunkedGatedDelta` | src/mlx_train_perf/recurrent/ops.py:139-215 | every head's outputs and final state are those of the sequential recurrence, with its own gates if no unmasked one is below 1e-12 and with clamped gates in any case; the errors for vector gating, head counts and an empty sequence occur exactly then |
| `ChunkedGatedDelta.CallStep` | src/mlx_train_perf/recurrent/ops.py:80-96 | an unmasked step more, entry by entry: the state decays by its gate, at least 1e-12, is read along the key of head h div r, and gains beta * (v - read) along it; the output is the new state read along the query; earlier outputs stay |
| `ChunkedGatedDelta.CallSkip` | src/mlx_train_perf/recurrent/ops.py:158-162 | a masked step more leaves state and earlier outputs as they are |
| `ChunkedGatedDelta.CallBegins` | src/mlx_train_perf/recurrent/ops.py:180-181 | before any step every entry of the state is the given one, or 0 without a given state |
| `ChunkedGatedDelta.NoStateIsZeros` | src/mlx_train_perf/recurrent/ops.py:180-181 | a call without a state and a call with an all-zero one return the same outputs and final state |
| `ChunkedGatedDelta.FirstOutput` | src/mlx_train_perf/recurrent/ops.py:139-215 | without a state and with an unmasked first step, the first output is beta * v times the query read along the key |
| `ChunkedGatedDelta.ChunkSizeIrrelevant` | src/mlx_train_perf/recurrent/ops.py:178 | two calls on the same inputs agree whatever their chunk sizes |
| `ChunkedGatedDelta.PrefixThenRest` | src/mlx_train_perf/recurrent/ops.py:149-156 | a call on a prefix and a call on the rest from the returned state together are one call on the whole |
| `ChunkedGatedDelta.ClampExact` | src/mlx_train_perf/recurrent/ops.py:94-96 | with no unmasked gate below the floor, outputs and final state of the clamped recurrence are those of the unclamped one |
| `ChunkedGatedDelta.UnclampedHeads` | src/mlx_train_perf/recurrent/ops.py:80 | the same for a whole call: every value head follows the recurrence with the gates the caller gave |
| `ChunkedGatedDelta.ClampInvisibleIff` | src/mlx_train_perf/recurrent/ops.py:94-96 | at every length and for all values and betas: the clamp changes no output for any queries, keys and starting state if and only if no unmasked gate lies below the floor |
| `ChunkedGatedDelta.ClampStatesIff` | src/mlx_train_perf/recurrent/ops.py:94-96 | the same equivalence for the states after every number of steps |
| `Attention.MasksAgree` | src/mlx_train_perf/attention/api.py:173-179 | the forward's and the backward's differently spelled masks are the same set of visible keys |
| `Attention.VisibleSum` | src/mlx_train_perf/attention/segments.py:54-61 | every query sees itself, so its softmax denominator is positive |
| `Attention.LseOfVisible` | src/mlx_train_perf/attention/reference.py:85 | the saved logsumexp is the log of the sum over the visible keys |
| `Attention.ProbsAreShares` | src/mlx_train_perf/attention/reference.py:76-89 | forward probabilities are shares of the visible sum, and the backward rebuilds the same ones from the saved logsumexp |
| `Attention.ForwardOkIff` | src/mlx_train_perf/attention/reference.py:53-56 | the forward refuses exactly the head counts with Hq mod Hkv != 0 |
| `Attention.ForwardIsSoftmax` | src/mlx_train_perf/attention/reference.py:36-89 | query head h on kv head h div (Hq div Hkv): the weights exp(scale * q . k) of the keys that are neither later nor in another segment have a positive sum, its log is saved, and the output is the mean of the values under them |
| `AttentionAdjoint.DualForwardParts` | src/mlx_train_perf/attention/reference.py:76-89 | the forward on dual numbers has the forward's value and the explicit softmax differential as its tangent |
| `AttentionAdjoint.ForwardIsDualValue` | src/mlx_train_perf/attention/reference.py:53-89 | for every query head of a forward that succeeds, the output is the value of the forward on dual numbers with kv head h div (Hq div Hkv) |
| `AttentionAdjoint.SoftmaxRow` | src/mlx_train_perf/attention/api.py:182-183 | row by row the softmax differential is self-adjoint, with the row correction in place of the inner sum |
| `AttentionAdjoint.SoftmaxAdjoint` | src/mlx_train_perf/attention/api.py:126-129 | sum(dO * O) is the row correction the softmax adjoint needs |
| `AttentionAdjoint.ScoreAdjoint` | src/mlx_train_perf/attention/api.py:185-187 | scale * dS k and scale * dS^T q are adjoint to the scores' differential |
| `AttentionAdjoint.BackwardUsesForwardProbs` | src/mlx_train_perf/attention/api.py:173-187 | the backward's three gradients are those computed from the forward's own probabilities |
| `AttentionAdjoint.HeadAdjoint` | src/mlx_train_perf/attention/api.py:140-194 | for one query head and every cotangent and direction, <dO, dOut> = <dQ, dq> + <dK, dk> + <dV, dv> |
| `AttentionAdjoint.GroupAdjoint` | src/mlx_train_perf/attention/api.py:132-137 | gathering a kv head for its query heads and the reshape-and-sum over the group are adjoint |
| `AttentionAdjoint.BackwardIsAdjoint` | src/mlx_train_perf/attention/api.py:140-194 | for every Hq = Hkv * g the forward succeeds, and over all query heads, with dK and dV accumulated per kv head, the backward is the adjoint of its derivative |
| `PackedAttention.SegmentIsolated` | src/mlx_train_perf/attention/segments.py:54-61 | in a packed row a segment's queries see exactly the segment's keys up to themselves, and nobody else sees those keys |
| `PackedAttention.ProbsWindow` | src/mlx_train_perf/attention/reference.py:64-86 | the probabilities on an isolated window are those of causal attention on the window and 0 between it and the rest |
| `PackedAttention.OutputWindow` | src/mlx_train_perf/attention/reference.py:76-89 | output and logsumexp on an isolated window are those of the window alone |
| `PackedAttention.GradWindow` | src/mlx_train_perf/attention/api.py:171-187 | and so are the three gradients: nothing arrives from queries outside the window |
| `PackedAttention.PackedIsolation` | src/mlx_train_perf/attention/segments.py:12-18 | every position of every segment of a built row, tail included, has the output, logsumexp and gradients of its sequence alone |
| `PackedAttention.PackedHeadsIsolation` | src/mlx_train_perf/attention/api.py:140-194 | the same for every Hq = Hkv * g, where both forwards succeed: per query head for outputs and dQ, per kv head for the accumulated dK and dV |
| `PackedAttention.SpanOf` | src/mlx_train_perf/data/packing.py:135-154 | a segment spans its tokens and its pad slot, except a last one whose slot is clipped into the target-only column; the tail spans the rest of the row |
| `Packing.FirstFit` | src/mlx_train_perf/data/packing.py:35-41 | the scan finds the first open pack with enough room, or none |
| `Packing.PlaceOne` | src/mlx_train_perf/data/packing.py:33-47 | one pass of the packing loop is one first-fit placement into a bounded pool |
| `Packing.PlaceAllInv` | src/mlx_train_perf/data/packing.py:27-48 | after any prefix of any order: cost plus room fills every pack exactly, room >= 0, the open list is strictly increasing with at most 8 members, the packs hold exactly the placed indices, and consecutive packs overflow together |
| `Packing.PackIndices` | src/mlx_train_perf/data/packing.py:15-48 | the packs partition the dataset, are non-empty and within capacity, and no two consecutive ones fit into one; the three errors occur exactly when documented |
| `FirstFitLaws.SlotsOf` | src/mlx_train_perf/data/packing.py:34 | a sequence takes min(length, pack_len) + 1 slots, at most pack_len + 1 |
| `FirstFitLaws.OpenPacks` | src/mlx_train_perf/data/packing.py:39-47 | after any prefix of any order at most 8 packs are open; a closed one was filled up, or is older than every open one with at least 8 packs opened after it; an open one was not filled up |
| `FirstFitLaws.ClosedWithRoom` | src/mlx_train_perf/data/packing.py:45-47 | a pack closed with room for a sequence is older than every open pack, and at least 8 packs were opened after it |
| `FirstFitLaws.EachIndexGoes` | src/mlx_train_perf/data/packing.py:35-45 | at its turn an index joins the oldest open pack with enough room, or opens a new pack if there is none, and stays there after the earlier members |
| `Packing.TotalOfPairs` | src/mlx_train_perf/data/packing.py:35-47 | 2 h packs that pairwise overflow cost at least h (capacity + 1) |
| `Packing.PackCostPermutation` | src/mlx_train_perf/data/packing.py:27-28 | the total cost does not depend on the shuffle |
| `Packing.TwoApproximation` | src/mlx_train_perf/data/packing.py:29-48 | whatever the shuffle, at most 2 m' - 1 packs when some packing within capacity uses m' |
| `PackedRow.WriteSegment` | src/mlx_train_perf/data/packing.py:128-147 | one segment written in place: its tokens, ids, starts and supervised window, everything else unchanged |
| `PackedRow.BuildRow` | src/mlx_train_perf/data/packing.py:102-156 | for every pack within capacity, every position carries its segment's token, id, start and supervision; the tail is one more segment |
| `PackedRowLaws.SegmentInFull` | src/mlx_train_perf/data/packing.py:128-147 | of a built row: each segment is its tokens, a 0, its own id and start throughout, and supervision from max(offset, 1) - 1 to its length - 1 |
| `PackedRowLaws.TailInFull` | src/mlx_train_perf/data/packing.py:148-156 | and the tail is 0 tokens with the next id and its own start, unsupervised |
| `PackedRow.SegmentOf` | src/mlx_train_perf/data/packing.py:112-116 | every position belongs to a segment |
| `PackedRow.SegmentUnique` | src/mlx_train_perf/data/packing.py:112-116 | and to no other |
| `PackedRowLaws.SegmentIsInterval` | src/mlx_train_perf/data/packing.py:135-154 | the positions up to i with i's segment id are exactly the interval from seg_start[i] to i |
| `PackedRowLaws.LayoutMonotone` | src/mlx_train_perf/attention/segments.py:14-23 | seg_id and seg_start never decrease along a built row |
| `PackedRowLaws.DiffsNonNegative` | src/mlx_train_perf/attention/segments.py:32-51 | adjacent differences are non-negative if and only if the whole row is monotone |
| `PackedRowLaws.SupervisionPreserved` | src/mlx_train_perf/adapters/mlx_lm.py:234-250 | on each segment the packed mask is the unpacked (offset, length) mask shifted by the segment's start; inputs agree, and supervised targets agree and stay in the segment |
| `PackedRowLaws.PackedLossIsSum` | src/mlx_train_perf/adapters/mlx_lm.py:341-342 | the packed masked loss, and with unit losses the token count, is the sum of the unpacked ones |
| `PackedRowLaws.DecodeFrom` | src/mlx_train_perf/data/packing.py:127-156 | decoding a row recovers every supervised sequence, its order, length and effective offset |
| `PackedRowLaws.RoundTrip` | src/mlx_train_perf/data/packing.py:127-156 | decoding gives back the entries if and only if every offset lies between 1 and the length, clipped pad slot included |
| `PackedEpoch.PackRow` | src/mlx_train_perf/data/packing.py:258-270 | a pack's sequences always fit their row, and the row passes the monotonicity check |
| `PackedEpoch.TruncatedAt` | src/mlx_train_perf/data/packing.py:239 | what is packed of every example is its first max_seq_length tokens, or all if there are fewer, with its own offset |
| `PackedEpoch.PackedIterateBatches` | src/mlx_train_perf/data/packing.py:212-279 | over any number of epochs, each with its own shuffle: every refusal exactly when it is due, whole batches of the first packs in order, fewer than batch_size packs dropped, an epoch without a whole batch ends the iteration, the monotonicity error unreachable |
| `PackedEpoch.EachExampleLandsOnce` | src/mlx_train_perf/data/packing.py:244-264 | every example sits at exactly one place of one pack; it lands whole, under its own segment id, in the row of that pack, or the pack is one of fewer than batch_size dropped ones |
| `PackedEpoch.PackStats` | src/mlx_train_perf/data/packing.py:64-99 | real tokens, capacity and all three fractions are what they are called; real tokens, separators and tail fill every slot, so the fractions sum to 1 + 1/pack_len |
| `CrossEntropy.FullLseFinite` | src/mlx_train_perf/core/naive.py:12 | over a non-empty vocabulary every row has a finite logsumexp |
| `CrossEntropy.NaiveIsCrossEntropy` | src/mlx_train_perf/core/naive.py:9-14 | row by row the naive loss is the log of the sum of the exponentials of hidden . w_c, minus the one of the target |
| `CrossEntropy.LseExtends` | src/mlx_train_perf/core/chunked.py:44 | logaddexp with one more tile's logsumexp is the logsumexp of the longer prefix |
| `CrossEntropy.PickExtends` | src/mlx_train_perf/core/chunked.py:45-48 | the clipped gather picks an in-range target in exactly the tile that holds it |
| `CrossEntropy.StreamedLseAndTarget` | src/mlx_train_perf/core/chunked.py:35-49 | for every tile size the streamed logsumexp and target logit are the one-shot ones |
| `CrossEntropy.ChunkedDenseCe` | src/mlx_train_perf/core/chunked.py:93-105 | the chunked loss is the naive loss for every tile size and in-range target |
| `CrossEntropy.ChunkedBackward` | src/mlx_train_perf/core/chunked.py:52-90 | for every tile size the accumulated d_hidden and the joined d_w are the full-vocabulary products; d_w exists only for a trainable head |
| `CrossEntropyAdjoint.DualNaiveParts` | src/mlx_train_perf/core/naive.py:9-14 | the naive loss on dual numbers has the naive loss as value and the softmax-minus-target differential as tangent |
| `CrossEntropyAdjoint.GradRowsSumToZero` | src/mlx_train_perf/core/chunked.py:76-80 | for an in-range target the row (p - onehot) * ct sums to zero |
| `CrossEntropyAdjoint.CrossEntropyIsAdjoint` | src/mlx_train_perf/core/chunked.py:52-90 | for every cotangent and direction, the loss's derivative pairs with ct as <d_hidden, dh> + <d_w, dw> |
| `CrossEntropyAdjoint.DenseCeVjp` | src/mlx_train_perf/core/chunked.py:107-130 | the registered vjp, logsumexp streamed again included: for every tile size the returned gradients pair with every direction as the naive loss's derivative does |
| `ArtifactProtocol.InvStep` | src/mlx_train_perf/bench/artifacts.py:204-248 | every step of either thread, and a kill, keep the protocol invariant |
| `ArtifactProtocol.InvExec` | src/mlx_train_perf/bench/artifacts.py:204-248 | so does every run, whatever the interleaving |
| `ArtifactProtocol.ArtifactNeverTorn` | src/mlx_train_perf/bench/artifacts.py:209-225 | at every point of every run, also when a kill or the other writer falls inside a write and when a write or a rename fails, the path holds what it held before or one complete record of this worker |
| `ArtifactProtocol.NoLateMainWrite` | src/mlx_train_perf/bench/artifacts.py:244-248 | after the breach flag is set, no main-thread write lands unless its flag check came earlier |
| `ArtifactProtocol.BreachRecordStands` | src/mlx_train_perf/bench/artifacts.py:282-297 | a breach record landed under the lock is the artifact in every later state |
| `ArtifactProtocol.OnlyTimeoutLosesTheRecord` | src/mlx_train_perf/bench/artifacts.py:234-243 | a landed breach record is missing only after a lock timeout, and then a complete main-thread record stands in its place |
| `ArtifactProtocol.HardExitAlwaysReachable` | src/mlx_train_perf/bench/artifacts.py:273-280 | once a breach is flagged the watchdog alone can reach the exit with code 70, whatever the main thread holds |
| `ArtifactProtocol.FreshAfterBreachIff` | src/mlx_train_perf/bench/worker.py:894-897 | after a breach the path can hold an ok record of this identity, now or later, if and only if it already does or the main thread is past its flag check with the final ok record |
| `ArtifactProtocol.TimedOutBreachCanEndOk` | src/mlx_train_perf/bench/artifacts.py:241-243 | such runs exist: the late breach record is replaced by ok and the process exits 70 |
| `ArtifactRecords.RecordsWereAsked` | src/mlx_train_perf/bench/artifacts.py:204-248 | in every run: a path that changed holds a complete record of this worker, ok or refused only if the worker finished so, checkpointed_partial only after a poll, refused_environment only after the refusal to start, aborted for a reason only after a breach for that reason |
| `ArtifactRecords.FinishLands` | src/mlx_train_perf/bench/worker.py:886-898 | from a working worker, no breach flagged and the lock free, finishing ok or refused and the main thread's own steps leave exactly that record |
| `ArtifactRecords.PollLands` | src/mlx_train_perf/bench/checkpoint.py:98-107 | so does a polled checkpoint, and the worker goes on |
| `ArtifactRecords.RefusalLands` | src/mlx_train_perf/bench/worker.py:841-847 | and the refusal to start |
| `ArtifactRecords.AwareWriteSkipped` | src/mlx_train_perf/bench/artifacts.py:244-246 | with a breach flagged a breach-aware write takes the lock, leaves the path untouched and gives the lock back |
| `ArtifactRecords.BreachLands` | src/mlx_train_perf/bench/artifacts.py:282-297 | a breach found with the lock free and its watchdog's own steps leave its abort record, with that reason, and exit 70 |
| `ArtifactRecords.CrashExits` | src/mlx_train_perf/bench/worker.py:899-905 | a worker that crashes writes nothing |
| `ArtifactRecords.TimeoutNeedsHolder` | src/mlx_train_perf/bench/artifacts.py:226 | the breach path gives up on the lock exactly when the main thread is inside its write |
| `SweepRunner.OkIsTheWorkers` | src/mlx_train_perf/bench/runner.py:352-356 | an artifact is ok after a launch if and only if a worker ran and wrote ok |
| `SweepRunner.SettledSpelledOut` | src/mlx_train_perf/bench/runner.py:307-327 | cause by cause, without a worker's record: aborted_external_guard iff a supervisor reported a policy intervention, a supervisor failure iff it reported another outcome, a client error iff the guard client failed, else a crash or a missing artifact by the exit code |
| `SweepRunner.AttemptOutcome` | src/mlx_train_perf/bench/runner.py:343-407 | one condition in the world's own terms: kept untouched, or one attempt; whether a worker runs, runs unsupervised (only while no supervisor can exist), whether the runner is stopped, and what the artifact says |
| `SweepRunner.Sweep.SpawnGuarded` | src/mlx_train_perf/bench/runner.py:155-244 | which worker ran, whether unsupervised, what the runner sees, and when an exception escapes |
| `SweepRunner.Sweep.LaunchUnderGuard` | src/mlx_train_perf/bench/runner.py:272-328 | only an absent artifact is filled in; otherwise the caller's envelope settles the same status |
| `SweepRunner.Sweep.RunOne` | src/mlx_train_perf/bench/runner.py:343-407 | one condition: fresh and untouched, or one attempt whose artifact is what that launch settles on |
| `SweepRunner.Sweep.RunConditions` | src/mlx_train_perf/bench/runner.py:331-408 | if it returns, every condition has its artifact, at most one attempt and one worker; other files are untouched; it returns exactly when no launch raises and none is interrupted |
| `SweepRunner.Sweep.SweepTwice` | src/mlx_train_perf/bench/runner.py:343-408 | a second sweep attempts exactly the conditions that are not ok and keeps the ok ones |
| `MemFit.EstimatePeak` | src/mlx_train_perf/memfit/model.py:72-84 | the first bad or raising term in order is the error; otherwise the peak is the first largest phase total |
| `MemFit.TermBytesIs` | src/mlx_train_perf/memfit/model.py:63-69 | a non-negative number counts its whole bytes; a negative one or a non-number is the input error; a term's own exception is passed on |
| `MemFit.PhaseTotalIs` | src/mlx_train_perf/memfit/model.py:78-81 | a phase's total is the whole bytes of the sum of its terms' whole bytes times one plus the overhead |
| `MemFit.TotalAt` | src/mlx_train_perf/memfit/model.py:77-81 | an estimate without an error has exactly these totals, one per phase and in order |
| `MemFit.FirstFailure` | src/mlx_train_perf/memfit/model.py:72-79 | the first bad or raising term in evaluation order decides the error |
| `MemFit.CeilLog2Exact` | src/mlx_train_perf/memfit/model.py:126-132 | CeilLog2(n) is the least k with 2^k >= n |
| `MemFit.MaxIntWithinBudget` | src/mlx_train_perf/memfit/model.py:92-133 | the result fits and is hi if hi fits, else followed by a value that does not, with nothing assumed inside the range; every error exactly when it is due; at most 2 + ceil(log2(hi - lo)) evaluations |
| `MemFit.PeakGrows` | src/mlx_train_perf/memfit/model.py:78-83 | if every term of every phase is non-decreasing, so is the predicted peak |
| `MemFit.FoundIsMaximum` | src/mlx_train_perf/memfit/model.py:95-101 | and then the values of the range that fit are exactly those up to the result |
| `ContextSearch.FindMaxContext` | scripts/northstar_context_sweep.py:193-227 | the search ends; the bounds were probed fit and fail and are less than 2 granularity apart, at most one for an aligned start; no length is probed twice; each probe is the one due: the start, twice the last while all fit, then the grid point at or before the midpoint of the closest fit and failure, until none is left |
| `ContextSearch.GranularityMissedIff` | scripts/northstar_context_sweep.py:197-199 | some probe leaves the bounds more than the granularity apart if and only if some doubling of the start below the ceiling is wide |
| `ContextSearch.AlignedNeverWide` | scripts/northstar_context_sweep.py:220 | with an aligned start no doubling is wide |
| `ContextSearch.GranularityMissed` | scripts/northstar_context_sweep.py:197-199 | start 5, granularity 4: the bounds stay 5 apart |
| `ContextSearch.NarrowFromGrid` | scripts/northstar_context_sweep.py:218-226 | from a failing bound on the grid the bisection always gets down to the granularity |
| `ContextSearch.LimitFound` | scripts/northstar_context_sweep.py:201-207 | for a probe that fits up to a limit: (0, start) when the limit is below the start; otherwise the limit lies between the bounds, or above half the ceiling when there is no upper bound |

## Left out

- Floating point: dtypes, bf16 casts, accumulation error, overflow and the gradient of the clamp. Everything numeric is over the reals.
- Rows without any visible key: the code computes NaN there. `LogSumExps.ExpDiff` uses 0; no row of the modelled attention is like that (`VisibleSum`).
- The batch axis of attention: one batch row is modelled, the others are alike and independent.
- GatedDelta.MaskedOutputsDeleted: says nothing about masked positions, whose output the code leaves unspecified.
- PackedEpoch.PackedIterateBatches: the shuffles of the epochs to run are given, so `loop=True` is any finite number of its epochs. The truncation warning and the integer dtypes are not modelled.
- CrossEntropy.ChunkedDenseCe: says nothing about targets out of range, which the code does not define.
- Quantized heads: a quantized head is one more source of logit and weight tiles, the two callbacks of `StreamedLseAndTarget` and `ChunkedBackward`; the dequantization itself is not part of this model.
- MemFit.MaxIntWithinBudget: an exception raised by `vary` itself is not modelled; one raised by a term is. The rounding of `int(float(...))` and of the overhead product is that of the reals.
- ArtifactProtocol.HardExitAlwaysReachable: reachability by the watchdog's own steps, not a time bound; the sampling interval, the breach thresholds and the two-second lock timeout have no clock here.
- The checkpoint session's progress fields, its protocol acknowledgements and fsync: a checkpoint is the write it performs.
- The runner's records under `_mlx_guard`, its temporary config files and error texts: only the artifact directory and the launches are state.
- A worker run is one atomic choice of exit code and record in `SweepRunner`; how its threads arrive at that record is `ArtifactProtocol`. A worker left running by a failed guard client is taken to have finished before the runner looks.
- Metal kernels and their dispatch, the trainer, model loading, wrapper installation, memory ceilings, calibration, report tables and the command line.
- `pack_stats` over packs that are not within capacity is covered as written; the dataset analytics below it in the same file only average its numbers and are left out.
