/**
 One epoch of the packed batch iterator and the utilization statistics (data/packing.py).
 */
module PackedEpoch {
  import opened Results
  import opened Options
  import opened Integers
  import opened Packing
  import opened PackedRow
  import opened PackedRowLaws

  datatype EpochError = Distributed | ExceedsPositions | Pack(error: PackError) | TooFewPacks | NotMonotone

  datatype Epoch = Batches(batches: seq<seq<Layout>>) | Refused(error: EpochError)

  /** tokens[:maxLen] of every item. */
  function Truncate(items: seq<Entry>, maxLen: nat): (r: seq<Entry>)
    ensures |r| == |items|
  {
    if items == [] then []
    else
      var e := items[|items| - 1];
      Truncate(items[..|items| - 1], maxLen)
      + [Entry(if |e.tokens| <= maxLen then e.tokens else e.tokens[..maxLen], e.offset)]
  }

  function Lengths(items: seq<Entry>): (r: seq<int>)
    ensures |r| == |items| && forall i :: 0 <= i < |r| ==> r[i] == |items[i].tokens|
  {
    seq(|items|, i requires 0 <= i < |items| => |items[i].tokens|)
  }

  lemma {:induction false} TruncatedAt(items: seq<Entry>, maxLen: nat, i: nat)
    requires i < |items|
    ensures Truncate(items, maxLen)[i].tokens <= items[i].tokens
    ensures |Truncate(items, maxLen)[i].tokens| == if |items[i].tokens| <= maxLen then |items[i].tokens| else maxLen
    ensures Truncate(items, maxLen)[i].offset == items[i].offset
  {
    if i < |items| - 1 { TruncatedAt(items[..|items| - 1], maxLen, i); }
  }

  ghost predicate Short(items: seq<Entry>, maxLen: int) {
    forall i :: 0 <= i < |items| ==> |items[i].tokens| <= maxLen
  }

  lemma TruncateShort(items: seq<Entry>, maxLen: nat)
    ensures Short(Truncate(items, maxLen), maxLen)
  {
    forall i | 0 <= i < |items| ensures |Truncate(items, maxLen)[i].tokens| <= maxLen { TruncatedAt(items, maxLen, i); }
  }

  ghost predicate Packable(items: seq<Entry>, packLen: int) {
    packLen >= 1 && items != [] && forall i :: 0 <= i < |items| ==> items[i].tokens != []
  }

  lemma PackableLengths(items: seq<Entry>, packLen: int)
    ensures Packable(items, packLen) <==> !Unpackable(Lengths(items), packLen)
  {
    if i :| 0 <= i < |items| && items[i].tokens == [] {
      assert Lengths(items)[i] == 0 && Lengths(items)[i] in Lengths(items);
    }
  }

  lemma TruncatePackable(items: seq<Entry>, maxLen: nat)
    ensures Packable(Truncate(items, maxLen), maxLen) <==> Packable(items, maxLen)
  {
    forall i | 0 <= i < |items| && maxLen >= 1
      ensures Truncate(items, maxLen)[i].tokens == [] <==> items[i].tokens == []
    {
      TruncatedAt(items, maxLen, i);
    }
  }

  /** The entries of one pack, in pack order. */
  function EntriesOf(items: seq<Entry>, pack: seq<nat>): seq<Entry>
    requires forall i :: i in pack ==> i < |items|
  {
    seq(|pack|, k requires 0 <= k < |pack| => assert pack[k] in pack; items[pack[k]])
  }

  lemma {:induction false} StartIsCost(items: seq<Entry>, packLen: nat, pack: seq<nat>, n: nat)
    requires (forall i :: i in pack ==> i < |items|) && n <= |pack|
    requires forall i :: 0 <= i < |items| ==> |items[i].tokens| <= packLen
    ensures Start(EntriesOf(items, pack), n) == PackCost(CostOf(Lengths(items), packLen), pack[..n])
  {
    if n > 0 {
      StartIsCost(items, packLen, pack, n - 1);
      assert pack[..n][..n - 1] == pack[..n - 1];
      assert pack[n - 1] in pack;
    }
  }

  lemma {:induction false} FlattenMember(packs: seq<seq<nat>>, p: nat, i: nat)
    requires p < |packs| && i in packs[p]
    ensures i in Flatten(packs)
  {
    if p < |packs| - 1 { FlattenMember(packs[..|packs| - 1], p, i); }
  }

  lemma {:induction false} IndicesMember(n: nat, i: nat)
    requires i in Indices(n)
    ensures i < n
  {
    if n > 0 && i in Indices(n - 1) { IndicesMember(n - 1, i); }
  }

  lemma PackInRange(packs: seq<seq<nat>>, n: nat, p: nat, i: nat)
    requires multiset(Flatten(packs)) == multiset(Indices(n)) && p < |packs| && i in packs[p]
    ensures i < n
  {
    FlattenMember(packs, p, i);
    assert i in multiset(Flatten(packs));
    IndicesMember(n, i);
  }

  /** Pack p of the epoch, laid out. */
  ghost predicate RowOf(items: seq<Entry>, packLen: nat, packs: seq<seq<nat>>, p: int, l: Layout) {
    && 0 <= p < |packs|
    && (forall i :: i in packs[p] ==> i < |items|)
    && Fits(EntriesOf(items, packs[p]), packLen)
    && IsLayout(EntriesOf(items, packs[p]), packLen, l)
  }

  /** Batch b holds the rows of packs b * batchSize, ..., in order. */
  ghost predicate BatchOf(items: seq<Entry>, packLen: nat, packs: seq<seq<nat>>, first: int, batchSize: nat,
                          batch: seq<Layout>)
  {
    |batch| == batchSize && forall k :: 0 <= k < batchSize ==> RowOf(items, packLen, packs, first + k, batch[k])
  }

  ghost predicate BatchesOf(items: seq<Entry>, packLen: nat, packs: seq<seq<nat>>, batchSize: nat,
                            batches: seq<seq<Layout>>)
  {
    forall b :: 0 <= b < |batches| ==> BatchOf(items, packLen, packs, b * batchSize, batchSize, batches[b])
  }

  /** The packs of the order, the first of them laid out in whole batches. */
  ghost predicate IsEpoch(items: seq<Entry>, packLen: nat, order: seq<nat>, packs: seq<seq<nat>>, batchSize: nat,
                          batches: seq<seq<Layout>>)
    requires batchSize >= 1
  {
    && Packed(Lengths(items), packLen, order, packs)
    && |batches| == |packs| / batchSize >= 1
    && BatchesOf(items, packLen, packs, batchSize, batches)
  }

  /** One pack, laid out and checked. */
  method PackRow(items: seq<Entry>, packLen: nat, ghost order: seq<nat>, packs: seq<seq<nat>>, p: nat)
    returns (l: Layout, monotone: bool)
    requires packLen >= 1 && p < |packs|
    requires Short(items, packLen) && Packed(Lengths(items), packLen, order, packs)
    ensures RowOf(items, packLen, packs, p, l) && monotone
  {
    forall i | i in packs[p] ensures i < |items| { PackInRange(packs, |items|, p, i); }
    var entries := EntriesOf(items, packs[p]);
    StartIsCost(items, packLen, packs[p], |packs[p]|);
    assert packs[p][..|packs[p]|] == packs[p];
    l := BuildRow(entries, packLen);
    LayoutMonotone(entries, packLen, l);
    var a := DiffsNonNegative(l.segId);
    var b := DiffsNonNegative(l.segStart);
    monotone := a && b;
  }

  /** The refusals that come before any packing. */
  predicate Admitted(commSize: nat, maxPositions: Option<int>, maxLen: int) {
    commSize <= 1 && (maxPositions.Some? ==> maxLen <= maxPositions.value)
  }

  /** The items as packed: tokens[:maxLen]. */
  function Items(dataset: seq<Entry>, maxLen: int): (r: seq<Entry>)
    ensures |r| == |dataset|
  {
    Truncate(dataset, if maxLen >= 0 then maxLen else 0)
  }

  /** Every finished epoch is the packing of its own order, laid out in whole batches. */
  ghost predicate AreEpochs(items: seq<Entry>, maxLen: int, orders: seq<seq<nat>>, packs: seq<seq<seq<nat>>>,
                            batchSize: nat, epochs: seq<seq<seq<Layout>>>)
    requires batchSize >= 1
  {
    && |epochs| <= |packs| && |epochs| <= |orders|
    && forall e :: 0 <= e < |epochs| ==>
         maxLen >= 1 && IsEpoch(items, maxLen, orders[e], packs[e], batchSize, epochs[e])
  }

  /** The epoch after the finished ones has fewer packs than one batch needs. */
  ghost predicate RanShort(items: seq<Entry>, maxLen: int, orders: seq<seq<nat>>, packs: seq<seq<seq<nat>>>,
                           batchSize: nat, done: nat)
  {
    && maxLen >= 1 && done < |orders| && done < |packs|
    && Packed(Lengths(items), maxLen, orders[done], packs[done]) && |packs[done]| < batchSize
  }

  /**
   packed_iterate_batches over the epochs whose shuffles are given: one for loop=False, any number
   of the endless ones for loop=True. In every epoch each dataset index is in exactly one pack, the
   first packs fill whole batches, row by row and in order, and fewer than batchSize packs are
   dropped; an epoch with no whole batch ends the iteration; the monotonicity check never fires.
   */
  method PackedIterateBatches(dataset: seq<Entry>, batchSize: nat, maxLen: int, orders: seq<seq<nat>>,
                              commSize: nat, maxPositions: Option<int>)
    returns (epochs: seq<seq<seq<Layout>>>, error: Option<EpochError>, ghost packs: seq<seq<seq<nat>>>)
    requires batchSize >= 1 && orders != [] && forall e :: 0 <= e < |orders| ==> IsShuffle(orders[e], |dataset|)
    ensures error == Some(Distributed) <==> commSize > 1
    ensures error == Some(ExceedsPositions) <==> commSize <= 1 && maxPositions.Some? && maxLen > maxPositions.value
    ensures error.Some? && error.value.Pack? <==>
      Admitted(commSize, maxPositions, maxLen) && !Packable(dataset, maxLen)
    ensures error.Some? && error.value != TooFewPacks ==> epochs == []
    ensures error == Some(TooFewPacks) ==>
      RanShort(Items(dataset, maxLen), maxLen, orders, packs, batchSize, |epochs|)
    ensures error != Some(NotMonotone)
    ensures error == None ==> |epochs| == |orders|
    ensures AreEpochs(Items(dataset, maxLen), maxLen, orders, packs, batchSize, epochs)
  {
    epochs, packs := [], [];
    if commSize > 1 { return epochs, Some(Distributed), packs; }
    if maxPositions.Some? && maxLen > maxPositions.value { return epochs, Some(ExceedsPositions), packs; }
    var kept := if maxLen >= 0 then maxLen else 0;
    TruncateShort(dataset, kept);
    TruncatePackable(dataset, kept);
    PackableLengths(Truncate(dataset, kept), kept);
    epochs, error, packs := RunEpochs(Items(dataset, maxLen), maxLen, orders, batchSize);
  }

  /** The loop over epochs, on the truncated items. */
  method RunEpochs(items: seq<Entry>, maxLen: int, orders: seq<seq<nat>>, batchSize: nat)
    returns (epochs: seq<seq<seq<Layout>>>, error: Option<EpochError>, ghost packs: seq<seq<seq<nat>>>)
    requires batchSize >= 1 && (maxLen >= 1 ==> Short(items, maxLen))
    requires orders != [] && forall e :: 0 <= e < |orders| ==> IsShuffle(orders[e], |items|)
    ensures error.Some? ==> error.value == TooFewPacks || error.value.Pack?
    ensures error.Some? && error.value.Pack? <==> Unpackable(Lengths(items), maxLen)
    ensures error.Some? && error.value.Pack? ==> epochs == []
    ensures error == Some(TooFewPacks) ==> RanShort(items, maxLen, orders, packs, batchSize, |epochs|)
    ensures error == None ==> |epochs| == |orders|
    ensures AreEpochs(items, maxLen, orders, packs, batchSize, epochs)
  {
    epochs, error, packs := [], None, [];
    for e := 0 to |orders|
      invariant |epochs| == |packs| == e && (e > 0 ==> !Unpackable(Lengths(items), maxLen))
      invariant AreEpochs(items, maxLen, orders, packs, batchSize, epochs)
    {
      var r: Epoch;
      ghost var ps: seq<seq<nat>>;
      r, ps := PackAndBatch(items, maxLen, orders[e], batchSize);
      packs := packs + [ps];
      if r.Refused? { return epochs, Some(r.error), packs; }
      epochs := epochs + [r.batches];
    }
  }

  /** One epoch. */
  method PackAndBatch(items: seq<Entry>, maxLen: int, order: seq<nat>, batchSize: nat)
    returns (r: Epoch, ghost packs: seq<seq<nat>>)
    requires batchSize >= 1 && IsShuffle(order, |items|) && (maxLen >= 1 ==> Short(items, maxLen))
    ensures r.Refused? ==> r.error == TooFewPacks || r.error.Pack?
    ensures r.Refused? && r.error.Pack? <==> Unpackable(Lengths(items), maxLen)
    ensures r == Refused(TooFewPacks) ==> Packed(Lengths(items), maxLen, order, packs) && |packs| < batchSize
    ensures r.Batches? ==> maxLen >= 1 && IsEpoch(items, maxLen, order, packs, batchSize, r.batches)
  {
    packs := [];
    var packed := PackIndices(Lengths(items), maxLen, order);
    if packed.Err? { return Refused(Pack(packed.error)), packs; }
    packs := packed.value;
    r := BatchPacks(items, maxLen, order, packed.value, batchSize);
  }

  /** The batches of one epoch's packs. */
  method BatchPacks(items: seq<Entry>, packLen: nat, ghost order: seq<nat>, packs: seq<seq<nat>>, batchSize: nat)
    returns (r: Epoch)
    requires packLen >= 1 && batchSize >= 1 && Short(items, packLen)
    requires Packed(Lengths(items), packLen, order, packs)
    ensures r == Refused(TooFewPacks) <==> |packs| < batchSize
    ensures r.Refused? ==> r.error == TooFewPacks
    ensures r.Batches? ==> IsEpoch(items, packLen, order, packs, batchSize, r.batches)
  {
    var numBatches := |packs| / batchSize;
    NoWholeBatch(|packs|, batchSize, numBatches);
    if numBatches == 0 { return Refused(TooFewPacks); }
    var batches, monotone := BuildBatches(items, packLen, order, packs, numBatches, batchSize);
    if !monotone { return Refused(NotMonotone); }
    r := Batches(batches);
  }

  /** The loop over whole batches. */
  method BuildBatches(items: seq<Entry>, packLen: nat, ghost order: seq<nat>, packs: seq<seq<nat>>, numBatches: nat,
                      batchSize: nat)
    returns (batches: seq<seq<Layout>>, monotone: bool)
    requires packLen >= 1 && batchSize >= 1 && numBatches == |packs| / batchSize
    requires Short(items, packLen)
    requires Packed(Lengths(items), packLen, order, packs)
    ensures |batches| == numBatches && BatchesOf(items, packLen, packs, batchSize, batches) && monotone
  {
    batches, monotone := [], true;
    for b := 0 to numBatches
      invariant |batches| == b && monotone
      invariant forall x :: 0 <= x < b ==> BatchOf(items, packLen, packs, x * batchSize, batchSize, batches[x])
    {
      BatchBounds(|packs|, batchSize, b);
      var rows, ok := BuildBatch(items, packLen, order, packs, b * batchSize, batchSize);
      batches, monotone := batches + [rows], monotone && ok;
    }
  }

  /** The rows of one batch and the pack-time check over all of them. */
  method BuildBatch(items: seq<Entry>, packLen: nat, ghost order: seq<nat>, packs: seq<seq<nat>>, first: nat,
                    batchSize: nat)
    returns (rows: seq<Layout>, monotone: bool)
    requires packLen >= 1 && first + batchSize <= |packs|
    requires Short(items, packLen)
    requires Packed(Lengths(items), packLen, order, packs)
    ensures BatchOf(items, packLen, packs, first, batchSize, rows) && monotone
  {
    rows, monotone := [], true;
    for k := 0 to batchSize
      invariant |rows| == k && monotone
      invariant forall x :: 0 <= x < k ==> RowOf(items, packLen, packs, first + x, rows[x])
    {
      var l, ok := PackRow(items, packLen, order, packs, first + k);
      rows, monotone := rows + [l], monotone && ok;
    }
  }

  lemma NoWholeBatch(n: nat, batchSize: nat, numBatches: nat)
    requires batchSize >= 1 && numBatches == n / batchSize
    ensures numBatches == 0 <==> n < batchSize
  {
  }

  lemma BatchBounds(n: nat, batchSize: nat, b: nat)
    requires batchSize >= 1 && b < n / batchSize
    ensures 0 <= b * batchSize && b * batchSize + batchSize <= n
  {
    assert n == (n / batchSize) * batchSize + n % batchSize;
    var d := n / batchSize - b - 1;
    assert (n / batchSize) * batchSize == b * batchSize + batchSize + d * batchSize;
    assert d * batchSize >= 0;
  }

  // ----- where each example lands -----

  /** Index i sits at position k of pack p. */
  ghost predicate HoldsAt(packs: seq<seq<nat>>, p: int, k: int, i: nat) {
    0 <= p < |packs| && 0 <= k < |packs[p]| && packs[p][k] == i
  }

  lemma {:induction false} IndicesCount(n: nat, i: nat)
    ensures multiset(Indices(n))[i] == if i < n then 1 else 0
  {
    if n > 0 { IndicesCount(n - 1, i); }
  }

  lemma CountTwice(s: seq<nat>, k: nat, k': nat, i: nat)
    requires k < k' < |s| && s[k] == s[k'] == i
    ensures multiset(s)[i] >= 2
  {
    assert s == s[..k'] + s[k'..];
    assert s[..k'][k] == i && s[k'..][0] == i;
    assert i in s[..k'] && i in s[k'..];
  }

  lemma {:induction false} FlattenTwice(packs: seq<seq<nat>>, p: nat, k: nat, p': nat, k': nat, i: nat)
    requires HoldsAt(packs, p, k, i) && HoldsAt(packs, p', k', i)
    requires p < p' || (p == p' && k < k')
    ensures multiset(Flatten(packs))[i] >= 2
  {
    var front, last := packs[..|packs| - 1], packs[|packs| - 1];
    if p' < |packs| - 1 {
      FlattenTwice(front, p, k, p', k', i);
    } else if p < p' {
      assert i in last;
      FlattenMember(front, p, i);
      assert i in multiset(Flatten(front)) && i in multiset(last);
    } else {
      CountTwice(last, k, k', i);
    }
  }

  lemma {:induction false} FlattenPosition(packs: seq<seq<nat>>, i: nat) returns (p: nat, k: nat)
    requires i in Flatten(packs)
    ensures HoldsAt(packs, p, k, i)
  {
    var last := packs[|packs| - 1];
    if i in last {
      p := |packs| - 1;
      k :| k < |last| && last[k] == i;
    } else {
      p, k := FlattenPosition(packs[..|packs| - 1], i);
    }
  }

  /** Segment k of the row carries exactly the entry's tokens, under its own segment id. */
  ghost predicate Carries(l: Layout, entries: seq<Entry>, k: nat, e: Entry)
    requires k < |entries|
  {
    var t0, n := Start(entries, k), |e.tokens|;
    && t0 + n <= |l.segId| < |l.row|
    && l.row[t0..t0 + n] == e.tokens
    && forall pos :: t0 <= pos < t0 + n ==> l.segId[pos] == k
  }

  /** Index i sits at (p, k); if pack p is in a whole batch, its row carries the example whole. */
  ghost predicate LandsAt(items: seq<Entry>, packs: seq<seq<nat>>, batchSize: nat, batches: seq<seq<Layout>>,
                          i: nat, p: nat, k: nat)
    requires batchSize >= 1 && i < |items|
  {
    && HoldsAt(packs, p, k, i)
    && (forall x :: x in packs[p] ==> x < |items|)
    && (p < |batches| * batchSize ==>
         && p / batchSize < |batches| && p % batchSize < |batches[p / batchSize]|
         && Carries(batches[p / batchSize][p % batchSize], EntriesOf(items, packs[p]), k, items[i]))
  }

  lemma RowCarries(items: seq<Entry>, packLen: nat, packs: seq<seq<nat>>, p: nat, k: nat, i: nat, l: Layout)
    requires RowOf(items, packLen, packs, p, l) && HoldsAt(packs, p, k, i) && i < |items|
    ensures Carries(l, EntriesOf(items, packs[p]), k, items[i])
  {
    var entries := EntriesOf(items, packs[p]);
    assert entries[k] == items[i];
    StartMonotone(entries, k + 1, |entries|);
    SegmentTokens(entries, packLen, l, k);
    var t0, n := Start(entries, k), |items[i].tokens|;
    forall pos | t0 <= pos < t0 + n ensures l.segId[pos] == k {
      assert InSegment(entries, k, pos);
      assert InputOk(entries, k, pos, l.segId[pos], l.segStart[pos], l.lossMask[pos]);
    }
  }

  ghost predicate OnlyAt(packs: seq<seq<nat>>, p: nat, k: nat, i: nat) {
    HoldsAt(packs, p, k, i) && forall p', k' :: HoldsAt(packs, p', k', i) ==> p' == p && k' == k
  }

  lemma UniquePosition(packs: seq<seq<nat>>, n: nat, i: nat) returns (p: nat, k: nat)
    requires multiset(Flatten(packs)) == multiset(Indices(n)) && i < n
    ensures OnlyAt(packs, p, k, i)
  {
    IndicesCount(n, i);
    assert i in multiset(Flatten(packs));
    p, k := FlattenPosition(packs, i);
    forall p', k' | HoldsAt(packs, p', k', i) ensures p' == p && k' == k {
      if p < p' || (p == p' && k < k') { FlattenTwice(packs, p, k, p', k', i); }
      if p' < p || (p' == p && k' < k) { FlattenTwice(packs, p', k', p, k, i); }
    }
  }

  lemma LandsInBatch(items: seq<Entry>, packLen: nat, packs: seq<seq<nat>>, batchSize: nat, batches: seq<seq<Layout>>,
                     i: nat, p: nat, k: nat, b: nat, r: nat)
    requires batchSize >= 1 && i < |items| && BatchesOf(items, packLen, packs, batchSize, batches)
    requires HoldsAt(packs, p, k, i) && b < |batches| && r < batchSize && p == b * batchSize + r
    ensures r < |batches[b]| && RowOf(items, packLen, packs, p, batches[b][r])
    ensures Carries(batches[b][r], EntriesOf(items, packs[p]), k, items[i])
  {
    assert BatchOf(items, packLen, packs, b * batchSize, batchSize, batches[b]);
    assert RowOf(items, packLen, packs, b * batchSize + r, batches[b][r]);
    RowCarries(items, packLen, packs, p, k, i, batches[b][r]);
  }

  lemma DroppedPacks(n: nat, batchSize: nat, numBatches: nat)
    requires batchSize >= 1 && numBatches == n / batchSize
    ensures 0 <= n - numBatches * batchSize < batchSize
  {
    assert n == numBatches * batchSize + n % batchSize;
  }

  /**
   Every example of an epoch sits at exactly one place of one pack; it lands whole in the one
   yielded row of that pack, or its pack is one of the fewer than batchSize dropped ones.
   */
  lemma EachExampleLandsOnce(items: seq<Entry>, packLen: nat, order: seq<nat>, packs: seq<seq<nat>>, batchSize: nat,
                             batches: seq<seq<Layout>>, i: nat)
    returns (p: nat, k: nat)
    requires batchSize >= 1 && i < |items| && IsEpoch(items, packLen, order, packs, batchSize, batches)
    ensures OnlyAt(packs, p, k, i) && LandsAt(items, packs, batchSize, batches, i, p, k)
    ensures 0 <= |packs| - |batches| * batchSize < batchSize
  {
    DroppedPacks(|packs|, batchSize, |batches|);
    p, k := UniquePosition(packs, |items|, i);
    forall x | x in packs[p] ensures x < |items| { PackInRange(packs, |items|, p, x); }
    if p < |batches| * batchSize {
      BlockIndex(p, batchSize, |batches|);
      LandsInBatch(items, packLen, packs, batchSize, batches, i, p, k, p / batchSize, p % batchSize);
    }
  }

  // ----- utilization statistics -----

  datatype Stats = Stats(real_tokens: int, capacity_tokens: int, utilization: real, separator_fraction: real,
                         tail_pad_fraction: real)

  /** The slots of all packs that no sequence takes. */
  function TailSlots(packs: seq<seq<nat>>, lengths: seq<int>, packLen: int): int {
    |packs| * (packLen + 1) - PackCost(CostOf(lengths, packLen), Flatten(packs))
  }

  /** pack_stats: real tokens, separators and tail padding fill every pack's packLen + 1 slots. */
  method PackStats(packs: seq<seq<nat>>, lengths: seq<int>, packLen: int) returns (r: Result<Stats, PackError>)
    requires forall p, i :: 0 <= p < |packs| && i in packs[p] ==> i < |lengths|
    ensures r == Err(BadPackLen) <==> packLen < 1
    ensures r == Err(EmptyPacks) <==> packLen >= 1 && packs == []
    ensures r.Ok? ==>
      && r.value.real_tokens == PackCost(CostOf(lengths, packLen), Flatten(packs)) - |Flatten(packs)|
      && r.value.capacity_tokens == |packs| * packLen
      && r.value.capacity_tokens >= 1
      && r.value.utilization == r.value.real_tokens as real / r.value.capacity_tokens as real
      && r.value.separator_fraction == |Flatten(packs)| as real / r.value.capacity_tokens as real
      && r.value.tail_pad_fraction == TailSlots(packs, lengths, packLen) as real / r.value.capacity_tokens as real
      && r.value.utilization + r.value.separator_fraction + r.value.tail_pad_fraction == 1.0 + 1.0 / packLen as real
  {
    if packLen < 1 { return Err(BadPackLen); }
    if packs == [] { return Err(EmptyPacks); }
    var capacity := packLen + 1;
    var cost := CostOf(lengths, packLen);
    var realTokens, separators, tailPad := 0, 0, 0;
    for p := 0 to |packs|
      invariant separators == |Flatten(packs[..p])|
      invariant realTokens == PackCost(cost, Flatten(packs[..p])) - separators
      invariant realTokens + separators + tailPad == p * capacity
    {
      assert packs[..p + 1][..p] == packs[..p];
      var pack := packs[p];
      PackCostConcat(cost, Flatten(packs[..p]), pack);
      var used := 0;
      ghost var real0, sep0 := realTokens, separators;
      for k := 0 to |pack|
        invariant used == PackCost(cost, pack[..k])
        invariant realTokens == real0 + used - k && separators == sep0 + k
      {
        assert pack[..k + 1][..k] == pack[..k];
        var c := cost(pack[k]);
        realTokens := realTokens + c - 1;
        separators := separators + 1;
        used := used + c;
      }
      assert pack[..|pack|] == pack;
      tailPad := tailPad + capacity - used;
      assert (p + 1) * capacity == p * capacity + capacity;
    }
    assert packs[..|packs|] == packs;
    var capacityTokens := |packs| * packLen;
    assert capacityTokens >= 1 by { Positive(|packs|, packLen); }
    Fractions(realTokens, separators, tailPad, |packs|, packLen, capacityTokens);
    r := Ok(Stats(realTokens, capacityTokens, realTokens as real / capacityTokens as real,
                  separators as real / capacityTokens as real, tailPad as real / capacityTokens as real));
  }

  lemma Positive(n: nat, m: int)
    requires n >= 1 && m >= 1
    ensures n * m >= 1
  {
    assert (n - 1) * m >= 0;
  }

  lemma Fractions(a: int, b: int, c: int, n: nat, packLen: int, total: int)
    requires n >= 1 && packLen >= 1 && total == n * packLen >= 1 && a + b + c == n * (packLen + 1)
    ensures a as real / total as real + b as real / total as real + c as real / total as real
         == 1.0 + 1.0 / packLen as real
  {
    var t := total as real;
    assert a as real + b as real + c as real == t + n as real;
    assert a as real / t + b as real / t + c as real / t == (a as real + b as real + c as real) / t;
    Split(t, n as real, packLen as real);
  }

  lemma Ratio(q: real, t: real, n: real)
    requires t > 0.0 && q * t == n
    ensures n / t == q
  {
  }

  lemma Split(t: real, n: real, p: real)
    requires n > 0.0 && p > 0.0 && t == n * p
    ensures t > 0.0 && (t + n) / t == 1.0 + 1.0 / p
  {
    assert (1.0 / p) * p == 1.0;
    assert t > 0.0 && (1.0 / p) * t == ((1.0 / p) * p) * n;
    Ratio(1.0 / p, t, n);
    Ratio(1.0, t, t);
    Ratio(1.0 + 1.0 / p, t, t + n);
  }
}
