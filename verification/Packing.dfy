/**
 First-fit packing with a bounded pool of open packs (data/packing.py). The seeded shuffle is
 an arbitrary order of the dataset indices.
 */
module Packing {
  import opened Results

  const OPEN_POOL: nat := 8

  datatype PackError = BadPackLen | EmptyDataset | ZeroLength | EmptyPacks

  /** The slots every dataset index takes. */
  type Costs = nat -> int

  /** A sequence takes its kept tokens and its own separator. (No index outside the dataset is ever packed.) */
  function CostOf(lengths: seq<int>, packLen: int): Costs {
    (i: nat) => if i < |lengths| then (if lengths[i] < packLen then lengths[i] else packLen) + 1 else 2
  }

  ghost predicate Bounded(cost: Costs, cap: int) {
    forall i :: 2 <= cost(i) <= cap
  }

  function PackCost(cost: Costs, pack: seq<nat>): int {
    if pack == [] then 0 else PackCost(cost, pack[..|pack| - 1]) + cost(pack[|pack| - 1])
  }

  function Flatten(packs: seq<seq<nat>>): seq<nat> {
    if packs == [] then [] else Flatten(packs[..|packs| - 1]) + packs[|packs| - 1]
  }

  function TotalCost(cost: Costs, packs: seq<seq<nat>>): int {
    if packs == [] then 0 else TotalCost(cost, packs[..|packs| - 1]) + PackCost(cost, packs[|packs| - 1])
  }

  // ----- the pool -----

  datatype Pool = Pool(packs: seq<seq<nat>>, room: seq<int>, open: seq<nat>)

  predicate Shaped(pool: Pool) {
    |pool.room| == |pool.packs| && forall k :: 0 <= k < |pool.open| ==> pool.open[k] < |pool.packs|
  }

  /** Position in the open list of the first pack with enough room; the list's length if there is none. */
  function FirstFit(pool: Pool, cost: int, from: nat): (k: nat)
    requires Shaped(pool) && from <= |pool.open|
    ensures from <= k <= |pool.open|
    ensures k < |pool.open| ==> pool.room[pool.open[k]] >= cost
    ensures forall m :: from <= m < k ==> pool.room[pool.open[m]] < cost
    decreases |pool.open| - from
  {
    if from == |pool.open| || pool.room[pool.open[from]] >= cost then from else FirstFit(pool, cost, from + 1)
  }

  /** One placement: into the first open pack with room, or into a new pack. */
  function Place(pool: Pool, i: nat, cost: int, capacity: int): (next: Pool)
    requires Shaped(pool)
    ensures Shaped(next)
  {
    var k := FirstFit(pool, cost, 0);
    if k < |pool.open| then
      var j := pool.open[k];
      var left := pool.room[j] - cost;
      Pool(pool.packs[j := pool.packs[j] + [i]], pool.room[j := left],
           if left <= 1 then pool.open[..k] + pool.open[k + 1..] else pool.open)
    else
      var open' := pool.open + [|pool.packs|];
      Pool(pool.packs + [[i]], pool.room + [capacity - cost], if |open'| > OPEN_POOL then open'[1..] else open')
  }

  function PlaceAll(cost: Costs, cap: int, order: seq<nat>): (pool: Pool)
    ensures Shaped(pool)
  {
    if order == [] then Pool([], [], [])
    else
      var i := order[|order| - 1];
      Place(PlaceAll(cost, cap, order[..|order| - 1]), i, cost(i), cap)
  }

  // ----- what every placement keeps -----

  ghost predicate Before(s: seq<nat>, a: int, b: int) {
    0 <= a < b < |s| ==> s[a] < s[b]
  }

  ghost predicate StrictlyIncreasing(s: seq<nat>) {
    forall a, b :: Before(s, a, b)
  }

  /** The pack is non-empty and its cost and remaining room fill the capacity exactly. */
  ghost predicate ConservesAt(cost: Costs, cap: int, pack: seq<nat>, room: int) {
    pack != [] && room >= 0 && PackCost(cost, pack) + room == cap
  }

  ghost predicate Conserves(cost: Costs, cap: int, pool: Pool) {
    Shaped(pool) && forall p :: 0 <= p < |pool.packs| ==> ConservesAt(cost, cap, pool.packs[p], pool.room[p])
  }

  ghost predicate PairOverflows(cost: Costs, cap: int, packs: seq<seq<nat>>, p: nat)
    requires 0 < p < |packs|
  {
    PackCost(cost, packs[p - 1]) + PackCost(cost, packs[p]) > cap
  }

  /** Two packs opened one after the other never fit into one. */
  ghost predicate PairsOverflow(cost: Costs, cap: int, packs: seq<seq<nat>>) {
    forall p :: 0 < p < |packs| ==> PairOverflows(cost, cap, packs, p)
  }

  /** The newest pack is open, or has no room for even a one-token sequence. */
  ghost predicate LastReady(pool: Pool) {
    Shaped(pool) && (pool.packs != [] ==>
      || (pool.open != [] && pool.open[|pool.open| - 1] == |pool.packs| - 1)
      || pool.room[|pool.packs| - 1] <= 1)
  }

  ghost predicate OpenPool(open: seq<nat>) {
    StrictlyIncreasing(open) && |open| <= OPEN_POOL
  }

  ghost predicate Inv(cost: Costs, cap: int, pool: Pool, done: seq<nat>) {
    && Conserves(cost, cap, pool)
    && OpenPool(pool.open)
    && multiset(Flatten(pool.packs)) == multiset(done)
    && PairsOverflow(cost, cap, pool.packs)
    && LastReady(pool)
  }

  lemma PackCostAppend(cost: Costs, pack: seq<nat>, i: nat)
    ensures PackCost(cost, pack + [i]) == PackCost(cost, pack) + cost(i)
  {
    assert (pack + [i])[..|pack|] == pack;
  }

  lemma {:induction false} FlattenUpdate(packs: seq<seq<nat>>, j: nat, i: nat)
    requires j < |packs|
    ensures multiset(Flatten(packs[j := packs[j] + [i]])) == multiset(Flatten(packs)) + multiset{i}
  {
    var front, packs' := packs[..|packs| - 1], packs[j := packs[j] + [i]];
    if j == |packs| - 1 {
      assert packs'[..|packs| - 1] == front;
    } else {
      FlattenUpdate(front, j, i);
      assert packs'[..|packs| - 1] == front[j := front[j] + [i]];
    }
  }

  lemma FlattenAppend(packs: seq<seq<nat>>, pack: seq<nat>)
    ensures Flatten(packs + [pack]) == Flatten(packs) + pack
  {
    assert (packs + [pack])[..|packs|] == packs;
  }

  lemma RemovedOpen(open: seq<nat>, k: nat)
    requires OpenPool(open) && k < |open|
    ensures OpenPool(open[..k] + open[k + 1..])
  {
    var rest := open[..k] + open[k + 1..];
    forall a, b ensures Before(rest, a, b) {
      assert Before(open, if a < k then a else a + 1, if b < k then b else b + 1);
    }
  }

  lemma PairsGrow(cost: Costs, cap: int, packs: seq<seq<nat>>, j: nat, i: nat)
    requires PairsOverflow(cost, cap, packs) && j < |packs| && cost(i) >= 0
    ensures PairsOverflow(cost, cap, packs[j := packs[j] + [i]])
  {
    var packs' := packs[j := packs[j] + [i]];
    PackCostAppend(cost, packs[j], i);
    forall p | 0 < p < |packs'| ensures PairOverflows(cost, cap, packs', p) {
      assert PairOverflows(cost, cap, packs, p);
    }
  }

  lemma ConservesGrow(cost: Costs, cap: int, pool: Pool, j: nat, i: nat, next: Pool)
    requires Conserves(cost, cap, pool) && j < |pool.packs| && pool.room[j] >= cost(i) && Shaped(next)
    requires next.packs == pool.packs[j := pool.packs[j] + [i]] && next.room == pool.room[j := pool.room[j] - cost(i)]
    ensures Conserves(cost, cap, next)
  {
    PackCostAppend(cost, pool.packs[j], i);
    forall p | 0 <= p < |next.packs| ensures ConservesAt(cost, cap, next.packs[p], next.room[p]) {
      assert ConservesAt(cost, cap, pool.packs[p], pool.room[p]);
    }
  }

  /** next is pool with index i added to open pack k. */
  ghost predicate Grown(pool: Pool, next: Pool, k: nat, i: nat, cost: int) {
    && Shaped(pool) && Shaped(next) && k < |pool.open| && pool.room[pool.open[k]] >= cost
    && var j := pool.open[k];
       && next.packs == pool.packs[j := pool.packs[j] + [i]]
       && next.room == pool.room[j := pool.room[j] - cost]
       && next.open == if next.room[j] <= 1 then pool.open[..k] + pool.open[k + 1..] else pool.open
  }

  lemma LastGrow(pool: Pool, next: Pool, k: nat, i: nat, cost: int)
    requires LastReady(pool) && cost >= 0 && Grown(pool, next, k, i, cost)
    ensures LastReady(next)
  {
    var n, m, j := |pool.packs|, |pool.open|, pool.open[k];
    if pool.room[n - 1] <= 1 {
      assert next.room[n - 1] <= 1;
    } else if next.room[j] > 1 {
      assert next.open == pool.open;
    } else if k < m - 1 {
      assert next.open[m - 2] == pool.open[m - 1];
    } else {
      assert j == n - 1;
    }
  }

  lemma GrowKeepsInv(cost: Costs, cap: int, pool: Pool, done: seq<nat>, i: nat, k: nat, next: Pool)
    requires Inv(cost, cap, pool, done) && cost(i) >= 2 && Grown(pool, next, k, i, cost(i))
    ensures Inv(cost, cap, next, done + [i])
  {
    var j := pool.open[k];
    ConservesGrow(cost, cap, pool, j, i, next);
    FlattenUpdate(pool.packs, j, i);
    PairsGrow(cost, cap, pool.packs, j, i);
    RemovedOpen(pool.open, k);
    LastGrow(pool, next, k, i, cost(i));
  }

  lemma PlaceInOpen(cost: Costs, cap: int, pool: Pool, done: seq<nat>, i: nat, k: nat)
    requires Inv(cost, cap, pool, done) && cost(i) >= 2
    requires k == FirstFit(pool, cost(i), 0) < |pool.open|
    ensures Inv(cost, cap, Place(pool, i, cost(i), cap), done + [i])
  {
    GrowKeepsInv(cost, cap, pool, done, i, k, Place(pool, i, cost(i), cap));
  }

  lemma NewOpen(pool: Pool, open': seq<nat>)
    requires Shaped(pool) && OpenPool(pool.open) && open' == pool.open + [|pool.packs|]
    ensures StrictlyIncreasing(open') && |open'| > 0
    ensures |open'| <= OPEN_POOL ==> OpenPool(open')
    ensures |open'| > OPEN_POOL ==> OpenPool(open'[1..]) && open'[1..] != []
  {
    forall a, b ensures Before(open', a, b) { assert Before(pool.open, a, b); }
    forall a, b ensures Before(open'[1..], a, b) {
      if 0 <= a { assert Before(open', a + 1, b + 1); }
    }
  }

  lemma NewestOverflows(cost: Costs, cap: int, pool: Pool, i: nat)
    requires Conserves(cost, cap, pool) && LastReady(pool) && cost(i) >= 2 && pool.packs != []
    requires FirstFit(pool, cost(i), 0) == |pool.open|
    ensures PackCost(cost, pool.packs[|pool.packs| - 1]) + cost(i) > cap
  {
    var n := |pool.packs|;
    assert ConservesAt(cost, cap, pool.packs[n - 1], pool.room[n - 1]);
  }

  lemma SingleCost(cost: Costs, i: nat)
    ensures PackCost(cost, [i]) == cost(i)
  {
    PackCostAppend(cost, [], i);
    assert [] + [i] == [i];
  }

  lemma PairsExtend(cost: Costs, cap: int, packs: seq<seq<nat>>, i: nat)
    requires PairsOverflow(cost, cap, packs)
    requires packs != [] ==> PackCost(cost, packs[|packs| - 1]) + cost(i) > cap
    ensures PairsOverflow(cost, cap, packs + [[i]])
  {
    var packs' := packs + [[i]];
    SingleCost(cost, i);
    forall p | 0 < p < |packs'| ensures PairOverflows(cost, cap, packs', p) {
      if p < |packs| { assert PairOverflows(cost, cap, packs, p); }
    }
  }

  lemma ConservesExtend(cost: Costs, cap: int, pool: Pool, i: nat, next: Pool)
    requires Conserves(cost, cap, pool) && cost(i) <= cap && Shaped(next)
    requires next.packs == pool.packs + [[i]] && next.room == pool.room + [cap - cost(i)]
    ensures Conserves(cost, cap, next)
  {
    SingleCost(cost, i);
    forall p | 0 <= p < |next.packs| ensures ConservesAt(cost, cap, next.packs[p], next.room[p]) {
      if p < |pool.packs| { assert ConservesAt(cost, cap, pool.packs[p], pool.room[p]); }
    }
  }

  /** next is pool with index i in a new pack, the oldest open pack closed if there are too many. */
  ghost predicate Opened(pool: Pool, next: Pool, i: nat, cost: int, cap: int) {
    && Shaped(pool) && Shaped(next)
    && next.packs == pool.packs + [[i]]
    && next.room == pool.room + [cap - cost]
    && var open' := pool.open + [|pool.packs|];
       next.open == if |open'| > OPEN_POOL then open'[1..] else open'
  }

  lemma OpenedPool(pool: Pool, next: Pool, i: nat, cost: int, cap: int)
    requires OpenPool(pool.open) && Opened(pool, next, i, cost, cap)
    ensures OpenPool(next.open) && LastReady(next)
  {
    NewOpen(pool, pool.open + [|pool.packs|]);
  }

  lemma OpenKeepsInv(cost: Costs, cap: int, pool: Pool, done: seq<nat>, i: nat, next: Pool)
    requires Inv(cost, cap, pool, done) && 2 <= cost(i) <= cap && Opened(pool, next, i, cost(i), cap)
    requires pool.packs != [] ==> PackCost(cost, pool.packs[|pool.packs| - 1]) + cost(i) > cap
    ensures Inv(cost, cap, next, done + [i])
  {
    OpenedPool(pool, next, i, cost(i), cap);
    PairsExtend(cost, cap, pool.packs, i);
    ConservesExtend(cost, cap, pool, i, next);
    FlattenAppend(pool.packs, [i]);
  }

  lemma PlaceInNew(cost: Costs, cap: int, pool: Pool, done: seq<nat>, i: nat)
    requires Inv(cost, cap, pool, done) && 2 <= cost(i) <= cap
    requires FirstFit(pool, cost(i), 0) == |pool.open|
    ensures Inv(cost, cap, Place(pool, i, cost(i), cap), done + [i])
  {
    if pool.packs != [] { NewestOverflows(cost, cap, pool, i); }
    OpenKeepsInv(cost, cap, pool, done, i, Place(pool, i, cost(i), cap));
  }

  /** The invariant holds after every prefix of the order. */
  lemma {:induction false} PlaceAllInv(cost: Costs, cap: int, order: seq<nat>)
    requires Bounded(cost, cap)
    ensures Inv(cost, cap, PlaceAll(cost, cap, order), order)
  {
    if order != [] {
      var front, i := order[..|order| - 1], order[|order| - 1];
      PlaceAllInv(cost, cap, front);
      var pool := PlaceAll(cost, cap, front);
      var k := FirstFit(pool, cost(i), 0);
      if k < |pool.open| {
        PlaceInOpen(cost, cap, pool, front, i, k);
      } else {
        PlaceInNew(cost, cap, pool, front, i);
      }
      assert front + [i] == order;
    }
  }

  // ----- pack_indices -----

  function Indices(n: nat): seq<nat> {
    if n == 0 then [] else Indices(n - 1) + [n - 1]
  }

  /** order is a shuffle of 0 .. n - 1. */
  ghost predicate IsShuffle(order: seq<nat>, n: nat) {
    multiset(order) == multiset(Indices(n))
  }

  lemma CostBounded(lengths: seq<int>, packLen: int)
    requires packLen >= 1 && forall n :: n in lengths ==> n >= 1
    ensures Bounded(CostOf(lengths, packLen), packLen + 1)
  {
    forall i: nat ensures 2 <= CostOf(lengths, packLen)(i) <= packLen + 1 {
      if i < |lengths| { assert lengths[i] in lengths; }
    }
  }

  /**
   The packs of one epoch: the first-fit packing of the order, a partition of the dataset into
   non-empty packs within capacity, no two consecutive ones of which could have been one pack.
   */
  ghost predicate Packed(lengths: seq<int>, packLen: int, order: seq<nat>, packs: seq<seq<nat>>) {
    && packLen >= 1
    && packs == PlaceAll(CostOf(lengths, packLen), packLen + 1, order).packs
    && multiset(Flatten(packs)) == multiset(Indices(|lengths|))
    && PairsOverflow(CostOf(lengths, packLen), packLen + 1, packs)
    && forall p :: 0 <= p < |packs| ==> packs[p] != [] && PackCost(CostOf(lengths, packLen), packs[p]) <= packLen + 1
  }

  predicate HasEmpty(lengths: seq<int>) {
    exists n :: n in lengths && n < 1
  }

  predicate Unpackable(lengths: seq<int>, packLen: int) {
    packLen < 1 || lengths == [] || HasEmpty(lengths)
  }

  lemma PlacedIsPacked(lengths: seq<int>, packLen: int, order: seq<nat>)
    requires packLen >= 1 && (forall n :: n in lengths ==> n >= 1) && IsShuffle(order, |lengths|)
    ensures Packed(lengths, packLen, order, PlaceAll(CostOf(lengths, packLen), packLen + 1, order).packs)
  {
    var costs, capacity := CostOf(lengths, packLen), packLen + 1;
    var pool := PlaceAll(costs, capacity, order);
    CostBounded(lengths, packLen);
    PlaceAllInv(costs, capacity, order);
    forall p | 0 <= p < |pool.packs| ensures pool.packs[p] != [] && PackCost(costs, pool.packs[p]) <= capacity {
      assert ConservesAt(costs, capacity, pool.packs[p], pool.room[p]);
    }
  }

  /**
   pack_indices: the packs of the bounded-pool first fit, which partition the dataset, respect
   the capacity, and of which no two consecutive ones could have been one pack.
   */
  method PackIndices(lengths: seq<int>, packLen: int, order: seq<nat>) returns (r: Result<seq<seq<nat>>, PackError>)
    requires IsShuffle(order, |lengths|)
    ensures r == Err(BadPackLen) <==> packLen < 1
    ensures r == Err(EmptyDataset) <==> packLen >= 1 && lengths == []
    ensures r == Err(ZeroLength) <==> packLen >= 1 && lengths != [] && HasEmpty(lengths)
    ensures r.Err? <==> Unpackable(lengths, packLen)
    ensures r.Ok? ==> Packed(lengths, packLen, order, r.value)
  {
    if packLen < 1 { return Err(BadPackLen); }
    if lengths == [] { return Err(EmptyDataset); }
    if HasEmpty(lengths) { return Err(ZeroLength); }
    var capacity := packLen + 1;
    var costs := CostOf(lengths, packLen);
    CostBounded(lengths, packLen);
    var packs: seq<seq<nat>>, room: seq<int>, open: seq<nat> := [], [], [];
    for m := 0 to |order|
      invariant Pool(packs, room, open) == PlaceAll(costs, capacity, order[..m])
    {
      assert order[..m + 1][..m] == order[..m];
      var i := order[m];
      var cost := costs(i);
      packs, room, open := PlaceOne(packs, room, open, i, cost, capacity);
    }
    assert order[..|order|] == order;
    PlacedIsPacked(lengths, packLen, order);
    r := Ok(packs);
  }

  /** The body of the packing loop: scan the open packs, break at the first that has room. */
  method PlaceOne(packs0: seq<seq<nat>>, room0: seq<int>, open0: seq<nat>, i: nat, cost: int, capacity: int)
    returns (packs: seq<seq<nat>>, room: seq<int>, open: seq<nat>)
    requires Shaped(Pool(packs0, room0, open0))
    ensures Pool(packs, room, open) == Place(Pool(packs0, room0, open0), i, cost, capacity)
  {
    packs, room, open := packs0, room0, open0;
    for k := 0 to |open0|
      invariant packs == packs0 && room == room0 && open == open0
      invariant FirstFit(Pool(packs0, room0, open0), cost, 0) == FirstFit(Pool(packs0, room0, open0), cost, k)
    {
      var j := open[k];
      if room[j] >= cost {
        packs := packs[j := packs[j] + [i]];
        room := room[j := room[j] - cost];
        if room[j] <= 1 {
          open := open[..k] + open[k + 1..];
        }
        return;
      }
    }
    packs := packs + [[i]];
    room := room + [capacity - cost];
    open := open + [|packs| - 1];
    if |open| > OPEN_POOL {
      open := open[1..];
    }
  }

  // ----- the packing is a 2-approximation -----

  lemma {:induction false} PackCostRemove(cost: Costs, s: seq<nat>, k: nat)
    requires k < |s|
    ensures PackCost(cost, s) == PackCost(cost, s[..k] + s[k + 1..]) + cost(s[k])
  {
    var rest := s[..k] + s[k + 1..];
    if k == |s| - 1 {
      assert rest == s[..k];
    } else {
      var front := s[..|s| - 1];
      PackCostRemove(cost, front, k);
      assert rest[..|rest| - 1] == front[..k] + front[k + 1..];
    }
  }

  lemma MultisetRemove(t: seq<nat>, k: nat)
    requires k < |t|
    ensures multiset(t[..k] + t[k + 1..]) == multiset(t) - multiset{t[k]}
  {
    assert t == t[..k] + [t[k]] + t[k + 1..];
  }

  /** The total cost only depends on which indices are packed. */
  lemma {:induction false} PackCostPermutation(cost: Costs, s: seq<nat>, t: seq<nat>)
    requires multiset(s) == multiset(t)
    ensures PackCost(cost, s) == PackCost(cost, t)
    decreases |s|
  {
    assert |multiset(s)| == |multiset(t)|;
    if s != [] {
      var front, x := s[..|s| - 1], s[|s| - 1];
      assert s == front + [x];
      assert x in multiset(t);
      var k :| 0 <= k < |t| && t[k] == x;
      PackCostRemove(cost, t, k);
      MultisetRemove(t, k);
      assert multiset(t[..k] + t[k + 1..]) == multiset(s) - multiset{x} == multiset(front);
      PackCostPermutation(cost, front, t[..k] + t[k + 1..]);
    }
  }

  lemma {:induction false} PackCostConcat(cost: Costs, s: seq<nat>, t: seq<nat>)
    ensures PackCost(cost, s + t) == PackCost(cost, s) + PackCost(cost, t)
  {
    if t == [] {
      assert s + t == s;
    } else {
      var front := t[..|t| - 1];
      PackCostConcat(cost, s, front);
      assert (s + t)[..|s + t| - 1] == s + front;
    }
  }

  lemma {:induction false} TotalOfFlatten(cost: Costs, packs: seq<seq<nat>>)
    ensures PackCost(cost, Flatten(packs)) == TotalCost(cost, packs)
  {
    if packs != [] {
      TotalOfFlatten(cost, packs[..|packs| - 1]);
      PackCostConcat(cost, Flatten(packs[..|packs| - 1]), packs[|packs| - 1]);
    }
  }

  lemma {:induction false} TotalAtMost(cost: Costs, cap: int, packs: seq<seq<nat>>)
    requires forall p :: 0 <= p < |packs| ==> PackCost(cost, packs[p]) <= cap
    ensures TotalCost(cost, packs) <= |packs| * cap
  {
    if packs != [] {
      TotalAtMost(cost, cap, packs[..|packs| - 1]);
      assert |packs| * cap == (|packs| - 1) * cap + cap;
    }
  }

  lemma TotalOfTwo(cost: Costs, cap: int, packs: seq<seq<nat>>, front: seq<seq<nat>>, a: seq<nat>, b: seq<nat>)
    requires packs == front + [a] + [b] && PackCost(cost, a) + PackCost(cost, b) > cap
    ensures TotalCost(cost, packs) > TotalCost(cost, front) + cap
  {
    var mid := front + [a];
    assert packs[..|packs| - 1] == mid && mid[..|mid| - 1] == front;
  }

  /** m packs cost more than floor(m / 2) full ones. */
  lemma {:induction false} TotalOfPairs(cost: Costs, cap: int, packs: seq<seq<nat>>, half: nat)
    requires PairsOverflow(cost, cap, packs) && |packs| >= 2 * half
    requires forall p :: 0 <= p < |packs| ==> PackCost(cost, packs[p]) >= 0
    ensures TotalCost(cost, packs) >= half * (cap + 1)
    decreases |packs|
  {
    if half > 0 {
      var front := packs[..|packs| - 2];
      forall p | 0 < p < |front| ensures PairOverflows(cost, cap, front, p) {
        assert PairOverflows(cost, cap, packs, p);
      }
      TotalOfPairs(cost, cap, front, half - 1);
      var n := |packs|;
      assert PairOverflows(cost, cap, packs, n - 1);
      assert packs == front + [packs[n - 2]] + [packs[n - 1]];
      TotalOfTwo(cost, cap, packs, front, packs[n - 2], packs[n - 1]);
      assert half * (cap + 1) == (half - 1) * (cap + 1) + (cap + 1);
    } else {
      TotalNonNegative(cost, packs);
    }
  }

  lemma {:induction false} TotalNonNegative(cost: Costs, packs: seq<seq<nat>>)
    requires forall p :: 0 <= p < |packs| ==> PackCost(cost, packs[p]) >= 0
    ensures TotalCost(cost, packs) >= 0
  {
    if packs != [] { TotalNonNegative(cost, packs[..|packs| - 1]); }
  }

  /** A packing of the same indices into packs within capacity. */
  ghost predicate IsPacking(cost: Costs, cap: int, order: seq<nat>, alt: seq<seq<nat>>) {
    && multiset(Flatten(alt)) == multiset(order)
    && forall p :: 0 <= p < |alt| ==> PackCost(cost, alt[p]) <= cap
  }

  /** Whatever the shuffle, first fit opens fewer than twice the packs of any packing. */
  lemma TwoApproximation(cost: Costs, cap: int, order: seq<nat>, alt: seq<seq<nat>>)
    requires Bounded(cost, cap) && order != [] && IsPacking(cost, cap, order, alt)
    ensures |PlaceAll(cost, cap, order).packs| <= 2 * |alt| - 1
  {
    var pool := PlaceAll(cost, cap, order);
    var packs := pool.packs;
    PlaceAllInv(cost, cap, order);
    TotalOfFlatten(cost, packs);
    TotalOfFlatten(cost, alt);
    PackCostPermutation(cost, Flatten(packs), Flatten(alt));
    TotalAtMost(cost, cap, alt);
    forall p | 0 <= p < |packs| ensures PackCost(cost, packs[p]) >= 0 {
      PackCostNonNegative(cost, cap, packs[p]);
    }
    assert |alt| > 0 by { assert |multiset(Flatten(alt))| == |multiset(order)|; }
    assert |alt| * (cap + 1) == |alt| * cap + |alt|;
    if |packs| >= 2 * |alt| {
      TotalOfPairs(cost, cap, packs, |alt|);
    }
  }

  lemma {:induction false} PackCostNonNegative(cost: Costs, cap: int, pack: seq<nat>)
    requires Bounded(cost, cap)
    ensures PackCost(cost, pack) >= 2 * |pack|
  {
    if pack != [] { PackCostNonNegative(cost, cap, pack[..|pack| - 1]); }
  }
}
