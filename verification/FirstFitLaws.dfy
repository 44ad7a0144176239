/**
 What first fit with a bounded pool does at every turn (data/packing.py): where each index goes,
 and which packs stay open.
 */
module FirstFitLaws {
  import opened Packing

  /** A sequence longer than the row is cut to packLen tokens; each takes one more slot. */
  lemma SlotsOf(lengths: seq<int>, packLen: int, i: nat)
    requires i < |lengths|
    ensures CostOf(lengths, packLen)(i) == (if lengths[i] < packLen then lengths[i] else packLen) + 1
    ensures CostOf(lengths, packLen)(i) <= packLen + 1
  {
  }

  // ----- which packs are open -----

  /** Filled up: a later index left the pack at most one slot, too little for any sequence. */
  predicate FilledUp(pool: Pool, p: nat)
    requires p < |pool.packs| == |pool.room|
  {
    pool.room[p] <= 1 && |pool.packs[p]| >= 2
  }

  /** Pack p is older than every open pack, and at least 8 packs were opened after it. */
  ghost predicate PushedOut(pool: Pool, p: nat) {
    |pool.packs| - 1 - p >= 8 && forall x :: 0 <= x < |pool.open| ==> pool.open[x] > p
  }

  ghost predicate OpenOrDone(pool: Pool, p: nat)
    requires p < |pool.packs| == |pool.room|
  {
    if p in pool.open then !FilledUp(pool, p) else FilledUp(pool, p) || PushedOut(pool, p)
  }

  ghost predicate OpenLaw(pool: Pool) {
    && |pool.packs| == |pool.room| && |pool.open| <= 8
    && (forall x, y :: 0 <= x < y < |pool.open| ==> pool.open[x] < pool.open[y])
    && forall p: nat :: p < |pool.packs| ==> OpenOrDone(pool, p)
  }

  lemma OpenOrder(open: seq<nat>)
    requires OpenPool(open)
    ensures forall x, y :: 0 <= x < y < |open| ==> open[x] < open[y]
  {
    forall x, y | 0 <= x < y < |open| ensures open[x] < open[y] { assert Before(open, x, y); }
  }

  /** An increasing list of n + 1 numbers that ends at last starts at last - n or below. */
  lemma {:induction false} Spread(open: seq<nat>, n: nat)
    requires OpenPool(open) && n < |open|
    ensures open[0] + n <= open[n]
  {
    if n > 0 {
      Spread(open, n - 1);
      assert Before(open, n - 1, n);
    }
  }

  lemma GrownLaw(pool: Pool, next: Pool, k: nat, i: nat, cost: int)
    requires OpenLaw(pool) && OpenPool(next.open) && Grown(pool, next, k, i, cost)
    requires pool.packs[pool.open[k]] != []
    ensures OpenLaw(next)
  {
    var j := pool.open[k];
    OpenOrder(next.open);
    forall p: nat | p < |next.packs| ensures OpenOrDone(next, p) {
      assert OpenOrDone(pool, p);
      if p != j { GrownOthers(pool, next, k, i, cost, p); } else { GrownItself(pool, next, k, i, cost); }
    }
  }

  lemma GrownOthers(pool: Pool, next: Pool, k: nat, i: nat, cost: int, p: nat)
    requires |pool.packs| == |pool.room| && Grown(pool, next, k, i, cost)
    requires p < |pool.packs| && p != pool.open[k] && OpenOrDone(pool, p)
    ensures OpenOrDone(next, p)
  {
    assert p in next.open <==> p in pool.open by {
      if p in pool.open {
        var x :| 0 <= x < |pool.open| && pool.open[x] == p;
        if next.open != pool.open { assert next.open[if x < k then x else x - 1] == p; }
      }
    }
    if PushedOut(pool, p) {
      forall x | 0 <= x < |next.open| ensures next.open[x] > p {
        assert next.open[x] in pool.open;
      }
    }
  }

  lemma GrownItself(pool: Pool, next: Pool, k: nat, i: nat, cost: int)
    requires |pool.packs| == |pool.room| && Grown(pool, next, k, i, cost)
    requires pool.packs[pool.open[k]] != []
    requires forall x, y :: 0 <= x < y < |pool.open| ==> pool.open[x] < pool.open[y]
    ensures OpenOrDone(next, pool.open[k])
  {
    var j := pool.open[k];
    if next.room[j] <= 1 {
      assert j !in next.open;
    } else {
      assert next.open[k] == j;
    }
  }

  lemma OpenedLaw(pool: Pool, next: Pool, i: nat, cost: int, cap: int)
    requires OpenLaw(pool) && OpenPool(pool.open) && OpenPool(next.open) && Opened(pool, next, i, cost, cap)
    ensures OpenLaw(next)
  {
    var n := |pool.packs|;
    OpenOrder(next.open);
    forall p: nat | p < |next.packs| ensures OpenOrDone(next, p) {
      if p == n {
        assert next.open[|next.open| - 1] == n;
      } else {
        assert OpenOrDone(pool, p);
        OpenedOthers(pool, next, i, cost, cap, p);
      }
    }
  }

  lemma OpenedOthers(pool: Pool, next: Pool, i: nat, cost: int, cap: int, p: nat)
    requires |pool.packs| == |pool.room| && OpenPool(pool.open) && Opened(pool, next, i, cost, cap)
    requires p < |pool.packs| && OpenOrDone(pool, p)
    ensures OpenOrDone(next, p)
  {
    var n := |pool.packs|;
    OpenOrder(pool.open);
    if p in pool.open {
      var x :| 0 <= x < |pool.open| && pool.open[x] == p;
      if |pool.open| == OPEN_POOL && x == 0 {
        Spread(pool.open, OPEN_POOL - 1);
        assert pool.open[OPEN_POOL - 1] < n;
        assert PushedOut(next, p);
        assert p !in next.open;
      } else {
        assert next.open[if |pool.open| == OPEN_POOL then x - 1 else x] == p;
      }
    } else {
      assert p !in next.open;
      if PushedOut(pool, p) {
        forall x | 0 <= x < |next.open| ensures next.open[x] > p {
          if next.open[x] != n { assert next.open[x] in pool.open; }
        }
      }
    }
  }

  /** The open list is in order, and no pack is empty. */
  lemma PlaceAllFacts(cost: Costs, cap: int, order: seq<nat>)
    requires Bounded(cost, cap)
    ensures OpenPool(PlaceAll(cost, cap, order).open)
    ensures forall pack :: pack in PlaceAll(cost, cap, order).packs ==> pack != []
  {
    var pool := PlaceAll(cost, cap, order);
    PlaceAllInv(cost, cap, order);
    forall pack | pack in pool.packs ensures pack != [] {
      var p :| 0 <= p < |pool.packs| && pool.packs[p] == pack;
      assert ConservesAt(cost, cap, pool.packs[p], pool.room[p]);
    }
  }

  lemma PlacedLaw(pool: Pool, next: Pool, i: nat, cost: int, cap: int)
    requires OpenLaw(pool) && OpenPool(pool.open) && Shaped(pool) && OpenPool(next.open)
    requires forall pack :: pack in pool.packs ==> pack != []
    requires next == Place(pool, i, cost, cap)
    ensures OpenLaw(next)
  {
    var k := FirstFit(pool, cost, 0);
    if k < |pool.open| {
      assert pool.packs[pool.open[k]] in pool.packs;
      GrownLaw(pool, next, k, i, cost);
    } else {
      OpenedLaw(pool, next, i, cost, cap);
    }
  }

  /**
   After any prefix of any order: at most 8 packs are open; a pack is closed because it was filled
   up, or because it is older than every open pack and at least 8 packs were opened after it; and an
   open pack was not filled up.
   */
  lemma {:induction false} OpenPacks(cost: Costs, cap: int, order: seq<nat>)
    requires Bounded(cost, cap)
    ensures OpenLaw(PlaceAll(cost, cap, order))
  {
    if order != [] {
      var front, i := order[..|order| - 1], order[|order| - 1];
      OpenPacks(cost, cap, front);
      PlaceAllFacts(cost, cap, front);
      PlaceAllFacts(cost, cap, order);
      PlacedLaw(PlaceAll(cost, cap, front), PlaceAll(cost, cap, order), i, cost(i), cap);
    }
  }

  /** A pack closed with room for a sequence is older than every open pack, with 8 packs opened after it. */
  lemma ClosedWithRoom(cost: Costs, cap: int, order: seq<nat>, p: nat)
    requires Bounded(cost, cap)
    requires var pool := PlaceAll(cost, cap, order); p < |pool.packs| && p !in pool.open && pool.room[p] > 1
    ensures var pool := PlaceAll(cost, cap, order);
      |pool.packs| - 1 - p >= 8 && forall x :: x in pool.open ==> x > p
  {
    OpenPacks(cost, cap, order);
    assert OpenOrDone(PlaceAll(cost, cap, order), p);
  }

  // ----- where each index goes -----

  /** j is the oldest open pack with enough room. */
  ghost predicate OldestFit(pool: Pool, cost: int, j: nat) {
    && |pool.packs| == |pool.room|
    && j in pool.open && j < |pool.packs| && pool.room[j] >= cost
    && forall p :: p in pool.open && p < |pool.packs| && pool.room[p] >= cost ==> j <= p
  }

  ghost predicate NoneFits(pool: Pool, cost: int) {
    |pool.packs| == |pool.room| && forall p :: p in pool.open && p < |pool.packs| ==> pool.room[p] < cost
  }

  /** Packs only grow at the end. */
  lemma {:induction false} PacksGrow(cost: Costs, cap: int, order: seq<nat>, t: nat, p: nat)
    requires t <= |order| && p < |PlaceAll(cost, cap, order[..t]).packs|
    ensures p < |PlaceAll(cost, cap, order).packs|
    ensures PlaceAll(cost, cap, order[..t]).packs[p] <= PlaceAll(cost, cap, order).packs[p]
    decreases |order|
  {
    if t == |order| {
      assert order[..t] == order;
    } else {
      var front := order[..|order| - 1];
      assert front[..t] == order[..t];
      PacksGrow(cost, cap, front, t, p);
    }
  }

  /**
   At its turn an index joins the oldest open pack with enough room, or opens a new pack if there is
   none; there it stays, after the pack's earlier members.
   */
  lemma EachIndexGoes(cost: Costs, cap: int, order: seq<nat>, t: nat) returns (j: nat)
    requires Bounded(cost, cap) && t < |order|
    ensures j < |PlaceAll(cost, cap, order).packs|
    ensures var pool, pack := PlaceAll(cost, cap, order[..t]), PlaceAll(cost, cap, order).packs[j];
      || (OldestFit(pool, cost(order[t]), j) && pool.packs[j] + [order[t]] <= pack)
      || (NoneFits(pool, cost(order[t])) && j == |pool.packs| && [order[t]] <= pack)
  {
    j := PlacedAt(cost, cap, order, t);
    PacksGrow(cost, cap, order, t + 1, j);
  }

  lemma PlacedAt(cost: Costs, cap: int, order: seq<nat>, t: nat) returns (j: nat)
    requires Bounded(cost, cap) && t < |order|
    ensures j < |PlaceAll(cost, cap, order[..t + 1]).packs|
    ensures var pool, next := PlaceAll(cost, cap, order[..t]), PlaceAll(cost, cap, order[..t + 1]);
      || (OldestFit(pool, cost(order[t]), j) && next.packs[j] == pool.packs[j] + [order[t]])
      || (NoneFits(pool, cost(order[t])) && j == |pool.packs| && next.packs[j] == [order[t]])
  {
    var pool := PlaceAll(cost, cap, order[..t]);
    assert order[..t + 1][..t] == order[..t];
    PlaceAllInv(cost, cap, order[..t]);
    OpenOrder(pool.open);
    j := PlacedIn(pool, order[t], cost(order[t]), cap);
  }

  lemma PlacedIn(pool: Pool, i: nat, cost: int, cap: int) returns (j: nat)
    requires Shaped(pool) && forall x, y :: 0 <= x < y < |pool.open| ==> pool.open[x] < pool.open[y]
    ensures var next := Place(pool, i, cost, cap);
      && j < |next.packs|
      && (|| (OldestFit(pool, cost, j) && next.packs[j] == pool.packs[j] + [i])
          || (NoneFits(pool, cost) && j == |pool.packs| && next.packs[j] == [i]))
  {
    var k := FirstFit(pool, cost, 0);
    if k < |pool.open| {
      j := pool.open[k];
      assert OldestFit(pool, cost, j);
    } else {
      j := |pool.packs|;
      assert NoneFits(pool, cost);
    }
  }
}
