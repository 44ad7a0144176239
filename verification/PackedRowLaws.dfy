/**
 What a packed row promises its consumers: contiguous ascending segments, the unpacked
 supervision, and that nothing about the packed sequences is lost.
 */
module PackedRowLaws {
  import opened RealSums
  import opened PackedRow

  // ----- the row, position by position -----

  /**
   Segment s starts after the tokens and the pad slots of the segments before it. It carries its
   tokens and a zero; its positions that are inputs carry its number and its start, and are supervised
   from the token before its offset (before the second one at the earliest) to its last but one.
   */
  lemma SegmentInFull(entries: seq<Entry>, packLen: nat, l: Layout, s: nat, p: nat)
    requires IsLayout(entries, packLen, l) && Fits(entries, packLen) && s < |entries| && p <= |entries[s].tokens|
    ensures Start(entries, 0) == 0 && Start(entries, s + 1) == Start(entries, s) + |entries[s].tokens| + 1
    ensures Start(entries, s) + p <= packLen
    ensures l.row[Start(entries, s) + p] == if p < |entries[s].tokens| then entries[s].tokens[p] else 0
    ensures Start(entries, s) + p < packLen ==>
      && l.segId[Start(entries, s) + p] == s
      && l.segStart[Start(entries, s) + p] == Start(entries, s)
      && (l.lossMask[Start(entries, s) + p] <==> entries[s].offset - 1 <= p < |entries[s].tokens|)
  {
    var pos := Start(entries, s) + p;
    StartMonotone(entries, s + 1, |entries|);
    assert InSegment(entries, s, pos);
    assert RowOk(entries, s, pos, l.row[pos]);
    if pos < packLen { assert InputOk(entries, s, pos, l.segId[pos], l.segStart[pos], l.lossMask[pos]); }
  }

  /** What the segments leave is one last segment of zeros, never supervised. */
  lemma TailInFull(entries: seq<Entry>, packLen: nat, l: Layout, pos: nat)
    requires IsLayout(entries, packLen, l) && Start(entries, |entries|) <= pos <= packLen
    ensures l.row[pos] == 0
    ensures pos < packLen ==>
      l.segId[pos] == |entries| && l.segStart[pos] == Start(entries, |entries|) && !l.lossMask[pos]
  {
    assert InSegment(entries, |entries|, pos);
    assert RowOk(entries, |entries|, pos, l.row[pos]);
    if pos < packLen {
      assert InputOk(entries, |entries|, pos, l.segId[pos], l.segStart[pos], l.lossMask[pos]);
    }
  }

  // ----- segments are intervals -----

  /** The keys of i's own segment at or before i are exactly the interval from its start. */
  lemma SegmentIsInterval(entries: seq<Entry>, packLen: nat, l: Layout, i: nat, j: nat)
    requires IsLayout(entries, packLen, l) && i < packLen && j < packLen
    ensures 0 <= l.segStart[i] <= i
    ensures (l.segId[j] == l.segId[i] && j <= i) <==> l.segStart[i] <= j <= i
  {
    var s, t := SegmentOf(entries, i), SegmentOf(entries, j);
    assert InputOk(entries, s, i, l.segId[i], l.segStart[i], l.lossMask[i]);
    assert InputOk(entries, t, j, l.segId[j], l.segStart[j], l.lossMask[j]);
    if l.segStart[i] <= j <= i {
      assert InSegment(entries, s, j);
      SegmentUnique(entries, s, t, j);
    }
  }

  ghost predicate Monotone(s: seq<int>) {
    forall i, j :: 0 <= i <= j < |s| ==> s[i] <= s[j]
  }

  lemma LayoutMonotone(entries: seq<Entry>, packLen: nat, l: Layout)
    requires IsLayout(entries, packLen, l)
    ensures Monotone(l.segId) && Monotone(l.segStart)
  {
    forall i, j | 0 <= i <= j < packLen
      ensures l.segId[i] <= l.segId[j] && l.segStart[i] <= l.segStart[j]
    {
      var s, t := SegmentOf(entries, i), SegmentOf(entries, j);
      assert InputOk(entries, s, i, l.segId[i], l.segStart[i], l.lossMask[i]);
      assert InputOk(entries, t, j, l.segId[j], l.segStart[j], l.lossMask[j]);
      if t < s { StartMonotone(entries, t, s); }
      StartMonotone(entries, s, t);
    }
  }

  /** np.all(np.diff(row) >= 0), the host-side check on every packed batch. */
  method DiffsNonNegative(s: seq<int>) returns (ok: bool)
    ensures ok <==> Monotone(s)
  {
    if s == [] { return true; }
    for k := 1 to |s|
      invariant Monotone(s[..k])
    {
      if s[k] < s[k - 1] { return false; }
      assert s[..k][k - 1] == s[k - 1];
    }
    assert s[..|s|] == s;
    return true;
  }

  // ----- supervision -----

  /** The unpacked batch's mask (steps >= offset) & (steps <= length) at target column p. */
  predicate StockMask(e: Entry, p: int) {
    e.offset <= p + 1 <= |e.tokens|
  }

  /** An unpacked row: the tokens, then zeros. */
  function StockRow(e: Entry, p: int): int
    requires p >= 0
  {
    if p < |e.tokens| then e.tokens[p] else 0
  }

  /**
   On each segment the packed mask is the unpacked mask shifted by the segment's start; inputs
   agree everywhere and targets wherever there is supervision.
   */
  lemma SupervisionPreserved(entries: seq<Entry>, packLen: nat, l: Layout, s: nat, p: nat)
    requires IsLayout(entries, packLen, l)
    requires s < |entries| && p <= |entries[s].tokens| && Start(entries, s) + p < packLen
    ensures l.lossMask[Start(entries, s) + p] <==> StockMask(entries[s], p)
    ensures l.row[Start(entries, s) + p] == StockRow(entries[s], p)
    ensures StockMask(entries[s], p) ==>
      && l.row[Start(entries, s) + p + 1] == StockRow(entries[s], p + 1)
      && InSegment(entries, s, Start(entries, s) + p + 1)
  {
    var pos := Start(entries, s) + p;
    assert InSegment(entries, s, pos);
    assert InputOk(entries, s, pos, l.segId[pos], l.segStart[pos], l.lossMask[pos]);
    assert RowOk(entries, s, pos, l.row[pos]);
    if StockMask(entries[s], p) {
      assert InSegment(entries, s, pos + 1);
      assert RowOk(entries, s, pos + 1, l.row[pos + 1]);
    }
  }

  /** nll at the supervised positions, 0 elsewhere. */
  function PackedTerm(l: Layout, nll: Vec): Vec {
    pos => if 0 <= pos < |l.lossMask| && l.lossMask[pos] then nll(pos) else 0.0
  }

  function StockTerm(e: Entry, nll: Vec): Vec {
    p => if StockMask(e, p) then nll(p) else 0.0
  }

  /** The losses of a position depend only on its place in its sequence. */
  ghost predicate SameLosses(entries: seq<Entry>, nll: Vec, stock: int -> Vec) {
    forall s: nat, p: nat :: s < |entries| && StockMask(entries[s], p) ==> nll(Start(entries, s) + p) == stock(s)(p)
  }

  lemma SegmentLoss(entries: seq<Entry>, packLen: nat, l: Layout, nll: Vec, stock: int -> Vec, s: nat, width: nat)
    requires IsLayout(entries, packLen, l) && Fits(entries, packLen) && SameLosses(entries, nll, stock)
    requires s < |entries| && width >= |entries[s].tokens|
    ensures Sum(Start(entries, s), Start(entries, s + 1), PackedTerm(l, nll)) == Sum(0, width,
                                                                                     StockTerm(entries[s], stock(s)))
  {
    var n, t0, e := |entries[s].tokens|, Start(entries, s), entries[s];
    var f, g := PackedTerm(l, nll), StockTerm(e, stock(s));
    StartMonotone(entries, s + 1, |entries|);
    forall p: int | 0 <= p < n + 1 ensures g(p) == f(p + t0) {
      if t0 + p < packLen {
        SupervisionPreserved(entries, packLen, l, s, p);
      }
    }
    SumShift(0, n + 1, t0, g, f);
    SumSplit(0, n, n + 1, g);
    SumSplit(0, n, width, g);
    SumZero(n, width, g);
  }

  lemma {:induction false} PrefixLoss(entries: seq<Entry>, packLen: nat, l: Layout, nll: Vec, stock: int -> Vec,
                                      width: int -> nat, n: nat, totals: Vec)
    requires IsLayout(entries, packLen, l) && Fits(entries, packLen) && SameLosses(entries, nll, stock)
    requires n <= |entries|
    requires forall s: nat :: s < |entries| ==> width(s) >= |entries[s].tokens|
    requires forall s: nat :: s < |entries| ==> totals(s) == Sum(0, width(s), StockTerm(entries[s], stock(s)))
    ensures Sum(0, Start(entries, n), PackedTerm(l, nll)) == Sum(0, n, totals)
  {
    if n > 0 {
      PrefixLoss(entries, packLen, l, nll, stock, width, n - 1, totals);
      SegmentLoss(entries, packLen, l, nll, stock, n - 1, width(n - 1));
      StartMonotone(entries, n - 1, n);
      SumSplit(0, Start(entries, n - 1), Start(entries, n), PackedTerm(l, nll));
    }
  }

  /**
   The packed row's masked loss is the sum of its sequences' unpacked masked losses, for any
   unpacked row widths with room for the sequence and its pad slot. With every loss 1 this
   says the token counts add up.
   */
  lemma PackedLossIsSum(entries: seq<Entry>, packLen: nat, l: Layout, nll: Vec, stock: int -> Vec, width: int -> nat,
                        totals: Vec)
    requires IsLayout(entries, packLen, l) && Fits(entries, packLen) && SameLosses(entries, nll, stock)
    requires forall s: nat :: s < |entries| ==> width(s) >= |entries[s].tokens|
    requires forall s: nat :: s < |entries| ==> totals(s) == Sum(0, width(s), StockTerm(entries[s], stock(s)))
    ensures Sum(0, packLen, PackedTerm(l, nll)) == Sum(0, |entries|, totals)
  {
    var n, f := |entries|, PackedTerm(l, nll);
    PrefixLoss(entries, packLen, l, nll, stock, width, n, totals);
    var end := Start(entries, n);
    if end <= packLen {
      forall pos | end <= pos < packLen ensures f(pos) == 0.0 {
        assert InSegment(entries, n, pos);
        assert InputOk(entries, n, pos, l.segId[pos], l.segStart[pos], l.lossMask[pos]);
      }
      SumSplit(0, end, packLen, f);
      SumZero(end, packLen, f);
    } else {
      SumSplit(0, packLen, end, f);
      SumZero(packLen, end, f);
    }
  }

  // ----- the round trip -----

  /** The end of the run of supervised positions that contains pos. */
  function RunEnd(mask: seq<bool>, pos: nat): (e: nat)
    requires pos <= |mask|
    ensures pos <= e <= |mask|
    decreases |mask| - pos
  {
    if pos < |mask| && mask[pos] then RunEnd(mask, pos + 1) else pos
  }

  /** Every run of supervised positions is one sequence: it starts where its segment does. */
  function Decode(l: Layout, pos: nat): seq<Entry>
    requires |l.row| == |l.lossMask| + 1 && |l.segStart| == |l.lossMask|
    decreases |l.lossMask| - pos
  {
    if pos >= |l.lossMask| then []
    else if !l.lossMask[pos] then Decode(l, pos + 1)
    else
      var e := RunEnd(l.lossMask, pos + 1);
      var t0 := if 0 <= l.segStart[pos] <= pos then l.segStart[pos] else pos;
      [Entry(l.row[t0..e], pos - t0 + 1)] + Decode(l, e)
  }

  /** What the layout can still tell: supervised sequences, with offsets below 1 read as 1. */
  function Recoverable(entries: seq<Entry>): seq<Entry> {
    if entries == [] then []
    else
      var e := entries[0];
      (if Max(e.offset, 1) <= |e.tokens| then [Entry(e.tokens, Max(e.offset, 1))] else []) + Recoverable(entries[1..])
  }

  lemma {:induction false} SkipBlank(l: Layout, a: nat, b: nat)
    requires |l.row| == |l.lossMask| + 1 && |l.segStart| == |l.lossMask|
    requires a <= b && forall pos :: a <= pos < b && pos < |l.lossMask| ==> !l.lossMask[pos]
    ensures Decode(l, a) == Decode(l, b)
    decreases b - a
  {
    if a < b { SkipBlank(l, a + 1, b); }
  }

  lemma {:induction false} RunEndIs(mask: seq<bool>, a: nat, b: nat)
    requires a <= b <= |mask| && (forall pos :: a <= pos < b ==> mask[pos]) && (b < |mask| ==> !mask[b])
    ensures RunEnd(mask, a) == b
    decreases b - a
  {
    if a < b { RunEndIs(mask, a + 1, b); }
  }

  lemma SegmentMask(entries: seq<Entry>, packLen: nat, l: Layout, s: nat, p: nat)
    requires IsLayout(entries, packLen, l) && s < |entries|
    requires p <= |entries[s].tokens| && Start(entries, s) + p < packLen
    ensures l.lossMask[Start(entries, s) + p] <==> Supervised(entries[s], p)
    ensures l.segStart[Start(entries, s) + p] == Start(entries, s)
  {
    var pos := Start(entries, s) + p;
    assert InSegment(entries, s, pos);
    assert InputOk(entries, s, pos, l.segId[pos], l.segStart[pos], l.lossMask[pos]);
  }

  lemma SegmentTokens(entries: seq<Entry>, packLen: nat, l: Layout, s: nat)
    requires IsLayout(entries, packLen, l) && s < |entries| && Start(entries, s + 1) <= packLen + 1
    ensures l.row[Start(entries, s)..Start(entries, s) + |entries[s].tokens|] == entries[s].tokens
  {
    var t0, n := Start(entries, s), |entries[s].tokens|;
    forall p | 0 <= p < n ensures l.row[t0..t0 + n][p] == entries[s].tokens[p] {
      assert InSegment(entries, s, t0 + p);
      assert RowOk(entries, s, t0 + p, l.row[t0 + p]);
    }
  }

  lemma DecodeSegment(entries: seq<Entry>, packLen: nat, l: Layout, s: nat)
    requires IsLayout(entries, packLen, l) && Fits(entries, packLen) && s < |entries|
    requires var e := entries[s]; Max(e.offset, 1) <= |e.tokens|
    ensures Decode(l, Start(entries, s))
         == [Entry(entries[s].tokens, Max(entries[s].offset, 1))] + Decode(l, Start(entries, s + 1))
  {
    var e, t0 := entries[s], Start(entries, s);
    var lo, hi := t0 + Max(e.offset, 1) - 1, t0 + |e.tokens|;
    StartMonotone(entries, s + 1, |entries|);
    SegmentTokens(entries, packLen, l, s);
    forall pos | t0 <= pos <= hi && pos < packLen ensures RunAt(l, t0, lo, hi, pos) {
      SegmentMask(entries, packLen, l, s, pos - t0);
    }
    DecodeRun(l, t0, lo, hi);
  }

  /** Position pos belongs to a segment that starts at t0 and is supervised from lo up to hi. */
  ghost predicate RunAt(l: Layout, t0: nat, lo: nat, hi: nat, pos: nat)
    requires pos < |l.lossMask| == |l.segStart|
  {
    l.segStart[pos] == t0 && (l.lossMask[pos] <==> lo <= pos < hi)
  }

  lemma DecodeRun(l: Layout, t0: nat, lo: nat, hi: nat)
    requires |l.row| == |l.lossMask| + 1 && |l.segStart| == |l.lossMask|
    requires t0 <= lo < hi <= |l.lossMask|
    requires forall pos :: t0 <= pos <= hi && pos < |l.lossMask| ==> RunAt(l, t0, lo, hi, pos)
    ensures Decode(l, t0) == [Entry(l.row[t0..hi], lo - t0 + 1)] + Decode(l, hi + 1)
  {
    RunBounds(l, t0, lo, hi);
    SkipBlank(l, t0, lo);
    DecodeFromRun(l, t0, lo, hi);
  }

  lemma DecodeFromRun(l: Layout, t0: nat, lo: nat, hi: nat)
    requires |l.row| == |l.lossMask| + 1 && |l.segStart| == |l.lossMask| && t0 <= lo < hi <= |l.lossMask|
    requires (forall pos :: lo <= pos < hi ==> l.lossMask[pos]) && (hi < |l.lossMask| ==> !l.lossMask[hi])
    requires l.segStart[lo] == t0
    ensures Decode(l, lo) == [Entry(l.row[t0..hi], lo - t0 + 1)] + Decode(l, hi + 1)
  {
    RunEndIs(l.lossMask, lo + 1, hi);
    DecodeStep(l, t0, lo, hi);
    SkipBlank(l, hi, hi + 1);
  }

  lemma RunBounds(l: Layout, t0: nat, lo: nat, hi: nat)
    requires |l.segStart| == |l.lossMask| && t0 <= lo < hi <= |l.lossMask|
    requires forall pos :: t0 <= pos <= hi && pos < |l.lossMask| ==> RunAt(l, t0, lo, hi, pos)
    ensures forall pos :: t0 <= pos < lo ==> !l.lossMask[pos]
    ensures forall pos :: lo <= pos < hi ==> l.lossMask[pos]
    ensures (hi < |l.lossMask| ==> !l.lossMask[hi]) && l.segStart[lo] == t0
  {
    forall pos | t0 <= pos <= hi && pos < |l.lossMask| ensures l.lossMask[pos] <==> lo <= pos < hi {
      assert RunAt(l, t0, lo, hi, pos);
    }
    assert RunAt(l, t0, lo, hi, lo);
  }

  /** One run decoded: the sequence of the segment it lies in. */
  lemma DecodeStep(l: Layout, t0: nat, lo: nat, hi: nat)
    requires |l.row| == |l.lossMask| + 1 && |l.segStart| == |l.lossMask|
    requires t0 <= lo < hi <= |l.lossMask| && l.lossMask[lo] && l.segStart[lo] == t0 && RunEnd(l.lossMask, lo + 1) == hi
    ensures Decode(l, lo) == [Entry(l.row[t0..hi], lo - t0 + 1)] + Decode(l, hi)
  {
  }

  lemma SkipSegment(entries: seq<Entry>, packLen: nat, l: Layout, s: nat)
    requires IsLayout(entries, packLen, l) && Fits(entries, packLen) && s < |entries|
    requires var e := entries[s]; Max(e.offset, 1) > |e.tokens|
    ensures Decode(l, Start(entries, s)) == Decode(l, Start(entries, s + 1))
  {
    var t0, n := Start(entries, s), |entries[s].tokens|;
    forall pos | t0 <= pos < t0 + n + 1 && pos < packLen ensures !l.lossMask[pos] {
      SegmentMask(entries, packLen, l, s, pos - t0);
    }
    SkipBlank(l, t0, t0 + n + 1);
  }

  lemma {:induction false} DecodeFrom(entries: seq<Entry>, packLen: nat, l: Layout, s: nat)
    requires IsLayout(entries, packLen, l) && Fits(entries, packLen) && s <= |entries|
    ensures Decode(l, Start(entries, s)) == Recoverable(entries[s..])
    decreases |entries| - s
  {
    if s < |entries| {
      DecodeFrom(entries, packLen, l, s + 1);
      assert entries[s..][1..] == entries[s + 1..];
      if Max(entries[s].offset, 1) <= |entries[s].tokens| {
        DecodeSegment(entries, packLen, l, s);
      } else {
        SkipSegment(entries, packLen, l, s);
      }
    } else {
      var end := Start(entries, s);
      forall pos | end <= pos < packLen ensures !l.lossMask[pos] {
        assert InSegment(entries, s, pos);
        assert InputOk(entries, s, pos, l.segId[pos], l.segStart[pos], l.lossMask[pos]);
      }
      if end <= packLen { SkipBlank(l, end, packLen); }
    }
  }

  /** Every entry has a supervised window that starts where its offset says. */
  ghost predicate FullyOffset(entries: seq<Entry>) {
    forall k :: 0 <= k < |entries| ==> 1 <= entries[k].offset <= |entries[k].tokens|
  }

  lemma FullyOffsetCons(entries: seq<Entry>)
    requires entries != []
    ensures FullyOffset(entries) <==> 1 <= entries[0].offset <= |entries[0].tokens| && FullyOffset(entries[1..])
  {
    var rest := entries[1..];
    forall k | 0 <= k < |rest| ensures rest[k] == entries[k + 1] {}
    assert forall k :: 0 < k < |entries| ==> entries[k] == rest[k - 1];
  }

  lemma {:induction false} RecoverableShrinks(entries: seq<Entry>)
    ensures |Recoverable(entries)| <= |entries|
    ensures Recoverable(entries) == entries <==> FullyOffset(entries)
  {
    if entries != [] {
      var e, rest, r := entries[0], entries[1..], Recoverable(entries);
      RecoverableShrinks(rest);
      FullyOffsetCons(entries);
      if Max(e.offset, 1) <= |e.tokens| {
        assert r[0] == Entry(e.tokens, Max(e.offset, 1)) && r[1..] == Recoverable(rest);
        assert entries == [e] + rest;
        assert r == entries <==> r[0] == e && r[1..] == rest;
      } else {
        assert r == Recoverable(rest);
      }
    }
  }

  /**
   The round trip: decoding a row gives back the entries it was built from exactly when every
   offset lies between 1 and the sequence's length.
   */
  lemma RoundTrip(entries: seq<Entry>, packLen: nat, l: Layout)
    requires IsLayout(entries, packLen, l) && Fits(entries, packLen)
    ensures Decode(l, 0) == entries <==> FullyOffset(entries)
  {
    DecodeFrom(entries, packLen, l, 0);
    assert entries[0..] == entries;
    RecoverableShrinks(entries);
  }
}
