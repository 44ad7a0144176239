/**
 The layout of one packed row (`build_row` in data/packing.py): segments back to back, each
 followed by its own pad slot, and a tail segment.
 */
module PackedRow {
  /** A sequence drawn from a pack: its tokens and the length of its unsupervised prefix. */
  datatype Entry = Entry(tokens: seq<int>, offset: int)

  datatype Layout = Layout(row: seq<int>, segId: seq<int>, segStart: seq<int>, lossMask: seq<bool>)

  /** Where segment s starts; the tail's start for s = |entries|. */
  function Start(entries: seq<Entry>, s: nat): nat
    requires s <= |entries|
  {
    if s == 0 then 0 else Start(entries, s - 1) + |entries[s - 1].tokens| + 1
  }

  /** The pack respects the row's capacity of packLen + 1 slots. */
  predicate Fits(entries: seq<Entry>, packLen: nat) {
    Start(entries, |entries|) <= packLen + 1
  }

  /** Position pos belongs to segment s (the tail when s = |entries|). */
  predicate InSegment(entries: seq<Entry>, s: nat, pos: int) {
    s <= |entries| && Start(entries, s) <= pos && (s < |entries| ==> pos < Start(entries, s + 1))
  }

  /** What input position pos of segment s carries. */
  ghost predicate InputOk(entries: seq<Entry>, s: nat, pos: int, id: int, start: int, mask: bool)
    requires s <= |entries|
  {
    && id == s && start == Start(entries, s)
    && (mask <==> s < |entries| && Supervised(entries[s], pos - Start(entries, s)))
  }

  function Max(a: int, b: int): int { if a > b then a else b }

  /** The supervised window of a sequence, relative to its start. */
  predicate Supervised(e: Entry, p: int) {
    Max(e.offset, 1) - 1 <= p <= |e.tokens| - 1
  }

  /** The token at offset p of a segment: its own tokens, then its pad slot. */
  function TokenAt(e: Entry, p: int): int
    requires p >= 0
  {
    if p < |e.tokens| then e.tokens[p] else 0
  }

  ghost predicate RowOk(entries: seq<Entry>, s: nat, pos: int, token: int)
    requires s <= |entries| && Start(entries, s) <= pos
  {
    token == if s < |entries| then TokenAt(entries[s], pos - Start(entries, s)) else 0
  }

  /** The row in full: every position carries what its segment says. */
  ghost predicate IsLayout(entries: seq<Entry>, packLen: nat, l: Layout) {
    && |l.row| == packLen + 1 && |l.segId| == |l.segStart| == |l.lossMask| == packLen
    && (forall s: nat, pos :: 0 <= pos < packLen && InSegment(entries, s, pos) ==>
         InputOk(entries, s, pos, l.segId[pos], l.segStart[pos], l.lossMask[pos]))
    && (forall s: nat, pos :: 0 <= pos <= packLen && InSegment(entries, s, pos) ==> RowOk(entries, s, pos, l.row[pos]))
  }

  // ----- segments partition the positions -----

  lemma {:induction false} StartMonotone(entries: seq<Entry>, s: nat, t: nat)
    requires s <= t <= |entries|
    ensures Start(entries, s) <= Start(entries, t)
    ensures s < t ==> Start(entries, s + 1) <= Start(entries, t)
    decreases t - s
  {
    if s < t { StartMonotone(entries, s + 1, t); }
  }

  /** The segment a position belongs to. */
  function SegmentOf(entries: seq<Entry>, pos: int): (s: nat)
    requires pos >= 0
    ensures InSegment(entries, s, pos)
  {
    SegmentFrom(entries, pos, |entries|)
  }

  function SegmentFrom(entries: seq<Entry>, pos: int, n: nat): (s: nat)
    requires pos >= 0 && n <= |entries| && (n < |entries| ==> pos < Start(entries, n + 1))
    ensures InSegment(entries, s, pos)
  {
    if n == 0 || Start(entries, n) <= pos then n else SegmentFrom(entries, pos, n - 1)
  }

  /** No position belongs to two segments. */
  lemma SegmentUnique(entries: seq<Entry>, s: nat, t: nat, pos: int)
    requires InSegment(entries, s, pos) && InSegment(entries, t, pos)
    ensures s == t
  {
    if s < t { StartMonotone(entries, s, t); }
    if t < s { StartMonotone(entries, t, s); }
  }

  // ----- build_row -----

  /** One segment written in place. */
  method WriteSegment(e: Entry, seg: int, t0: nat, packLen: nat,
                      row: array<int>, segId: array<int>, segStart: array<int>, lossMask: array<bool>)
    requires t0 + |e.tokens| + 1 <= packLen + 1
    requires row.Length == packLen + 1 && segId.Length == segStart.Length == lossMask.Length == packLen
    requires row != segId && row != segStart && segId != segStart
    modifies row, segId, segStart, lossMask
    ensures forall pos :: 0 <= pos < packLen + 1 && !(t0 <= pos < t0 + |e.tokens|) ==> row[pos] == old(row[pos])
    ensures forall p :: 0 <= p < |e.tokens| ==> row[t0 + p] == e.tokens[p]
    ensures forall pos :: 0 <= pos < packLen ==>
      if t0 <= pos <= t0 + |e.tokens| then segId[pos] == seg && segStart[pos] == t0
      else segId[pos] == old(segId[pos]) && segStart[pos] == old(segStart[pos])
    ensures forall pos :: 0 <= pos < packLen ==>
      lossMask[pos] == (Supervised(e, pos - t0) || old(lossMask[pos]))
  {
    var segLen := |e.tokens|;
    var padPos := t0 + segLen;
    forall p | 0 <= p < segLen { row[t0 + p] := e.tokens[p]; }
    var spanEnd := if padPos < packLen - 1 then padPos else packLen - 1;
    var pos := t0;
    while pos < spanEnd + 1
      invariant t0 <= pos && (pos <= spanEnd + 1 || pos == t0)
      invariant forall x :: 0 <= x < packLen ==>
        if t0 <= x < pos then segId[x] == seg && segStart[x] == t0
        else segId[x] == old(segId[x]) && segStart[x] == old(segStart[x])
      invariant forall x :: 0 <= x < packLen + 1 && !(t0 <= x < padPos) ==> row[x] == old(row[x])
      invariant forall p :: 0 <= p < segLen ==> row[t0 + p] == e.tokens[p]
      invariant lossMask[..] == old(lossMask[..])
    {
      segId[pos] := seg;
      segStart[pos] := t0;
      pos := pos + 1;
    }
    var lo, hi := t0 + Max(e.offset, 1) - 1, t0 + segLen - 1;
    assert forall x :: 0 <= x < packLen ==> lossMask[x] == old(lossMask[..])[x];
    pos := lo;
    while pos < hi + 1
      invariant lo <= pos && (pos <= hi + 1 || pos == lo)
      invariant forall x :: 0 <= x < packLen ==> lossMask[x] == (lo <= x < pos || old(lossMask[x]))
      invariant forall x :: 0 <= x < packLen ==>
        if t0 <= x <= padPos then segId[x] == seg && segStart[x] == t0
        else segId[x] == old(segId[x]) && segStart[x] == old(segStart[x])
      invariant forall x :: 0 <= x < packLen + 1 && !(t0 <= x < padPos) ==> row[x] == old(row[x])
      invariant forall p :: 0 <= p < segLen ==> row[t0 + p] == e.tokens[p]
    {
      lossMask[pos] := true;
      pos := pos + 1;
    }
  }

  /** The segments before seg are laid out; everything from cursor on is still blank. */
  ghost predicate Written(entries: seq<Entry>, packLen: nat, seg: nat, cursor: int,
                          row: seq<int>, segId: seq<int>, segStart: seq<int>, lossMask: seq<bool>)
  {
    && |row| == packLen + 1 && |segId| == |segStart| == |lossMask| == packLen
    && (forall s: nat, pos :: s < seg && 0 <= pos < packLen && InSegment(entries, s, pos) ==>
         InputOk(entries, s, pos, segId[pos], segStart[pos], lossMask[pos]))
    && (forall s: nat, pos :: s < seg && 0 <= pos <= packLen && InSegment(entries, s, pos) ==>
         RowOk(entries, s, pos, row[pos]))
    && (forall pos :: cursor <= pos < packLen && 0 <= pos ==> !lossMask[pos])
    && (forall pos :: cursor <= pos <= packLen && 0 <= pos ==> row[pos] == 0)
  }

  lemma WriteStep(entries: seq<Entry>, packLen: nat, seg: nat, row: seq<int>, segId: seq<int>, segStart: seq<int>,
                  lossMask: seq<bool>, row': seq<int>, segId': seq<int>, segStart': seq<int>, lossMask': seq<bool>)
    requires seg < |entries| && Start(entries, seg + 1) <= packLen + 1
    requires Written(entries, packLen, seg, Start(entries, seg), row, segId, segStart, lossMask)
    requires |row'| == |row| && |segId'| == |segStart'| == |lossMask'| == packLen
    requires var t0, e := Start(entries, seg), entries[seg];
      && (forall pos :: 0 <= pos < packLen + 1 && !(t0 <= pos < t0 + |e.tokens|) ==> row'[pos] == row[pos])
      && (forall pos :: t0 <= pos < t0 + |e.tokens| ==> row'[pos] == e.tokens[pos - t0])
      && (forall pos :: 0 <= pos < packLen ==>
           if t0 <= pos <= t0 + |e.tokens| then segId'[pos] == seg && segStart'[pos] == t0
           else segId'[pos] == segId[pos] && segStart'[pos] == segStart[pos])
      && (forall pos :: 0 <= pos < packLen ==> lossMask'[pos] == (Supervised(e, pos - t0) || lossMask[pos]))
    ensures Written(entries, packLen, seg + 1, Start(entries, seg + 1), row', segId', segStart', lossMask')
  {
    forall s: nat, pos | s < seg + 1 && 0 <= pos < packLen && InSegment(entries, s, pos)
      ensures InputOk(entries, s, pos, segId'[pos], segStart'[pos], lossMask'[pos])
    {
      if s < seg {
        StartMonotone(entries, s, seg);
        assert InputOk(entries, s, pos, segId[pos], segStart[pos], lossMask[pos]);
      }
    }
    forall s: nat, pos | s < seg + 1 && 0 <= pos <= packLen && InSegment(entries, s, pos)
      ensures RowOk(entries, s, pos, row'[pos])
    {
      if s < seg {
        StartMonotone(entries, s, seg);
        assert RowOk(entries, s, pos, row[pos]);
      }
    }
  }

  /** The tail: whatever the segments left is one last segment. */
  lemma WriteTail(entries: seq<Entry>, packLen: nat, row: seq<int>, segId: seq<int>, segStart: seq<int>,
                  lossMask: seq<bool>, segId': seq<int>, segStart': seq<int>)
    requires Written(entries, packLen, |entries|, Start(entries, |entries|), row, segId, segStart, lossMask)
    requires |segId'| == |segStart'| == packLen
    requires forall pos :: 0 <= pos < packLen ==>
      if pos < Start(entries, |entries|) then segId'[pos] == segId[pos] && segStart'[pos] == segStart[pos]
      else segId'[pos] == |entries| && segStart'[pos] == Start(entries, |entries|)
    ensures IsLayout(entries, packLen, Layout(row, segId', segStart', lossMask))
  {
    forall s: nat, pos | 0 <= pos < packLen && InSegment(entries, s, pos)
      ensures InputOk(entries, s, pos, segId'[pos], segStart'[pos], lossMask[pos])
    {
      StartMonotone(entries, s, |entries|);
      if s < |entries| {
        assert InputOk(entries, s, pos, segId[pos], segStart[pos], lossMask[pos]);
      }
    }
    forall s: nat, pos | 0 <= pos <= packLen && InSegment(entries, s, pos)
      ensures RowOk(entries, s, pos, row[pos])
    {
      if s < |entries| { assert RowOk(entries, s, pos, row[pos]); }
    }
  }

  /** The loop over the positions from the cursor on. */
  method WriteTailSegment(seg: nat, cursor: nat, packLen: nat, segId: array<int>, segStart: array<int>)
    requires segId.Length == segStart.Length == packLen && segId != segStart
    modifies segId, segStart
    ensures forall x :: 0 <= x < packLen ==>
      if x < cursor then segId[x] == old(segId[x]) && segStart[x] == old(segStart[x])
      else segId[x] == seg && segStart[x] == cursor
  {
    var pos := cursor;
    while pos < packLen
      invariant cursor <= pos
      invariant forall x :: 0 <= x < packLen ==>
        if cursor <= x < pos then segId[x] == seg && segStart[x] == cursor
        else segId[x] == old(segId[x]) && segStart[x] == old(segStart[x])
    {
      segId[pos] := seg;
      segStart[pos] := cursor;
      pos := pos + 1;
    }
  }

  /** One pass of the segment loop. */
  method AppendSegment(entries: seq<Entry>, packLen: nat, seg: nat, t0: nat, row: array<int>, segId: array<int>,
                       segStart: array<int>, lossMask: array<bool>)
    returns (cursor: nat)
    requires seg < |entries| && Fits(entries, packLen) && t0 == Start(entries, seg)
    requires row.Length == packLen + 1 && segId.Length == segStart.Length == lossMask.Length == packLen
    requires row != segId && row != segStart && segId != segStart
    requires Written(entries, packLen, seg, t0, row[..], segId[..], segStart[..], lossMask[..])
    modifies row, segId, segStart, lossMask
    ensures cursor == Start(entries, seg + 1)
    ensures Written(entries, packLen, seg + 1, cursor, row[..], segId[..], segStart[..], lossMask[..])
  {
    StartMonotone(entries, seg, |entries|);
    ghost var r, i, st, m := row[..], segId[..], segStart[..], lossMask[..];
    WriteSegment(entries[seg], seg, t0, packLen, row, segId, segStart, lossMask);
    forall pos | t0 <= pos < t0 + |entries[seg].tokens| ensures row[..][pos] == entries[seg].tokens[pos - t0] {
      assert row[t0 + (pos - t0)] == entries[seg].tokens[pos - t0];
    }
    WriteStep(entries, packLen, seg, r, i, st, m, row[..], segId[..], segStart[..], lossMask[..]);
    cursor := t0 + |entries[seg].tokens| + 1;
  }

  /** The tail segment completes the row. */
  method AppendTail(entries: seq<Entry>, packLen: nat, cursor: nat, row: array<int>, segId: array<int>,
                    segStart: array<int>, lossMask: array<bool>)
    requires cursor == Start(entries, |entries|)
    requires row.Length == packLen + 1 && segId.Length == segStart.Length == lossMask.Length == packLen
    requires row != segId && row != segStart && segId != segStart
    requires Written(entries, packLen, |entries|, cursor, row[..], segId[..], segStart[..], lossMask[..])
    modifies segId, segStart
    ensures IsLayout(entries, packLen, Layout(row[..], segId[..], segStart[..], lossMask[..]))
  {
    ghost var i, st := segId[..], segStart[..];
    WriteTailSegment(|entries|, cursor, packLen, segId, segStart);
    WriteTail(entries, packLen, row[..], i, st, lossMask[..], segId[..], segStart[..]);
  }

  /** build_row, for every pack within capacity. */
  method BuildRow(entries: seq<Entry>, packLen: nat) returns (l: Layout)
    requires packLen >= 1 && Fits(entries, packLen)
    ensures IsLayout(entries, packLen, l)
  {
    var row := new int[packLen + 1](_ => 0);
    var segId := new int[packLen](_ => 0);
    var segStart := new int[packLen](_ => 0);
    var lossMask := new bool[packLen](_ => false);
    var cursor := 0;
    for seg := 0 to |entries|
      invariant cursor == Start(entries, seg)
      invariant fresh(row) && fresh(segId) && fresh(segStart) && fresh(lossMask)
      invariant Written(entries, packLen, seg, cursor, row[..], segId[..], segStart[..], lossMask[..])
    {
      cursor := AppendSegment(entries, packLen, seg, cursor, row, segId, segStart, lossMask);
    }
    AppendTail(entries, packLen, cursor, row, segId, segStart, lossMask);
    l := Layout(row[..], segId[..], segStart[..], lossMask[..]);
  }
}
