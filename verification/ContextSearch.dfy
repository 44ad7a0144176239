/**
 The search for the longest context that fits (`find_max_context` in
 scripts/northstar_context_sweep.py): doubling, then a granularity-aligned bisection.
 */
module ContextSearch {
  import opened Options
  import opened Integers

  ghost predicate Distinct(s: seq<int>) {
    forall i, j :: 0 <= i < j < |s| ==> s[i] != s[j]
  }

  /** Everything probed so far lies outside the open interval still in play. */
  ghost predicate Outside(probed: seq<int>, low: int, high: int) {
    forall i :: 0 <= i < |probed| ==> probed[i] <= low || probed[i] >= high
  }

  /** x is on the granularity grid. */
  predicate OnGrid(x: int, g: int)
    requires g >= 1
  {
    x % g == 0
  }

  /** The midpoint, moved down to the grid. */
  function Middle(low: int, high: int, g: int): int
    requires g >= 1
  {
    var m := low + (high - low) / 2;
    m - m % g
  }

  lemma Halving(low: int, high: int, g: int)
    requires low < high && g >= 1 && high - low > g
    ensures Middle(low, high, g) < high
    ensures Middle(low, high, g) <= low ==> high - low < 2 * g
    ensures OnGrid(low, g) && OnGrid(high, g) ==> low < Middle(low, high, g) && OnGrid(Middle(low, high, g), g)
  {
    var m := low + (high - low) / 2;
    var r := m % g;
    assert 0 <= r < g && m < high;
    if OnGrid(low, g) && OnGrid(high, g) {
      Quotient(m, g, r);
      Steps(low, high, g);
    }
  }

  lemma Quotient(m: int, g: int, r: int)
    requires g >= 1 && r == m % g
    ensures (m - r) % g == 0
  {
    var q := m / g;
    assert m - r == q * g;
    MultipleOf(q, g);
  }

  lemma MultipleOf(q: int, g: int)
    requires g >= 1
    ensures (q * g) % g == 0
  {
    DivMod(q * g, g, q, 0);
  }

  /** Grid points more than g apart are at least 2 g apart. */
  lemma Steps(low: int, high: int, g: int)
    requires g >= 1 && OnGrid(low, g) && OnGrid(high, g) && high - low > g
    ensures high - low >= 2 * g
  {
    var a, b := low / g, high / g;
    Exact(low, g, a);
    Exact(high, g, b);
    Apart(a, b, g, low, high);
  }

  lemma Exact(x: int, g: int, q: int)
    requires g >= 1 && x % g == 0 && q == x / g
    ensures x == q * g
  {
  }

  lemma Apart(a: int, b: int, g: int, low: int, high: int)
    requires g >= 1 && low == a * g && high == b * g && high - low > g
    ensures high - low >= 2 * g
  {
    var d := b - a;
    assert high - low == d * g;
    Multiples(d - 1, g);
  }

  lemma DoubleOnGrid(x: int, g: int)
    requires g >= 1 && OnGrid(x, g)
    ensures OnGrid(x * 2, g)
  {
    var q := x / g;
    Exact(x, g, q);
    assert x * 2 == (2 * q) * g;
    MultipleOf(2 * q, g);
  }

  // ----- the search as a function of the probe -----

  /** The doubling: the last length that fits and the next one to try, which fails or is past the ceiling. */
  function Climb(probe: int -> bool, low: int, ceiling: int): (r: (int, int))
    requires low >= 1
    ensures r.0 >= low && r.1 == 2 * r.0
    decreases ceiling - low
  {
    if 2 * low <= ceiling && probe(2 * low) then Climb(probe, 2 * low, ceiling) else (low, 2 * low)
  }

  /** The bisection between a fitting and a failing length. */
  function Narrow(probe: int -> bool, low: int, high: int, g: int): (r: (int, int))
    requires g >= 1 && low < high
    ensures low <= r.0 < r.1 <= high
    decreases high - low
  {
    var mid := Middle(low, high, g);
    if high - low <= g || mid <= low then (low, high)
    else
      Halving(low, high, g);
      if probe(mid) then Narrow(probe, mid, high, g) else Narrow(probe, low, mid, g)
  }

  function Found(probe: int -> bool, start: int, g: int, ceiling: int): (int, Option<int>)
    requires start >= 1 && g >= 1
  {
    if !probe(start) then (0, Some(start))
    else
      var c := Climb(probe, start, ceiling);
      if c.1 > ceiling then (c.0, None)
      else
        var n := Narrow(probe, c.0, c.1, g);
        (n.0, Some(n.1))
  }

  lemma {:induction false} NarrowBrackets(probe: int -> bool, low: int, high: int, g: int)
    requires g >= 1 && low < high && probe(low) && !probe(high)
    ensures var r := Narrow(probe, low, high, g); probe(r.0) && !probe(r.1)
    decreases high - low
  {
    var mid := Middle(low, high, g);
    if high - low > g && mid > low {
      Halving(low, high, g);
      if probe(mid) { NarrowBrackets(probe, mid, high, g); } else { NarrowBrackets(probe, low, mid, g); }
    }
  }

  lemma {:induction false} ClimbStops(probe: int -> bool, low: int, ceiling: int)
    requires low >= 1 && probe(low)
    ensures var c := Climb(probe, low, ceiling); probe(c.0) && (c.1 <= ceiling ==> !probe(c.1))
    decreases ceiling - low
  {
    if 2 * low <= ceiling && probe(2 * low) { ClimbStops(probe, 2 * low, ceiling); }
  }

  /**
   For a probe that fits exactly up to a limit, the result tells where the limit is: below the
   start, between the two bounds, or, without an upper bound, above half the ceiling.
   */
  lemma LimitFound(probe: int -> bool, limit: int, start: int, g: int, ceiling: int)
    requires start >= 1 && g >= 1 && forall x :: probe(x) <==> x <= limit
    ensures var r := Found(probe, start, g, ceiling);
      if limit < start then r == (0, Some(start))
      else start <= r.0 <= limit && if r.1.Some? then limit < r.1.value else 2 * limit > ceiling
  {
    if probe(start) {
      var c := Climb(probe, start, ceiling);
      ClimbStops(probe, start, ceiling);
      if c.1 <= ceiling { NarrowBrackets(probe, c.0, c.1, g); }
    }
  }

  // ----- when does the result miss the promised granularity? -----

  /** Bisecting from (s, 2 s) can stop more than g apart. */
  predicate Wide(s: int, g: int)
    requires g >= 1
  {
    && s > g && !OnGrid(2 * s, g)
    && (Middle(s, 2 * s, g) <= s || 2 * s - Middle(s, 2 * s, g) > g)
  }

  /** Some doubling of s below the ceiling is wide. */
  predicate SomeWide(s: int, g: int, ceiling: int)
    requires s >= 1 && g >= 1
    decreases ceiling - s
  {
    2 * s <= ceiling && (Wide(s, g) || SomeWide(2 * s, g, ceiling))
  }

  /** Moving down to the grid does not pass a grid point. */
  lemma GridFloor(m: int, p: int, g: int, mid: int)
    requires g >= 1 && OnGrid(p, g) && OnGrid(mid, g) && m - g < mid <= m
    ensures p <= m ==> p <= mid
  {
    if p > mid { GridApart(mid, p, g); }
  }

  lemma GridStep(p: int, g: int)
    requires g >= 1 && OnGrid(p, g)
    ensures OnGrid(p - g, g) && OnGrid(p + g, g)
  {
    Exact(p, g, p / g);
    DivMod(p - g, g, p / g - 1, 0);
    DivMod(p + g, g, p / g + 1, 0);
  }

  lemma MiddleBounds(low: int, high: int, g: int, mid: int)
    requires g >= 1 && low < high && mid == Middle(low, high, g)
    ensures var m := low + (high - low) / 2; m - g < mid <= m < high
    ensures OnGrid(mid, g)
  {
    var m := low + (high - low) / 2;
    Quotient(m, g, m % g);
  }

  /** Below a grid point that is more than g away, the aligned midpoint moves on. */
  lemma MiddleAbove(low: int, high: int, g: int, mid: int)
    requires g >= 1 && low < high && OnGrid(high, g) && high - low > g && mid == Middle(low, high, g)
    ensures low < mid < high && OnGrid(mid, g)
  {
    var m := low + (high - low) / 2;
    MiddleBounds(low, high, g, mid);
    GridStep(high, g);
    GridFloor(m, high - g, g, mid);
    MovesOn(low, high, g, m, mid);
  }

  lemma MovesOn(low: int, high: int, g: int, m: int, mid: int)
    requires g >= 1 && high - low > g && m == low + (high - low) / 2 && m - g < mid <= m
    requires high - g <= m ==> high - g <= mid
    ensures low < mid
  {
  }

  /** With a failing bound on the grid the bisection always gets down to g. */
  lemma {:induction false} NarrowFromGrid(probe: int -> bool, low: int, high: int, g: int)
    requires g >= 1 && low < high && OnGrid(high, g)
    ensures var r := Narrow(probe, low, high, g); r.1 - r.0 <= g
    decreases high - low
  {
    if high - low > g {
      var mid := Middle(low, high, g);
      MiddleAbove(low, high, g, mid);
      if probe(mid) { NarrowFromGrid(probe, mid, high, g); } else { NarrowFromGrid(probe, low, mid, g); }
    }
  }

  lemma NarrowAfterClimb(probe: int -> bool, s: int, g: int)
    requires g >= 1 && s >= 1
    ensures var r := Narrow(probe, s, 2 * s, g); r.1 - r.0 > g ==> Wide(s, g)
  {
    if OnGrid(2 * s, g) {
      NarrowFromGrid(probe, s, 2 * s, g);
    } else if s > g && !Wide(s, g) {
      var mid := Middle(s, 2 * s, g);
      MiddleBounds(s, 2 * s, g, mid);
      if !probe(mid) { NarrowFromGrid(probe, s, mid, g); }
    }
  }

  lemma {:induction false} ClimbWide(probe: int -> bool, s: int, g: int, ceiling: int)
    requires g >= 1 && s >= 1
    ensures var c := Climb(probe, s, ceiling); c.1 <= ceiling && Wide(c.0, g) ==> SomeWide(s, g, ceiling)
    decreases ceiling - s
  {
    if 2 * s <= ceiling && probe(2 * s) { ClimbWide(probe, 2 * s, g, ceiling); }
  }

  /** A grid point moved up to stays more than g below an off-grid bound. */
  lemma MiddleLeavesMore(low: int, high: int, g: int, mid: int)
    requires g >= 1 && low < high && OnGrid(low, g) && !OnGrid(high, g)
    requires mid == Middle(low, high, g) && mid > low
    ensures OnGrid(mid, g) && high - mid > g
  {
    MiddleBounds(low, high, g, mid);
    GridApart(low, mid, g);
    if high == mid + g { GridStep(mid, g); }
  }

  /** Fitting everywhere below an off-grid failing bound leaves more than g. */
  lemma {:induction false} NarrowOffGrid(probe: int -> bool, low: int, high: int, g: int)
    requires g >= 1 && OnGrid(low, g) && !OnGrid(high, g) && high - low > g
    requires forall x :: x < high ==> probe(x)
    ensures var r := Narrow(probe, low, high, g); r.1 - r.0 > g
    decreases high - low
  {
    var mid := Middle(low, high, g);
    if mid > low {
      MiddleLeavesMore(low, high, g, mid);
      NarrowOffGrid(probe, mid, high, g);
    }
  }

  /** Different grid points are at least g apart. */
  lemma GridApart(low: int, high: int, g: int)
    requires g >= 1 && OnGrid(low, g) && OnGrid(high, g) && high > low
    ensures high - low >= g
  {
    Exact(low, g, low / g);
    Exact(high, g, high / g);
    assert high - low == (high / g - low / g) * g;
    Multiples(high / g - low / g, g);
    Multiples(low / g - high / g, g);
  }

  /** The first wide doubling. */
  function WideAt(s: int, g: int, ceiling: int): (w: int)
    requires s >= 1 && g >= 1 && SomeWide(s, g, ceiling)
    ensures w >= s && Wide(w, g) && 2 * w <= ceiling
    decreases ceiling - s
  {
    if Wide(s, g) then s else WideAt(2 * s, g, ceiling)
  }

  lemma {:induction false} ClimbTo(probe: int -> bool, s: int, g: int, ceiling: int)
    requires s >= 1 && g >= 1 && SomeWide(s, g, ceiling)
    requires forall x :: probe(x) <==> x < 2 * WideAt(s, g, ceiling)
    ensures Climb(probe, s, ceiling) == (WideAt(s, g, ceiling), 2 * WideAt(s, g, ceiling))
    decreases ceiling - s
  {
    if !Wide(s, g) { ClimbTo(probe, 2 * s, g, ceiling); }
  }

  ghost predicate MissesGranularity(probe: int -> bool, start: int, g: int, ceiling: int)
    requires start >= 1 && g >= 1
  {
    var r := Found(probe, start, g, ceiling);
    r.0 > 0 && r.1.Some? && r.1.value - r.0 > g
  }

  lemma WideMisses(probe: int -> bool, start: int, g: int, ceiling: int)
    requires start >= 1 && g >= 1 && SomeWide(start, g, ceiling)
    requires forall x :: probe(x) <==> x < 2 * WideAt(start, g, ceiling)
    ensures MissesGranularity(probe, start, g, ceiling)
  {
    var w := WideAt(start, g, ceiling);
    ClimbTo(probe, start, g, ceiling);
    var mid := Middle(w, 2 * w, g);
    if mid > w {
      MiddleBounds(w, 2 * w, g, mid);
      NarrowOffGrid(probe, mid, 2 * w, g);
    }
  }

  /**
   The bounds get down to the granularity for every probe exactly when no doubling of the start
   below the ceiling is wide.
   */
  lemma GranularityMissedIff(start: int, g: int, ceiling: int)
    requires start >= 1 && g >= 1
    ensures (exists probe: int -> bool :: MissesGranularity(probe, start, g, ceiling)) <==> SomeWide(start, g, ceiling)
  {
    if SomeWide(start, g, ceiling) {
      var w := WideAt(start, g, ceiling);
      var probe: int -> bool := x => x < 2 * w;
      WideMisses(probe, start, g, ceiling);
      assert MissesGranularity(probe, start, g, ceiling);
    }
    forall probe: int -> bool | MissesGranularity(probe, start, g, ceiling) ensures SomeWide(start, g, ceiling) {
      var c := Climb(probe, start, ceiling);
      NarrowAfterClimb(probe, c.0, g);
      ClimbWide(probe, start, g, ceiling);
    }
  }

  /** A start on the grid never misses. */
  lemma {:induction false} AlignedNeverWide(start: int, g: int, ceiling: int)
    requires start >= 1 && g >= 1 && OnGrid(start, g)
    ensures !SomeWide(start, g, ceiling)
    decreases ceiling - start
  {
    DoubleOnGrid(start, g);
    if 2 * start <= ceiling { AlignedNeverWide(2 * start, g, ceiling); }
  }

  /** Start 5 with granularity 4: the first bisection step has nowhere to go. */
  lemma GranularityMissed()
    ensures MissesGranularity(x => x < 10, 5, 4, 10)
  {
    var probe: int -> bool := x => x < 10;
    assert Middle(5, 10, 4) == 4;
    assert Climb(probe, 5, 10) == (5, 10);
    assert Narrow(probe, 5, 10, 4) == (5, 10);
  }

  // ----- the probes -----

  /** Bisecting between a and b: the last grid point at or before the midpoint, if that is past a. */
  predicate Bisects(a: int, b: int, g: int, x: int)
    requires g >= 1
  {
    a < b && b - a > g && a < x && x % g == 0 && x <= a + (b - a) / 2 < x + g
  }

  /** a and b are the closest fitting and failing probes so far. */
  ghost predicate Bracket(probe: int -> bool, prev: seq<int>, a: int, b: int) {
    a in prev && b in prev && probe(a) && !probe(b) && forall p :: p in prev ==> p <= a || p >= b
  }

  ghost predicate AllFit(probe: int -> bool, prev: seq<int>) {
    forall p :: p in prev ==> probe(p)
  }

  /** What is probed after prev: the start; while everything fits, twice the last; then a bisection. */
  ghost predicate NextProbe(probe: int -> bool, start: int, g: int, ceiling: int, prev: seq<int>, x: int)
    requires g >= 1
  {
    if prev == [] then x == start
    else if AllFit(probe, prev) then x == 2 * prev[|prev| - 1] && x <= ceiling
    else exists a, b :: Bracket(probe, prev, a, b) && Bisects(a, b, g, x)
  }

  ghost predicate AsPlanned(probe: int -> bool, start: int, g: int, ceiling: int, probed: seq<int>)
    requires g >= 1
  {
    forall t :: 0 <= t < |probed| ==> NextProbe(probe, start, g, ceiling, probed[..t], probed[t])
  }

  lemma PlanExtends(probe: int -> bool, start: int, g: int, ceiling: int, probed: seq<int>, x: int)
    requires g >= 1 && AsPlanned(probe, start, g, ceiling, probed) && NextProbe(probe, start, g, ceiling, probed, x)
    ensures AsPlanned(probe, start, g, ceiling, probed + [x])
  {
    var next := probed + [x];
    forall t | 0 <= t < |next| ensures NextProbe(probe, start, g, ceiling, next[..t], next[t]) {
      assert next[..t] == probed[..t];
      if t == |probed| { assert probed[..t] == probed; }
    }
  }

  lemma BisectPlanned(probe: int -> bool, start: int, g: int, ceiling: int, probed: seq<int>, low: int, high: int,
                      mid: int)
    requires g >= 1 && AsPlanned(probe, start, g, ceiling, probed) && Bracket(probe, probed, low, high)
    requires low < high && high - low > g && mid == Middle(low, high, g) && low < mid
    ensures AsPlanned(probe, start, g, ceiling, probed + [mid])
  {
    MiddleBounds(low, high, g, mid);
    assert Bisects(low, high, g, mid);
    assert high in probed && !probe(high);
    PlanExtends(probe, start, g, ceiling, probed, mid);
  }

  // ----- the loops -----

  /** So far every probe fits; low is the last and the largest. */
  ghost predicate Climbing(probe: int -> bool, start: int, low: int, probed: seq<int>) {
    && probed != [] && probed[|probed| - 1] == low
    && forall i :: 0 <= i < |probed| ==> start <= probed[i] <= low && probe(probed[i])
  }

  /** low fits, hi fails, and nothing in between was probed. */
  ghost predicate Enclosing(probe: int -> bool, start: int, low: int, hi: int, probed: seq<int>) {
    && low in probed && hi in probed && !probe(hi) && Outside(probed, low, hi)
    && forall i :: 0 <= i < |probed| ==> probed[i] >= start
  }

  ghost predicate KeepsGrid(start: int, g: int, low: int, hi: int)
    requires g >= 1
  {
    OnGrid(start, g) ==> OnGrid(low, g) && OnGrid(hi, g)
  }

  /** The first phase's result: doubling stopped at a failure, or ran past the ceiling. */
  ghost predicate Doubled(probe: int -> bool, start: int, g: int, ceiling: int, low: int, hi: int, fits: bool,
                          probed: seq<int>)
    requires g >= 1
  {
    && start <= low < hi && probe(low) && Distinct(probed) && KeepsGrid(start, g, low, hi)
    && AsPlanned(probe, start, g, ceiling, probed)
    && if fits then hi == 2 * low && Climbing(probe, start, low, probed)
       else hi <= ceiling && Enclosing(probe, start, low, hi, probed)
  }

  lemma ClimbingStep(probe: int -> bool, start: int, low: int, probed: seq<int>)
    requires start >= 1 && start <= low && probe(low) && Distinct(probed) && Climbing(probe, start, low, probed)
    ensures Distinct(probed + [2 * low])
    ensures probe(2 * low) ==> Climbing(probe, start, 2 * low, probed + [2 * low])
    ensures !probe(2 * low) ==> Enclosing(probe, start, low, 2 * low, probed + [2 * low])
  {
    assert probed[|probed| - 1] in probed;
  }

  lemma ClimbPlanned(probe: int -> bool, start: int, g: int, ceiling: int, low: int, probed: seq<int>)
    requires g >= 1 && 2 * low <= ceiling && Climbing(probe, start, low, probed)
    requires AsPlanned(probe, start, g, ceiling, probed)
    ensures AsPlanned(probe, start, g, ceiling, probed + [2 * low])
  {
    assert AllFit(probe, probed);
    PlanExtends(probe, start, g, ceiling, probed, 2 * low);
  }

  lemma GridKept(start: int, g: int, low: int)
    requires g >= 1 && (OnGrid(start, g) ==> OnGrid(low, g))
    ensures KeepsGrid(start, g, low, 2 * low) && KeepsGrid(start, g, 2 * low, 4 * low)
  {
    if OnGrid(start, g) {
      DoubleOnGrid(low, g);
      DoubleOnGrid(2 * low, g);
    }
  }

  /** One more doubling. */
  lemma DoubledStep(probe: int -> bool, start: int, g: int, ceiling: int, low: int, probed: seq<int>)
    requires g >= 1 && start >= 1 && 2 * low <= ceiling && Doubled(probe, start, g, ceiling, low, 2 * low, true, probed)
    ensures if probe(2 * low) then Doubled(probe, start, g, ceiling, 2 * low, 4 * low, true, probed + [2 * low])
            else Doubled(probe, start, g, ceiling, low, 2 * low, false, probed + [2 * low])
  {
    ClimbingStep(probe, start, low, probed);
    ClimbPlanned(probe, start, g, ceiling, low, probed);
    GridKept(start, g, low);
  }

  /** One more bisection. */
  lemma BisectStep(probe: int -> bool, start: int, g: int, ceiling: int, low: int, hi: int, mid: int, probed: seq<int>)
    requires g >= 1 && Doubled(probe, start, g, ceiling, low, hi, false, probed)
    requires hi - low > g && mid == Middle(low, hi, g) && low < mid < hi
    ensures if probe(mid) then Doubled(probe, start, g, ceiling, mid, hi, false, probed + [mid])
            else Doubled(probe, start, g, ceiling, low, mid, false, probed + [mid])
  {
    Halving(low, hi, g);
    BracketOf(probe, start, g, ceiling, low, hi, probed);
    BisectPlanned(probe, start, g, ceiling, probed, low, hi, mid);
    DistinctAppend(probed, mid);
    Tightened(probe, start, low, hi, mid, probed);
  }

  lemma Tightened(probe: int -> bool, start: int, low: int, hi: int, mid: int, probed: seq<int>)
    requires Enclosing(probe, start, low, hi, probed) && start <= low < mid < hi
    ensures mid !in probed
    ensures if probe(mid) then Enclosing(probe, start, mid, hi, probed + [mid])
            else Enclosing(probe, start, low, mid, probed + [mid])
  {
    var next := probed + [mid];
    assert next[|probed|] == mid;
    assert low in next && hi in next;
  }

  /**
   find_max_context: the returned pair was probed as fitting and failing and is close; no length
   is probed twice; the search ends for every probe.
   */
  method FindMaxContext(probe: int -> bool, start: int, granularity: int, ceiling: int)
    returns (low: int, high: Option<int>, probed: seq<int>)
    requires start >= 1 && granularity >= 1
    ensures Distinct(probed) && (forall x :: x in probed ==> x >= start)
    ensures !probe(start) <==> low == 0
    ensures low == 0 ==> high == Some(start)
    ensures low > 0 ==> probe(low) && low in probed
    ensures low > 0 && high.Some? ==>
      && !probe(high.value) && high.value in probed && low < high.value
      && high.value - low < 2 * granularity
      && (OnGrid(start, granularity) ==> high.value - low <= granularity)
    ensures high.None? ==> low > 0 && 2 * low > ceiling && forall x :: x in probed ==> probe(x)
    ensures (low, high) == Found(probe, start, granularity, ceiling)
    ensures AsPlanned(probe, start, granularity, ceiling, probed)
    ensures high.Some? && low > 0 ==>
      Bracket(probe, probed, low, high.value) && forall x :: !Bisects(low, high.value, granularity, x)
  {
    probed := [start];
    assert probed[..0] == [];
    if !probe(start) { return 0, Some(start), probed; }
    var hi, fits;
    low, hi, fits, probed := Double(probe, start, granularity, ceiling);
    if hi > ceiling { return low, None, probed; }
    ghost var found := Narrow(probe, low, hi, granularity);
    while hi - low > granularity
      invariant Doubled(probe, start, granularity, ceiling, low, hi, false, probed)
      invariant Narrow(probe, low, hi, granularity) == found
      decreases hi - low
    {
      var mid := Middle(low, hi, granularity);
      Halving(low, hi, granularity);
      if mid <= low { break; }
      BisectStep(probe, start, granularity, ceiling, low, hi, mid, probed);
      probed := probed + [mid];
      if probe(mid) { low := mid; } else { hi := mid; }
    }
    BracketOf(probe, start, granularity, ceiling, low, hi, probed);
    NothingToBisect(low, hi, granularity);
    high := Some(hi);
  }

  lemma BracketOf(probe: int -> bool, start: int, g: int, ceiling: int, low: int, hi: int, probed: seq<int>)
    requires g >= 1 && Doubled(probe, start, g, ceiling, low, hi, false, probed)
    ensures Bracket(probe, probed, low, hi)
  {
    forall p | p in probed ensures p <= low || p >= hi {
      var i :| 0 <= i < |probed| && probed[i] == p;
    }
  }

  /** If the bounds are close, or the aligned midpoint is not past the lower one, no grid point is left to probe. */
  lemma NothingToBisect(low: int, high: int, g: int)
    requires g >= 1 && low < high && (high - low <= g || Middle(low, high, g) <= low)
    ensures forall x :: !Bisects(low, high, g, x)
  {
    forall x ensures !Bisects(low, high, g, x) {
      if Bisects(low, high, g, x) {
        MiddleBounds(low, high, g, Middle(low, high, g));
        GridFloor(low + (high - low) / 2, x, g, Middle(low, high, g));
      }
    }
  }

  /** The doubling loop. */
  method Double(probe: int -> bool, start: int, granularity: int, ceiling: int)
    returns (low: int, hi: int, fits: bool, probed: seq<int>)
    requires start >= 1 && granularity >= 1 && probe(start)
    ensures Doubled(probe, start, granularity, ceiling, low, hi, fits, probed)
    ensures fits <==> hi > ceiling
    ensures (low, hi) == Climb(probe, start, ceiling)
  {
    probed, low, hi, fits := [start], start, start * 2, true;
    assert probed[..0] == [];
    GridKept(start, granularity, start);
    while hi <= ceiling && fits
      invariant Doubled(probe, start, granularity, ceiling, low, hi, fits, probed)
      invariant hi == 2 * low && Climb(probe, start, ceiling) == if fits then Climb(probe, low, ceiling) else (low, hi)
      decreases fits, ceiling - hi
    {
      DoubledStep(probe, start, granularity, ceiling, low, probed);
      probed := probed + [hi];
      fits := probe(hi);
      if fits { low, hi := hi, hi * 2; }
    }
  }

  lemma DistinctAppend(s: seq<int>, x: int)
    requires Distinct(s)
    ensures x !in s ==> Distinct(s + [x])
  {
  }
}
