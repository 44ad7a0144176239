/**
 Phase-structured peak-memory estimates and the bisection over them (memfit/model.py).
 */
module MemFit {
  import opened Integers
  import opened Results

  /** What a term returns: a finite number, something that is not one, or an exception of its own. */
  datatype Value = Number(x: real) | NotANumber | Raises(error: nat)

  datatype Term<!P> = Term(name: string, bytes: P -> Value)

  datatype Phase<!P> = Phase(name: string, terms: seq<Term<P>>)

  datatype Model<!P> = Model(phases: seq<Phase<P>>, overhead: real)

  datatype Error = BadTerm | TermRaised(error: nat) | BadRange | NotMonotone | DoesNotFit

  datatype Estimate = Estimate(peakBytes: int, peakPhase: nat, totals: seq<int>)

  /** __post_init__: at least one phase, unique names, overhead_frac >= 0. */
  ghost predicate ValidModel<P(!new)>(m: Model<P>) {
    && m.phases != []
    && (forall i, j :: 0 <= i < j < |m.phases| ==> m.phases[i].name != m.phases[j].name)
    && m.overhead >= 0.0
  }

  /** _term_bytes */
  function TermBytes(v: Value): Result<int, Error> {
    match v
    case Number(x) => if x < 0.0 then Err(BadTerm) else Ok(x.Floor)
    case NotANumber => Err(BadTerm)
    case Raises(e) => Err(TermRaised(e))
  }

  /** The whole bytes of the first n terms, or the first error among them. */
  function TermsSum<P(!new)>(terms: seq<Term<P>>, p: P, n: nat): Result<int, Error>
    requires n <= |terms|
  {
    if n == 0 then Ok(0)
    else
      var s := TermsSum(terms, p, n - 1);
      if s.Err? then s
      else
        var b := TermBytes(terms[n - 1].bytes(p));
        if b.Err? then b else Ok(s.value + b.value)
  }

  /** int(sum * (1 + overhead_frac)) */
  function Scale(sum: int, overhead: real): int {
    (sum as real * (1.0 + overhead)).Floor
  }

  function PhaseTotal<P(!new)>(ph: Phase<P>, overhead: real, p: P): Result<int, Error> {
    var s := TermsSum(ph.terms, p, |ph.terms|);
    if s.Err? then s else Ok(Scale(s.value, overhead))
  }

  /** The first n phase totals, or the first error among them. */
  function Totals<P(!new)>(m: Model<P>, p: P, n: nat): (r: Result<seq<int>, Error>)
    requires n <= |m.phases|
    ensures r.Ok? ==> |r.value| == n
  {
    if n == 0 then Ok([])
    else
      var ts := Totals(m, p, n - 1);
      if ts.Err? then ts
      else
        var t := PhaseTotal(m.phases[n - 1], m.overhead, p);
        if t.Err? then Err(t.error) else Ok(ts.value + [t.value])
  }

  /** The estimate's peak: the error of the first failing term, or the largest phase total. */
  ghost predicate PeakIs<P(!new)>(m: Model<P>, p: P, r: Result<int, Error>) {
    var ts := Totals(m, p, |m.phases|);
    if ts.Err? then r == Err(ts.error)
    else r.Ok? && r.value in ts.value && forall t :: t in ts.value ==> t <= r.value
  }

  /** estimate: every term once, in order; the peak is the first largest phase. */
  method EstimatePeak<P(!new)>(m: Model<P>, p: P) returns (r: Result<Estimate, Error>)
    requires ValidModel(m)
    ensures Totals(m, p, |m.phases|).Err? <==> r.Err?
    ensures r.Err? ==> r == Err(Totals(m, p, |m.phases|).error)
    ensures r.Ok? ==>
      && r.value.totals == Totals(m, p, |m.phases|).value
      && r.value.peakPhase < |m.phases|
      && r.value.peakBytes == r.value.totals[r.value.peakPhase]
      && (forall i :: 0 <= i < |m.phases| ==> r.value.totals[i] <= r.value.peakBytes)
      && (forall i :: 0 <= i < r.value.peakPhase ==> r.value.totals[i] < r.value.peakBytes)
    ensures PeakIs(m, p, if r.Ok? then Ok(r.value.peakBytes) else Err(r.error))
  {
    var totals: seq<int> := [];
    for i := 0 to |m.phases|
      invariant Totals(m, p, i) == Ok(totals)
    {
      var terms := m.phases[i].terms;
      var sum := 0;
      for k := 0 to |terms|
        invariant TermsSum(terms, p, k) == Ok(sum)
      {
        var b := TermBytes(terms[k].bytes(p));
        if b.Err? {
          FirstTermError(terms, p, k + 1, |terms|);
          FirstPhaseError(m, p, i + 1, |m.phases|);
          return Err(b.error);
        }
        sum := sum + b.value;
      }
      totals := totals + [Scale(sum, m.overhead)];
    }
    var best := 0;
    for i := 1 to |totals|
      invariant best < |totals|
      invariant forall k :: 0 <= k < i ==> totals[k] <= totals[best]
      invariant forall k :: 0 <= k < best ==> totals[k] < totals[best]
    {
      if totals[i] > totals[best] { best := i; }
    }
    r := Ok(Estimate(totals[best], best, totals));
  }

  lemma {:induction false} FirstTermError<P(!new)>(terms: seq<Term<P>>, p: P, k: nat, n: nat)
    requires k <= n <= |terms| && TermsSum(terms, p, k).Err?
    ensures TermsSum(terms, p, n) == TermsSum(terms, p, k)
    decreases n
  {
    if k < n { FirstTermError(terms, p, k, n - 1); }
  }

  lemma {:induction false} FirstPhaseError<P(!new)>(m: Model<P>, p: P, k: nat, n: nat)
    requires k <= n <= |m.phases| && Totals(m, p, k).Err?
    ensures Totals(m, p, n) == Totals(m, p, k)
    decreases n
  {
    if k < n { FirstPhaseError(m, p, k, n - 1); }
  }

  // ----- what the totals are, in bytes -----

  function SumInts(s: seq<int>): int {
    if s == [] then 0 else SumInts(s[..|s| - 1]) + s[|s| - 1]
  }

  predicate GoodTerm<P(!new)>(t: Term<P>, p: P) {
    t.bytes(p).Number? && t.bytes(p).x >= 0.0
  }

  /** b is the whole number of bytes in x. */
  predicate WholeBytes(x: real, b: int) {
    b as real <= x < (b + 1) as real
  }

  /** The term is a non-negative number with b whole bytes. */
  ghost predicate CountsBytes<P(!new)>(t: Term<P>, p: P, b: int) {
    GoodTerm(t, p) && b as real <= t.bytes(p).x < (b + 1) as real
  }

  lemma TermBytesIs(v: Value)
    ensures v.Number? && v.x >= 0.0 ==> TermBytes(v).Ok? && WholeBytes(v.x, TermBytes(v).value)
    ensures v.Number? && v.x < 0.0 ==> TermBytes(v) == Err(BadTerm)
    ensures v.NotANumber? ==> TermBytes(v) == Err(BadTerm)
    ensures v.Raises? ==> TermBytes(v) == Err(TermRaised(v.error))
  {
  }

  lemma {:induction false} TermsSumIs<P(!new)>(terms: seq<Term<P>>, p: P, bytes: seq<int>, n: nat)
    requires n <= |terms| == |bytes|
    requires forall k :: 0 <= k < n ==> CountsBytes(terms[k], p, bytes[k])
    ensures TermsSum(terms, p, n) == Ok(SumInts(bytes[..n]))
  {
    if n > 0 {
      TermsSumIs(terms, p, bytes, n - 1);
      assert bytes[..n][..n - 1] == bytes[..n - 1];
      CountedTerm(terms[n - 1], p, bytes[n - 1]);
    }
  }

  lemma CountedTerm<P(!new)>(t: Term<P>, p: P, b: int)
    requires CountsBytes(t, p, b)
    ensures TermBytes(t.bytes(p)) == Ok(b)
  {
  }

  lemma ScaleIs(sum: int, overhead: real)
    ensures WholeBytes(sum as real * (1.0 + overhead), Scale(sum, overhead))
  {
  }

  /**
   Of numeric terms each counts its whole bytes; a phase's total is the whole bytes of their sum
   times one plus the overhead.
   */
  lemma PhaseTotalIs<P(!new)>(ph: Phase<P>, overhead: real, p: P, bytes: seq<int>)
    requires |bytes| == |ph.terms|
    requires forall k :: 0 <= k < |bytes| ==> CountsBytes(ph.terms[k], p, bytes[k])
    ensures var r := PhaseTotal(ph, overhead, p);
      r.Ok? && r.value as real <= SumInts(bytes) as real * (1.0 + overhead) < (r.value + 1) as real
  {
    TermsSumIs(ph.terms, p, bytes, |bytes|);
    assert bytes[..|bytes|] == bytes;
    ScaleIs(SumInts(bytes), overhead);
  }

  /** An estimate without an error has one total per phase, in order. */
  lemma {:induction false} TotalAt<P(!new)>(m: Model<P>, p: P, n: nat, i: nat)
    requires i < n <= |m.phases| && Totals(m, p, n).Ok?
    ensures PhaseTotal(m.phases[i], m.overhead, p) == Ok(Totals(m, p, n).value[i])
  {
    if i < n - 1 { TotalAt(m, p, n - 1, i); }
  }

  lemma {:induction false} GoodSum<P(!new)>(terms: seq<Term<P>>, p: P, n: nat)
    requires n <= |terms| && forall k :: 0 <= k < n ==> GoodTerm(terms[k], p)
    ensures TermsSum(terms, p, n).Ok?
  {
    if n > 0 {
      GoodSum(terms, p, n - 1);
      assert GoodTerm(terms[n - 1], p);
    }
  }

  ghost predicate GoodPhase<P(!new)>(ph: Phase<P>, p: P) {
    forall k :: 0 <= k < |ph.terms| ==> GoodTerm(ph.terms[k], p)
  }

  lemma {:induction false} GoodTotals<P(!new)>(m: Model<P>, p: P, n: nat)
    requires n <= |m.phases| && forall i :: 0 <= i < n ==> GoodPhase(m.phases[i], p)
    ensures Totals(m, p, n).Ok?
  {
    if n > 0 {
      GoodTotals(m, p, n - 1);
      assert GoodPhase(m.phases[n - 1], p);
      GoodSum(m.phases[n - 1].terms, p, |m.phases[n - 1].terms|);
    }
  }

  /**
   The first term, in evaluation order, that raises, or returns a negative number or something that
   is not a number, decides the estimate's error.
   */
  lemma FirstFailure<P(!new)>(m: Model<P>, p: P, i: nat, k: nat)
    requires i < |m.phases| && k < |m.phases[i].terms| && !GoodTerm(m.phases[i].terms[k], p)
    requires forall x :: 0 <= x < i ==> GoodPhase(m.phases[x], p)
    requires forall x :: 0 <= x < k ==> GoodTerm(m.phases[i].terms[x], p)
    ensures var v := m.phases[i].terms[k].bytes(p);
      Totals(m, p, |m.phases|) == Err(if v.Raises? then TermRaised(v.error) else BadTerm)
  {
    var terms := m.phases[i].terms;
    GoodTotals(m, p, i);
    GoodSum(terms, p, k);
    TermBytesIs(terms[k].bytes(p));
    FirstTermError(terms, p, k + 1, |terms|);
    FirstPhaseError(m, p, i + 1, |m.phases|);
  }

  // ----- bisection -----

  function CeilLog2(n: int): nat
    decreases n
  {
    if n <= 1 then 0 else 1 + CeilLog2((n + 1) / 2)
  }

  /** CeilLog2(n) is the least k with 2^k >= n. */
  lemma {:induction false} CeilLog2Exact(n: nat)
    requires n >= 1
    ensures n <= Pow2(CeilLog2(n)) && (n > 1 ==> Pow2(CeilLog2(n) - 1) < n)
  {
    if n > 1 {
      CeilLog2Exact((n + 1) / 2);
      if (n + 1) / 2 <= 1 { assert n == 2; }
    }
  }

  function PeakOf<P(!new)>(m: Model<P>, vary: int -> P, v: int): Result<int, Error>
    requires m.phases != []
  {
    var ts := Totals(m, vary(v), |m.phases|);
    if ts.Err? then Err(ts.error) else Ok(Largest(ts.value))
  }

  function Largest(s: seq<int>): (r: int)
    requires s != []
    ensures r in s && forall t :: t in s ==> t <= r
  {
    if |s| == 1 then s[0]
    else
      var r := Largest(s[..|s| - 1]);
      assert forall t :: t in s ==> t in s[..|s| - 1] || t == s[|s| - 1];
      if s[|s| - 1] > r then s[|s| - 1] else r
  }

  method Peak<P(!new)>(m: Model<P>, vary: int -> P, ghost peak: Curve, v: int) returns (r: Result<int, Error>)
    requires ValidModel(m) && IsPeak(m, vary, peak)
    ensures r == peak(v)
  {
    assert PeakOf(m, vary, v) == peak(v);
    var est := EstimatePeak(m, vary(v));
    r := if est.Ok? then Ok(est.value.peakBytes) else Err(est.error);
  }

  type Curve = int -> Result<int, Error>

  /** The peak the model predicts at every v. */
  ghost predicate IsPeak<P(!new)>(m: Model<P>, vary: int -> P, peak: Curve)
    requires m.phases != []
  {
    forall v {:trigger PeakOf(m, vary, v)} :: PeakOf(m, vary, v) == peak(v)
  }

  ghost predicate FitsAt(peak: Curve, v: int, budget: int) {
    peak(v).Ok? && peak(v).value <= budget
  }

  /** The only monotonicity that is checked: the two endpoints. */
  ghost predicate Falls(peak: Curve, lo: int, hi: int) {
    peak(lo).Ok? && peak(hi).Ok? && peak(hi).value < peak(lo).value
  }

  ghost predicate MissesAt(peak: Curve, v: int, budget: int) {
    peak(v).Ok? && peak(v).value > budget
  }

  /**
   max_int_within_budget. A returned value fits and is the last of the range or is followed by
   one that does not; nothing about the peak inside the range is assumed. The evaluations are
   counted.
   */
  method MaxIntWithinBudget<P(!new)>(m: Model<P>, vary: int -> P, ghost peak: Curve, lo: int, hi: int, budget: int)
    returns (r: Result<int, Error>, evaluations: nat)
    requires ValidModel(m) && IsPeak(m, vary, peak)
    ensures r == Err(BadRange) <==> lo < 0 || lo > hi
    ensures r == Err(NotMonotone) <==> 0 <= lo <= hi && Falls(peak, lo, hi)
    ensures r == Err(DoesNotFit) <==>
      0 <= lo <= hi && !Falls(peak, lo, hi) && MissesAt(peak, lo, budget) && peak(hi).Ok?
    ensures 0 <= lo <= hi && peak(lo).Err? ==> r == peak(lo)
    ensures 0 <= lo <= hi && peak(lo).Ok? && peak(hi).Err? ==> r == peak(hi)
    ensures r.Err? && OwnFault(r.error) ==> FailsWith(peak, lo, hi, r.error)
    ensures r.Ok? ==>
      && lo <= r.value <= hi && FitsAt(peak, r.value, budget)
      && (if FitsAt(peak, hi, budget) then r.value == hi else MissesAt(peak, r.value + 1, budget))
    ensures evaluations <= 2 + CeilLog2(hi - lo)
  {
    evaluations := 0;
    if lo < 0 || lo > hi { return Err(BadRange), evaluations; }
    var loPeak := Peak(m, vary, peak, lo);
    evaluations := 1;
    if loPeak.Err? { FailsHere(m, vary, peak, lo, hi, lo, loPeak); return loPeak, evaluations; }
    var hiPeak := Peak(m, vary, peak, hi);
    evaluations := 2;
    if hiPeak.Err? { FailsHere(m, vary, peak, lo, hi, hi, hiPeak); return hiPeak, evaluations; }
    if hiPeak.value < loPeak.value { return Err(NotMonotone), evaluations; }
    if loPeak.value > budget { return Err(DoesNotFit), evaluations; }
    if hiPeak.value <= budget { return Ok(hi), evaluations; }
    CeilLog2Exact(hi - lo);
    var more;
    r, more := Bisect(m, vary, peak, lo, hi, budget, CeilLog2(hi - lo));
    evaluations := 2 + more;
  }

  /** The bisection loop between a value that fits and one that does not. */
  method Bisect<P(!new)>(m: Model<P>, vary: int -> P, ghost peak: Curve, lo: int, hi: int, budget: int,
                         ghost halvings: nat)
    returns (r: Result<int, Error>, evaluations: nat)
    requires ValidModel(m) && IsPeak(m, vary, peak) && lo < hi && FitsAt(peak, lo, budget) && MissesAt(peak, hi, budget)
    requires hi - lo <= Pow2(halvings)
    ensures r.Err? ==> FailsWith(peak, lo, hi, r.error) && OwnFault(r.error)
    ensures r.Ok? ==> lo <= r.value < hi && FitsAt(peak, r.value, budget) && MissesAt(peak, r.value + 1, budget)
    ensures evaluations <= halvings
  {
    evaluations := 0;
    var fit, miss := lo, hi;
    ghost var left := halvings;
    while miss - fit > 1
      invariant lo <= fit < miss <= hi
      invariant FitsAt(peak, fit, budget) && MissesAt(peak, miss, budget)
      invariant evaluations + left == halvings && miss - fit <= Pow2(left)
    {
      var mid := (fit + miss) / 2;
      var p := Peak(m, vary, peak, mid);
      evaluations, left := evaluations + 1, left - 1;
      if p.Err? { FailsHere(m, vary, peak, lo, hi, mid, p); return p, evaluations; }
      if p.value <= budget { fit := mid; } else { miss := mid; }
    }
    r := Ok(fit);
  }

  ghost predicate FailsWith(peak: Curve, lo: int, hi: int, e: Error) {
    exists v :: lo <= v <= hi && peak(v) == Err(e)
  }

  predicate OwnFault(e: Error) {
    e == BadTerm || e.TermRaised?
  }

  /** A failing estimate fails with a term's error. */
  lemma FailsHere<P(!new)>(m: Model<P>, vary: int -> P, peak: Curve, lo: int, hi: int, v: int, p: Result<int, Error>)
    requires m.phases != [] && IsPeak(m, vary, peak) && lo <= v <= hi && p == peak(v) && p.Err?
    ensures FailsWith(peak, lo, hi, p.error) && OwnFault(p.error)
  {
    assert PeakOf(m, vary, v) == p;
    TotalsError(m, vary(v), |m.phases|);
  }

  lemma {:induction false} TermsError<P(!new)>(terms: seq<Term<P>>, p: P, n: nat)
    requires n <= |terms| && TermsSum(terms, p, n).Err?
    ensures OwnFault(TermsSum(terms, p, n).error)
  {
    if n > 0 && TermsSum(terms, p, n - 1).Err? { TermsError(terms, p, n - 1); }
  }

  lemma {:induction false} TotalsError<P(!new)>(m: Model<P>, p: P, n: nat)
    requires n <= |m.phases| && Totals(m, p, n).Err?
    ensures OwnFault(Totals(m, p, n).error)
  {
    if n > 0 {
      if Totals(m, p, n - 1).Err? { TotalsError(m, p, n - 1); }
      else { TermsError(m.phases[n - 1].terms, p, |m.phases[n - 1].terms|); }
    }
  }

  // ----- monotone terms make the answer the maximum -----

  /** Every term is a number >= 0 and does not decrease from p to q. */
  ghost predicate TermsGrow<P(!new)>(terms: seq<Term<P>>, p: P, q: P) {
    forall k :: 0 <= k < |terms| ==> TermGrows(terms[k], p, q)
  }

  ghost predicate TermGrows<P(!new)>(t: Term<P>, p: P, q: P) {
    t.bytes(p).Number? && t.bytes(q).Number? && 0.0 <= t.bytes(p).x <= t.bytes(q).x
  }

  lemma {:induction false} SumsGrow<P(!new)>(terms: seq<Term<P>>, p: P, q: P, n: nat)
    requires TermsGrow(terms, p, q) && n <= |terms|
    ensures TermsSum(terms, p, n).Ok? && TermsSum(terms, q, n).Ok?
    ensures 0 <= TermsSum(terms, p, n).value <= TermsSum(terms, q, n).value
  {
    if n > 0 {
      SumsGrow(terms, p, q, n - 1);
      assert TermGrows(terms[n - 1], p, q);
    }
  }

  lemma ScaleGrows(a: int, b: int, f: real)
    requires 0 <= a <= b && f >= 0.0
    ensures Scale(a, f) <= Scale(b, f)
  {
    assert (b as real - a as real) * (1.0 + f) >= 0.0;
  }

  lemma {:induction false} TotalsGrow<P(!new)>(m: Model<P>, p: P, q: P, n: nat)
    requires m.overhead >= 0.0 && n <= |m.phases|
    requires forall i :: 0 <= i < |m.phases| ==> TermsGrow(m.phases[i].terms, p, q)
    ensures Totals(m, p, n).Ok? && Totals(m, q, n).Ok?
    ensures forall i :: 0 <= i < n ==> Totals(m, p, n).value[i] <= Totals(m, q, n).value[i]
  {
    if n > 0 {
      var ph := m.phases[n - 1];
      TotalsGrow(m, p, q, n - 1);
      SumsGrow(ph.terms, p, q, |ph.terms|);
      ScaleGrows(TermsSum(ph.terms, p, |ph.terms|).value, TermsSum(ph.terms, q, |ph.terms|).value, m.overhead);
    }
  }

  /** If every term of every phase grows along the range, so does the predicted peak. */
  lemma PeakGrows<P(!new)>(m: Model<P>, vary: int -> P, peak: Curve, a: int, b: int)
    requires ValidModel(m) && IsPeak(m, vary, peak)
    requires forall i :: 0 <= i < |m.phases| ==> TermsGrow(m.phases[i].terms, vary(a), vary(b))
    ensures peak(a).Ok? && peak(b).Ok? && peak(a).value <= peak(b).value
  {
    var n := |m.phases|;
    assert PeakOf(m, vary, a) == peak(a) && PeakOf(m, vary, b) == peak(b);
    TotalsGrow(m, vary(a), vary(b), n);
    var s, t := Totals(m, vary(a), n).value, Totals(m, vary(b), n).value;
    var i :| 0 <= i < n && s[i] == Largest(s);
    assert t[i] in t;
  }

  /** ... and then a value with max_int_within_budget's guarantee is the largest that fits. */
  lemma FoundIsMaximum<P(!new)>(m: Model<P>, vary: int -> P, peak: Curve, lo: int, hi: int, budget: int, r: int, v: int)
    requires ValidModel(m) && IsPeak(m, vary, peak) && lo <= r <= hi && lo <= v <= hi
    requires forall a, b, i :: lo <= a <= b <= hi && 0 <= i < |m.phases| ==> TermsGrow(m.phases[i].terms, vary(a),
                                                                                       vary(b))
    requires FitsAt(peak, r, budget) && (r == hi || MissesAt(peak, r + 1, budget))
    ensures FitsAt(peak, v, budget) <==> v <= r
  {
    if v <= r { PeakGrows(m, vary, peak, v, r); } else { PeakGrows(m, vary, peak, r + 1, v); }
  }
}
