/**
 Chunk-parallel GatedDelta (recurrent/ops.py) against the step-by-step recurrence.

 A value head sees matrices indexed (time, feature); its state is indexed (key feature,
 value feature). `live` is the caller's mask.
 */
module GatedDelta {
  import opened RealSums
  import opened ExpLog

  datatype Head = Head(q: Mat, k: Mat, v: Mat, g: Vec, beta: Vec, live: int -> bool)

  // ----- the sequential recurrence -----

  /** beta * (v - S^T k) for the state already decayed by g. */
  function Delta(dk: nat, x: Head, t: int, S: Mat): Vec {
    c => x.beta(t) * (x.v(t, c) - Sum(0, dk, a => x.g(t) * S(a, c) * x.k(t, a)))
  }

  function Step(dk: nat, x: Head, t: int, S: Mat): Mat {
    if !x.live(t) then S else (a, c) => x.g(t) * S(a, c) + x.k(t, a) * Delta(dk, x, t, S)(c)
  }

  /** The state after the first t steps. */
  function Run(dk: nat, x: Head, S0: Mat, t: nat): Mat {
    if t == 0 then S0 else Step(dk, x, t - 1, Run(dk, x, S0, t - 1))
  }

  /** y_t = S_t^T q_t */
  function Output(dk: nat, x: Head, S0: Mat, t: nat): Vec {
    c => Sum(0, dk, a => x.q(t, a) * Run(dk, x, S0, t + 1)(a, c))
  }

  ghost predicate SameState(dv: nat, S: Mat, S': Mat) {
    forall a, c :: 0 <= c < dv ==> S(a, c) == S'(a, c)
  }

  /** The two heads take the same step at times t and t'. */
  ghost predicate SameStepAt(dv: nat, x: Head, t: int, x': Head, t': int) {
    && x.live(t) == x'.live(t')
    && x.g(t) == x'.g(t') && x.beta(t) == x'.beta(t')
    && (forall a :: x.k(t, a) == x'.k(t', a))
    && (forall c :: 0 <= c < dv ==> x.v(t, c) == x'.v(t', c))
  }

  lemma DeltaCong(dk: nat, dv: nat, x: Head, t: int, S: Mat, x': Head, t': int, S': Mat, c: int)
    requires SameStepAt(dv, x, t, x', t') && SameState(dv, S, S') && 0 <= c < dv
    ensures Delta(dk, x, t, S)(c) == Delta(dk, x', t', S')(c)
  {
    SumCong(0, dk, a => x.g(t) * S(a, c) * x.k(t, a), a => x'.g(t') * S'(a, c) * x'.k(t', a));
  }

  lemma StepCong(dk: nat, dv: nat, x: Head, t: int, S: Mat, x': Head, t': int, S': Mat)
    requires SameStepAt(dv, x, t, x', t') && SameState(dv, S, S')
    ensures SameState(dv, Step(dk, x, t, S), Step(dk, x', t', S'))
  {
    forall a, c | 0 <= c < dv
      ensures Step(dk, x, t, S)(a, c) == Step(dk, x', t', S')(a, c)
    {
      StepCongAt(dk, dv, x, t, S, x', t', S', a, c);
    }
  }

  lemma StepCongAt(dk: nat, dv: nat, x: Head, t: int, S: Mat, x': Head, t': int, S': Mat, a: int, c: int)
    requires SameStepAt(dv, x, t, x', t') && SameState(dv, S, S') && 0 <= c < dv
    ensures Step(dk, x, t, S)(a, c) == Step(dk, x', t', S')(a, c)
  {
    DeltaCong(dk, dv, x, t, S, x', t', S', c);
  }

  /** A step with gate 1 and beta 0 changes nothing. */
  lemma IdentityStep(dk: nat, dv: nat, x: Head, t: int, S: Mat)
    requires x.live(t) ==> x.g(t) == 1.0 && x.beta(t) == 0.0
    ensures SameState(dv, Step(dk, x, t, S), S)
  {
    forall a, c | 0 <= c < dv
      ensures Step(dk, x, t, S)(a, c) == S(a, c)
    {
      if x.live(t) { assert Delta(dk, x, t, S)(c) == 0.0; }
    }
  }

  // ----- composition and deletion -----

  function Shift(x: Head, p: int): Head {
    Head((t, a) => x.q(p + t, a), (t, a) => x.k(p + t, a), (t, c) => x.v(p + t, c),
         t => x.g(p + t), t => x.beta(p + t), t => x.live(p + t))
  }

  /** Running p steps and then the rest with the carried state is running the whole. */
  lemma {:induction false} RunSplit(dk: nat, dv: nat, x: Head, S0: Mat, p: nat, i: nat)
    ensures SameState(dv, Run(dk, x, S0, p + i), Run(dk, Shift(x, p), Run(dk, x, S0, p), i))
  {
    if i > 0 {
      RunSplit(dk, dv, x, S0, p, i - 1);
      StepCong(dk, dv, x, p + i - 1, Run(dk, x, S0, p + i - 1),
               Shift(x, p), i - 1, Run(dk, Shift(x, p), Run(dk, x, S0, p), i - 1));
    }
  }

  lemma {:induction false} RunCong(dk: nat, dv: nat, x: Head, S: Mat, x': Head, S': Mat, n: nat)
    requires SameState(dv, S, S')
    requires forall t :: 0 <= t < n ==> SameStepAt(dv, x, t, x', t)
    ensures SameState(dv, Run(dk, x, S, n), Run(dk, x', S', n))
  {
    if n > 0 {
      RunCong(dk, dv, x, S, x', S', n - 1);
      StepCong(dk, dv, x, n - 1, Run(dk, x, S, n - 1), x', n - 1, Run(dk, x', S', n - 1));
    }
  }

  lemma OutputCong(dk: nat, dv: nat, x: Head, S: Mat, t: nat, x': Head, S': Mat, t': nat, c: int)
    requires SameState(dv, Run(dk, x, S, t + 1), Run(dk, x', S', t' + 1)) && 0 <= c < dv
    requires forall a :: x.q(t, a) == x'.q(t', a)
    ensures Output(dk, x, S, t)(c) == Output(dk, x', S', t')(c)
  {
    SumCong(0, dk, a => x.q(t, a) * Run(dk, x, S, t + 1)(a, c),
            a => x'.q(t', a) * Run(dk, x', S', t' + 1)(a, c));
  }

  /** The unmasked times below n, in order. */
  function LiveTimes(x: Head, n: nat): seq<nat> {
    if n == 0 then [] else LiveTimes(x, n - 1) + if x.live(n - 1) then [n - 1] else []
  }

  /** The head restricted to the given times, nothing masked. */
  function Restrict(x: Head, times: seq<nat>): Head {
    var at := (t: int) => if 0 <= t < |times| then times[t] else 0;
    Head((t, a) => x.q(at(t), a), (t, a) => x.k(at(t), a), (t, c) => x.v(at(t), c),
         t => x.g(at(t)), t => x.beta(at(t)), t => true)
  }

  lemma {:induction false} LivePrefix(x: Head, n: nat, N: nat)
    requires n <= N
    ensures |LiveTimes(x, n)| <= |LiveTimes(x, N)|
    ensures n < N && x.live(n) ==> |LiveTimes(x, n)| < |LiveTimes(x, N)| && LiveTimes(x, N)[|LiveTimes(x, n)|] == n
    decreases N - n
  {
    if n < N {
      LivePrefix(x, n, N - 1);
    }
  }

  /** Masked steps act as if deleted: the run on the unmasked steps alone has the same states. */
  lemma {:induction false} MaskedStepsDeleted(dk: nat, dv: nat, x: Head, S: Mat, n: nat, N: nat)
    requires n <= N
    ensures SameState(dv, Run(dk, x, S, n), Run(dk, Restrict(x, LiveTimes(x, N)), S, |LiveTimes(x, n)|))
  {
    if n > 0 {
      var y := Restrict(x, LiveTimes(x, N));
      var m := |LiveTimes(x, n - 1)|;
      MaskedStepsDeleted(dk, dv, x, S, n - 1, N);
      if x.live(n - 1) {
        LivePrefix(x, n - 1, N);
        StepCong(dk, dv, x, n - 1, Run(dk, x, S, n - 1), y, m, Run(dk, y, S, m));
      }
    }
  }

  /** ... and the same outputs at every unmasked time. */
  lemma MaskedOutputsDeleted(dk: nat, dv: nat, x: Head, S: Mat, t: nat, N: nat, c: int)
    requires t < N && x.live(t) && 0 <= c < dv
    ensures Output(dk, x, S, t)(c) == Output(dk, Restrict(x, LiveTimes(x, N)), S, |LiveTimes(x, t)|)(c)
  {
    MaskedStepsDeleted(dk, dv, x, S, t + 1, N);
    LivePrefix(x, t, N);
    OutputCong(dk, dv, x, S, t, Restrict(x, LiveTimes(x, N)), S, |LiveTimes(x, t)|, c);
  }

  // ----- one chunk, unrolled -----

  function DeltaAt(dk: nat, x: Head, S: Mat, c: int): Vec {
    j => if j >= 0 then Delta(dk, x, j, Run(dk, x, S, j))(c) else 0.0
  }

  /** What an input b(j) at step j still contributes after i steps of decay. */
  function Decayed(g: Vec, b: Vec, i: int): Vec {
    j => Product(j + 1, i, g) * b(j)
  }

  lemma DecayedStep(g: Vec, b: Vec, i: int)
    requires i >= 0
    ensures Sum(0, i + 1, Decayed(g, b, i + 1)) == g(i) * Sum(0, i, Decayed(g, b, i)) + b(i)
  {
    forall j | 0 <= j < i
      ensures Decayed(g, b, i + 1)(j) == g(i) * Decayed(g, b, i)(j)
    {
      Reorder(Product(j + 1, i, g), g(i), b(j));
    }
    SumScale(0, i, g(i), Decayed(g, b, i), Decayed(g, b, i + 1));
    assert Product(i + 1, i + 1, g) == 1.0;
  }

  lemma Reorder(p: real, g: real, b: real)
    ensures p * g * b == g * (p * b)
  {
  }

  ghost predicate Affine(y: real, m: real, x: real, b: real) {
    y == m * x + b
  }

  /** A scalar linear recurrence in closed form. */
  lemma {:induction false} Recurrence(g: Vec, b: Vec, r: Vec, n: nat, s: real)
    requires r(0) == s
    requires forall i :: 0 <= i < n ==> Affine(r(i + 1), g(i), r(i), b(i))
    ensures Affine(r(n), Product(0, n, g), s, Sum(0, n, Decayed(g, b, n)))
  {
    if n > 0 {
      var i := n - 1;
      Recurrence(g, b, r, i, s);
      DecayedStep(g, b, i);
      assert Affine(r(i + 1), g(i), r(i), b(i));
      RecurrenceStep(g(i), Product(0, i, g), s, Sum(0, i, Decayed(g, b, i)));
    }
  }

  lemma RecurrenceStep(g: real, p: real, s: real, z: real)
    ensures g * (p * s + z) == p * g * s + g * z
  {
  }

  function Inputs(k: Mat, w: Vec, a: int): Vec {
    j => k(j, a) * w(j)
  }

  lemma RunStep(dk: nat, x: Head, S: Mat, i: nat, a: int, c: int, w: Vec)
    requires x.live(i) && w == DeltaAt(dk, x, S, c)
    ensures Affine(Run(dk, x, S, i + 1)(a, c), x.g(i), Run(dk, x, S, i)(a, c), Inputs(x.k, w, a)(i))
  {
  }

  lemma Unroll(dk: nat, x: Head, S: Mat, n: nat, a: int, c: int, w: Vec)
    requires forall t :: 0 <= t < n ==> x.live(t)
    requires w == DeltaAt(dk, x, S, c)
    ensures Affine(Run(dk, x, S, n)(a, c), Product(0, n, x.g), S(a, c), TraceSum(x.k, x.g, w, n)(a))
  {
    var r: Vec := i => if i >= 0 then Run(dk, x, S, i)(a, c) else 0.0;
    var b := Inputs(x.k, w, a);
    forall i | 0 <= i < n
      ensures Affine(r(i + 1), x.g(i), r(i), b(i))
    {
      RunStep(dk, x, S, i, a, c, w);
    }
    assert Run(dk, x, S, 0) == S;
    Recurrence(x.g, b, r, n, S(a, c));
  }

  function TraceSum(k: Mat, g: Vec, w: Vec, i: int): Vec {
    a => Sum(0, i, Decayed(g, Inputs(k, w, a), i))
  }

  /** Reading the state along u: the initial state decayed, plus one Gram entry per step. */
  lemma ReadOut(dk: nat, x: Head, S: Mat, i: nat, c: int, u: Vec, R: Mat, w: Vec)
    requires forall t :: 0 <= t < i ==> x.live(t)
    requires R == Run(dk, x, S, i) && w == DeltaAt(dk, x, S, c)
    ensures Affine(Sum(0, dk, a => u(a) * R(a, c)), Product(0, i, x.g), Sum(0, dk, a => u(a) * S(a, c)),
                   Sum(0, i, GramTrace(dk, x.k, x.g, w, i, u)))
  {
    var z := TraceSum(x.k, x.g, w, i);
    forall a
      ensures Affine(R(a, c), Product(0, i, x.g), S(a, c), z(a))
    {
      Unroll(dk, x, S, i, a, c, w);
    }
    ReadSum(dk, S, R, Product(0, i, x.g), z, c, u);
    TraceSwap(dk, x.k, x.g, w, i, u, z);
  }

  lemma ReadSum(dk: nat, S: Mat, R: Mat, P: real, z: Vec, c: int, u: Vec)
    requires forall a :: Affine(R(a, c), P, S(a, c), z(a))
    ensures Affine(Sum(0, dk, a => u(a) * R(a, c)), P, Sum(0, dk, a => u(a) * S(a, c)), Sum(0, dk, a => u(a) * z(a)))
  {
    var f: Vec, g: Vec, h: Vec := a => u(a) * R(a, c), a => u(a) * S(a, c), a => u(a) * z(a);
    forall a ensures Affine(f(a), P, g(a), h(a)) { ReadTerm(P, u(a), S(a, c), z(a), R(a, c)); }
    AffineSum(dk, P, f, g, h);
  }

  lemma ReadTerm(p: real, u: real, s: real, z: real, r: real)
    requires Affine(r, p, s, z)
    ensures Affine(u * r, p, u * s, u * z)
  {
    assert u * (p * s + z) == p * (u * s) + u * z;
  }

  lemma {:induction false} AffineSum(n: nat, p: real, f: Vec, g: Vec, h: Vec)
    requires forall a :: Affine(f(a), p, g(a), h(a))
    ensures Affine(Sum(0, n, f), p, Sum(0, n, g), Sum(0, n, h))
  {
    if n > 0 {
      AffineSum(n - 1, p, f, g, h);
      AffineAdd(p, Sum(0, n - 1, f), Sum(0, n - 1, g), Sum(0, n - 1, h), f(n - 1), g(n - 1), h(n - 1));
    }
  }

  lemma AffineAdd(p: real, y: real, x: real, b: real, y': real, x': real, b': real)
    requires Affine(y, p, x, b) && Affine(y', p, x', b')
    ensures Affine(y + y', p, x + x', b + b')
  {
  }

  function GramTrace(dk: nat, k: Mat, g: Vec, w: Vec, i: int, u: Vec): Vec {
    j => Product(j + 1, i, g) * (w(j) * Overlap(dk, u, k, j))
  }

  /** The inner product of u with the key of step j. */
  function Overlap(dk: nat, u: Vec, k: Mat, j: int): real {
    Sum(0, dk, a => u(a) * k(j, a))
  }

  lemma TraceSwap(dk: nat, k: Mat, g: Vec, w: Vec, i: int, u: Vec, z: Vec)
    requires z == TraceSum(k, g, w, i)
    ensures Sum(0, dk, a => u(a) * z(a)) == Sum(0, i, GramTrace(dk, k, g, w, i, u))
  {
    var M: Mat := (a, j) => Decayed(g, Inputs(k, w, a), i)(j);
    forall a
      ensures z(a) == Sum(0, i, j => M(a, j))
    {
      SumCong(0, i, Decayed(g, Inputs(k, w, a), i), j => M(a, j));
    }
    var t := GramTrace(dk, k, g, w, i, u);
    forall j ensures t(j) == Sum(0, dk, a => u(a) * M(a, j)) { TraceColumn(dk, k, g, w, i, u, M, j); }
    WeightedSwap(dk, i, u, M, z, t);
  }

  lemma TraceColumn(dk: nat, k: Mat, g: Vec, w: Vec, i: int, u: Vec, M: Mat, j: int)
    requires forall a :: M(a, j) == Decayed(g, Inputs(k, w, a), i)(j)
    ensures GramTrace(dk, k, g, w, i, u)(j) == Sum(0, dk, a => u(a) * M(a, j))
  {
    var p := Product(j + 1, i, g);
    forall a ensures M(a, j) == p * (k(j, a) * w(j)) {
      assert Decayed(g, Inputs(k, w, a), i)(j) == p * Inputs(k, w, a)(j);
    }
    GramSum(dk, u, k, j, p, w(j), M);
  }

  lemma GramSum(dk: nat, u: Vec, k: Mat, j: int, p: real, w: real, M: Mat)
    requires forall a :: M(a, j) == p * (k(j, a) * w)
    ensures Sum(0, dk, a => u(a) * M(a, j)) == p * (w * Overlap(dk, u, k, j))
  {
    var f: Vec, m := a => u(a) * k(j, a), p * w;
    forall a ensures ScaledBy(u(a) * M(a, j), m, f(a)) { Regroup(u(a), p, k(j, a), w, m, M(a, j)); }
    SumScale(0, dk, m, f, a => u(a) * M(a, j));
    SumCong(0, dk, f, a => u(a) * k(j, a));
    Reassociate(Sum(0, dk, a => u(a) * M(a, j)), p, w, m, Sum(0, dk, f));
  }

  lemma Regroup(u: real, p: real, k: real, w: real, m: real, M: real)
    requires m == p * w && M == p * (k * w)
    ensures ScaledBy(u * M, m, u * k)
  {
    assert p * (k * w) == m * k;
    assert u * (m * k) == m * (u * k);
  }

  lemma Reassociate(x: real, p: real, w: real, m: real, o: real)
    requires m == p * w && ScaledBy(x, m, o)
    ensures x == p * (w * o)
  {
  }
}
