/**
 Dual numbers: a value with its derivative along one direction. Running a forward pass on
 dual inputs yields its exact directional derivative, which is the independent reference a
 hand-written backward pass is compared with.
 */
module DualNumbers {
  import opened RealSums
  import opened ExpLog
  import opened TriangularSolve
  import opened InnerProduct

  datatype Dual = Dual(v: real, d: real)

  type DualMat = (int, int) -> Dual

  function Plus(x: Dual, y: Dual): Dual { Dual(x.v + y.v, x.d + y.d) }

  function Minus(x: Dual, y: Dual): Dual { Dual(x.v - y.v, x.d - y.d) }

  /** The product rule. */
  function Prod(x: Dual, y: Dual): Dual { Dual(x.v * y.v, x.d * y.v + x.v * y.d) }

  /** exp' = exp */
  function Exp(exp: real -> real, x: Dual): Dual { Dual(exp(x.v), exp(x.v) * x.d) }

  /** log' z = 1 / z */
  function Log(log: real -> real, x: Dual): Dual
    requires x.v != 0.0
  {
    Dual(log(x.v), x.d / x.v)
  }

  /** The log of a sum of exponentials; the sum is 0 only when it has no terms. */
  function LogSum(log: real -> real, z: Dual): Dual {
    if z.v == 0.0 then Constant(0.0) else Log(log, z)
  }

  function Constant(c: real): Dual { Dual(c, 0.0) }

  /** The product rule is what the product of two lines says to first order. */
  lemma ProdFirstOrder(x: Dual, y: Dual, t: real)
    ensures (x.v + t * x.d) * (y.v + t * y.d) == Prod(x, y).v + t * Prod(x, y).d + t * t * (x.d * y.d)
  {
  }

  /** On dual numbers, too, exp turns sums into products ... */
  lemma ExpOfSum(exp: real -> real, log: real -> real, x: Dual, y: Dual)
    requires IsExpLog(exp, log)
    ensures Exp(exp, Plus(x, y)) == Prod(Exp(exp, x), Exp(exp, y))
  {
    assert AddAt(exp, x.v, y.v);
    Distribute(exp(x.v), exp(y.v), x.d, y.d);
  }

  lemma Distribute(a: real, b: real, p: real, q: real)
    ensures (a * b) * (p + q) == (a * p) * b + a * (b * q)
  {
  }

  /** ... and log inverts exp. */
  lemma ExpOfLogDual(exp: real -> real, log: real -> real, x: Dual)
    requires IsExpLog(exp, log) && x.v > 0.0
    ensures Exp(exp, Log(log, x)) == x
  {
    assert InverseAt(exp, log, x.v);
    assert x.v * (x.d / x.v) == x.d;
  }

  /** The point A moved in direction dA. */
  function Along(A: Mat, dA: Mat): DualMat {
    (i, j) => Dual(A(i, j), dA(i, j))
  }

  function DualSum(lo: int, hi: int, f: int -> Dual): Dual
    decreases hi - lo
  {
    if hi <= lo then Constant(0.0) else Plus(DualSum(lo, hi - 1, f), f(hi - 1))
  }

  ghost predicate HasParts(x: Dual, v: real, d: real) {
    x == Dual(v, d)
  }

  lemma {:induction false} DualSumParts(lo: int, hi: int, f: int -> Dual, v: Vec, d: Vec)
    requires forall i :: lo <= i < hi ==> HasParts(f(i), v(i), d(i))
    ensures HasParts(DualSum(lo, hi, f), Sum(lo, hi, v), Sum(lo, hi, d))
    decreases hi - lo
  {
    if lo < hi {
      DualSumParts(lo, hi - 1, f, v, d);
      assert HasParts(f(hi - 1), v(hi - 1), d(hi - 1));
    }
  }

  function DualMul(n: int, A: DualMat, B: DualMat): DualMat {
    (i, j) => DualSum(0, n, k => Prod(A(i, k), B(k, j)))
  }

  // ----- values and tangents of composed expressions -----

  lemma DualMulParts(n: int, A: Mat, dA: Mat, B: Mat, dB: Mat, X: DualMat, Y: DualMat, i: int, j: int)
    requires forall k :: 0 <= k < n ==> HasParts(X(i, k), A(i, k), dA(i, k))
    requires forall k :: 0 <= k < n ==> HasParts(Y(k, j), B(k, j), dB(k, j))
    ensures HasParts(DualMul(n, X, Y)(i, j), Mul(n, A, B)(i, j), Mul(n, dA, B)(i, j) + Mul(n, A, dB)(i, j))
  {
    var v: Vec, d: Vec := k => A(i, k) * B(k, j), k => dA(i, k) * B(k, j) + A(i, k) * dB(k, j);
    forall k | 0 <= k < n ensures HasParts(Prod(X(i, k), Y(k, j)), v(k), d(k)) {
      assert HasParts(X(i, k), A(i, k), dA(i, k)) && HasParts(Y(k, j), B(k, j), dB(k, j));
    }
    DualSumParts(0, n, k => Prod(X(i, k), Y(k, j)), v, d);
    SumAdd(0, n, k => dA(i, k) * B(k, j), k => A(i, k) * dB(k, j), d);
  }

  lemma MinusParts(x: Dual, xv: real, xd: real, y: Dual, yv: real, yd: real)
    requires HasParts(x, xv, xd) && HasParts(y, yv, yd)
    ensures HasParts(Minus(x, y), xv - yv, xd - yd)
  {
  }

  lemma LogSumParts(log: real -> real, x: Dual, z: real, t: real, r: real)
    requires HasParts(x, z, t) && z > 0.0 && t / z == r
    ensures HasParts(LogSum(log, x), log(z), r)
  {
  }

  // ----- shares of a normalizing sum -----

  ghost predicate ShareAt(p: real, w: real, z: real) {
    w == z * p
  }

  lemma {:induction false} WeightedSum(n: int, W: Vec, dS: Mat, P: Mat, i: int, z: real, t: Vec)
    requires forall j :: 0 <= j < n ==> ShareAt(P(i, j), W(j), z)
    requires forall j :: 0 <= j < n ==> t(j) == W(j) * dS(i, j)
    ensures Sum(0, n, t) == z * RowDot(n, P, dS, i)
    decreases n
  {
    if n > 0 {
      var j := n - 1;
      WeightedSum(j, W, dS, P, i, z, t);
      assert t(j) == W(j) * dS(i, j) && ShareAt(P(i, j), W(j), z);
      ShareTerm(P(i, j), W(j), z, dS(i, j), RowDot(j, P, dS, i));
    }
  }

  lemma ShareTerm(p: real, w: real, z: real, d: real, r: real)
    requires ShareAt(p, w, z)
    ensures z * r + w * d == z * (r + p * d)
  {
  }

  lemma WeightedTangent(N: int, W: Vec, dS: Mat, P: Mat, i: int, z: real, t: Vec)
    requires z != 0.0
    requires forall j :: 0 <= j < N ==> ShareAt(P(i, j), W(j), z)
    requires forall j :: 0 <= j < N ==> t(j) == W(j) * dS(i, j)
    ensures Sum(0, N, t) / z == RowDot(N, P, dS, i)
  {
    WeightedSum(N, W, dS, P, i, z, t);
    Cancel(z, RowDot(N, P, dS, i), Sum(0, N, t));
  }

  lemma Cancel(z: real, r: real, s: real)
    requires z != 0.0 && s == z * r
    ensures s / z == r
  {
  }

  lemma Undivide(w: real, z: real, p: real)
    requires z > 0.0 && p == w / z
    ensures ShareAt(p, w, z)
  {
  }
}
