/**
 Scores that may be minus infinity, and the logsumexp of a row of them. A row's logsumexp is
 minus infinity exactly when every score is.
 */
module LogSumExps {
  import opened RealSums
  import opened ExpLog

  datatype Ext = NegInf | Fin(x: real)

  type ExtVec = int -> Ext
  type ExtMat = (int, int) -> Ext

  function AddExt(a: Ext, b: Ext): Ext {
    if a.Fin? && b.Fin? then Fin(a.x + b.x) else NegInf
  }

  /** exp, with exp(-inf) = 0 */
  function ExpOf(exp: real -> real, s: Ext): real {
    if s.Fin? then exp(s.x) else 0.0
  }

  /** log on [0, oo), with log 0 = -inf */
  function LogOf(log: real -> real, z: real): Ext {
    if z > 0.0 then Fin(log(z)) else NegInf
  }

  function Weights(exp: real -> real, row: ExtVec): Vec {
    j => ExpOf(exp, row(j))
  }

  function LogSumExp(exp: real -> real, log: real -> real, lo: int, hi: int, row: ExtVec): Ext {
    LogOf(log, Sum(lo, hi, Weights(exp, row)))
  }

  function LogAddExp(exp: real -> real, log: real -> real, a: Ext, b: Ext): Ext {
    LogOf(log, ExpOf(exp, a) + ExpOf(exp, b))
  }

  /**
   exp(s - l). With l = -inf, a row without any visible key, the code computes NaN; no row of
   the attention below is like that (VisibleSum), and 0 stands in for it here.
   */
  function ExpDiff(exp: real -> real, s: Ext, l: Ext): real {
    if s.Fin? && l.Fin? then exp(s.x - l.x) else 0.0
  }

  /** exp undoes the log of a sum of weights. */
  lemma ExpOfLogOf(exp: real -> real, log: real -> real, z: real)
    requires IsExpLog(exp, log) && z >= 0.0
    ensures ExpOf(exp, LogOf(log, z)) == z
  {
    if z > 0.0 { ExpOfLog(exp, log, z); }
  }

  lemma WeightsNonNegative(exp: real -> real, log: real -> real, lo: int, hi: int, row: ExtVec)
    requires IsExpLog(exp, log)
    ensures Sum(lo, hi, Weights(exp, row)) >= 0.0
  {
    forall j ensures Weights(exp, row)(j) >= 0.0 {
      if row(j).Fin? { ExpPositive(exp, log, row(j).x); }
    }
    SumNonNegative(lo, hi, Weights(exp, row));
  }

  /** The saved logsumexp turns a score back into its share of the row. */
  lemma ExpDiffIsShare(exp: real -> real, log: real -> real, s: Ext, z: real)
    requires IsExpLog(exp, log) && z > 0.0
    ensures ExpDiff(exp, s, LogOf(log, z)) == ExpOf(exp, s) / z
  {
    if s.Fin? {
      ExpSub(exp, log, s.x, log(z));
      ExpOfLog(exp, log, z);
    }
  }
}
