/**
 * Summary statistics of a backtest (backtest_api/components/metrics.py):
 * the zero guard of the Sharpe ratio, maximum drawdown, win rate and total
 * return. Series are sequences of reals; the square roots the Sharpe ratio
 * needs are supplied by the caller.
 */
module Metrics {
  import opened Common
  import opened Arith

  /** `series - c`, elementwise. */
  function Shifted(s: seq<real>, c: real): (r: seq<real>)
    ensures |r| == |s|
  {
    seq(|s|, j requires 0 <= j < |s| => s[j] - c)
  }

  lemma {:induction false} SumShifted(s: seq<real>, c: real)
    ensures Sum(Shifted(s, c)) == Sum(s) - |s| as real * c
  {
    if |s| > 0 {
      var n := |s| - 1;
      assert Shifted(s, c)[..n] == Shifted(s[..n], c);
      SumShifted(s[..n], c);
    }
  }

  /** Subtracting the daily risk-free rate lowers the mean return by that rate. */
  lemma MeanShifted(s: seq<real>, c: real)
    requires |s| > 0
    ensures Mean(Shifted(s, c)) == Mean(s) - c
  {
    SumShifted(s, c);
    var n := |s| as real;
    assert (Sum(s) - n * c) / n == Sum(s) / n - c;
  }

  /**
   * The annualised Sharpe ratio, given the sample standard deviation of the
   * series (`None` when pandas gives NaN) and the annualiser sqrt(365).
   * Empty series and a zero deviation give 0.
   */
  function SharpeRatio(series: seq<real>, std: Option<real>, annualiser: real, riskFree: real): (r: Option<real>)
    ensures |series| == 0 || std == Some(0.0) ==> r == Some(0.0)
    ensures |series| > 0 && std.None? ==> r.None?
  {
    if |series| == 0 || std == Some(0.0) then Some(0.0)
    else if std.None? then None
    else Some(annualiser * Mean(Shifted(series, riskFree / 365.0)) / std.value)
  }

  /**
   * With a positive deviation the ratio is positive exactly when the mean
   * return beats the daily risk-free rate, and zero exactly when it equals it.
   */
  lemma SharpeSign(series: seq<real>, std: real, annualiser: real, riskFree: real)
    requires |series| > 0 && std > 0.0 && annualiser > 0.0
    ensures var r := SharpeRatio(series, Some(std), annualiser, riskFree);
      r.Some?
      && (r.value > 0.0 <==> Mean(series) > riskFree / 365.0)
      && (r.value == 0.0 <==> Mean(series) == riskFree / 365.0)
  {
    MeanShifted(series, riskFree / 365.0);
    var x := annualiser * Mean(Shifted(series, riskFree / 365.0));
    assert x / std * std == x;
  }

  // ---------------------------------------------------------------------
  // Maximum drawdown

  /** `equity_curve.expanding().max()` at index i: the highest value so far. */
  function Peak(curve: seq<real>, i: nat): real
    requires i < |curve|
  {
    if i == 0 then curve[0]
    else if curve[i] > Peak(curve, i - 1) then curve[i] else Peak(curve, i - 1)
  }

  lemma {:induction false} PeakIsRunningMax(curve: seq<real>, i: nat)
    requires i < |curve|
    ensures forall j :: 0 <= j <= i ==> curve[j] <= Peak(curve, i)
    ensures exists j :: 0 <= j <= i && Peak(curve, i) == curve[j]
  {
    if i > 0 {
      PeakIsRunningMax(curve, i - 1);
      if curve[i] <= Peak(curve, i - 1) {
        var j :| 0 <= j <= i - 1 && Peak(curve, i - 1) == curve[j];
        assert Peak(curve, i) == curve[j];
      } else {
        assert Peak(curve, i) == curve[i];
      }
    } else {
      assert Peak(curve, 0) == curve[0];
    }
  }

  /** numpy divides by every peak; a zero peak would give inf or NaN. */
  predicate PeaksNonZero(curve: seq<real>) {
    forall i :: 0 <= i < |curve| ==> Peak(curve, i) != 0.0
  }

  function Drawdowns(curve: seq<real>): (d: seq<real>)
    requires PeaksNonZero(curve)
    ensures |d| == |curve|
  {
    seq(|curve|, i requires 0 <= i < |curve| && PeaksNonZero(curve) => (curve[i] - Peak(curve, i)) / Peak(curve, i))
  }

  /** The magnitude of the deepest drawdown; 0 for an empty curve. */
  function MaxDrawdown(curve: seq<real>): (r: real)
    requires PeaksNonZero(curve)
    ensures |curve| == 0 ==> r == 0.0
    ensures r >= 0.0
  {
    if |curve| == 0 then 0.0 else Abs(MinOf(Drawdowns(curve)))
  }

  predicate Positive(curve: seq<real>) {
    forall i :: 0 <= i < |curve| ==> curve[i] > 0.0
  }

  lemma PositivePeaks(curve: seq<real>)
    requires Positive(curve)
    ensures PeaksNonZero(curve)
    ensures forall i :: 0 <= i < |curve| ==> Peak(curve, i) > 0.0
  {
    forall i | 0 <= i < |curve|
      ensures Peak(curve, i) > 0.0
    {
      PeakIsRunningMax(curve, i);
    }
  }

  /** On a positive curve every drawdown lies in (-1, 0]. */
  lemma DrawdownRange(curve: seq<real>, i: nat)
    requires Positive(curve) && i < |curve|
    ensures PeaksNonZero(curve)
    ensures -1.0 < Drawdowns(curve)[i] <= 0.0
  {
    PositivePeaks(curve);
    PeakIsRunningMax(curve, i);
    DivBetween(curve[i] - Peak(curve, i), Peak(curve, i));
  }

  /** A positive equity curve never loses more than everything: the drawdown is at most 1. */
  lemma MaxDrawdownAtMostOne(curve: seq<real>)
    requires Positive(curve)
    ensures PeaksNonZero(curve) && MaxDrawdown(curve) < 1.0
  {
    PositivePeaks(curve);
    if |curve| > 0 {
      var d := Drawdowns(curve);
      var m := MinOf(d);
      var j :| 0 <= j < |d| && m == d[j];
      DrawdownRange(curve, j);
    }
  }

  predicate NonDecreasing(curve: seq<real>) {
    forall i, j :: 0 <= i <= j < |curve| ==> curve[i] <= curve[j]
  }

  /** A curve that never falls has no drawdown. */
  lemma NonDecreasingNoDrawdown(curve: seq<real>)
    requires Positive(curve) && NonDecreasing(curve)
    ensures PeaksNonZero(curve) && MaxDrawdown(curve) == 0.0
  {
    PositivePeaks(curve);
    if |curve| > 0 {
      var d := Drawdowns(curve);
      forall i | 0 <= i < |curve|
        ensures d[i] == 0.0
      {
        PeakIsRunningMax(curve, i);
      }
      var j :| 0 <= j < |d| && MinOf(d) == d[j];
    }
  }

  /** The fall from `hi` to `lo` as a fraction of `hi`. */
  function Drop(hi: real, lo: real): real
    requires hi != 0.0
  {
    (hi - lo) / hi
  }

  lemma DivBetween(n: real, p: real)
    requires p > 0.0 && -p < n <= 0.0
    ensures -1.0 < n / p <= 0.0
  {
    var q := n / p;
    assert q * p == n;
    if q > 0.0 { assert false; }
    if q <= -1.0 { assert false; }
  }

  lemma DivAntitone(x: real, a: real, p: real)
    requires 0.0 < a <= p && x > 0.0
    ensures x / p <= x / a
  {
    var s, t := x / a, x / p;
    assert s * a == x;
    assert t * p == x;
    if t > s { assert false; }
  }

  /** A later value falls relatively further below a higher earlier value. */
  lemma DropGrowsWithPeak(a: real, p: real, x: real)
    requires 0.0 < a <= p && x > 0.0
    ensures Drop(a, x) <= Drop(p, x)
  {
    OneMinus(a, x);
    OneMinus(p, x);
    DivAntitone(x, a, p);
  }

  lemma OneMinus(hi: real, lo: real)
    requires hi != 0.0
    ensures Drop(hi, lo) == 1.0 - lo / hi
  {
    var u, v := lo / hi, (hi - lo) / hi;
    assert u * hi == lo;
    assert v * hi == hi - lo;
    assert (1.0 - u) * hi == hi - u * hi;
    Cancel(v, 1.0 - u, hi);
  }

  /** A drawdown is the negated drop from the peak. */
  lemma NegatedDrawdown(x: real, p: real)
    requires p != 0.0
    ensures -((x - p) / p) == Drop(p, x)
  {
    var u, v := (x - p) / p, (p - x) / p;
    assert u * p == x - p;
    assert v * p == p - x;
    assert (-u) * p == p - x;
    Cancel(-u, v, p);
  }

  /** The drop from any value to a later one is at most the later value's drawdown. */
  lemma DropWithinDrawdown(curve: seq<real>, j: nat, i: nat)
    requires Positive(curve) && j <= i < |curve|
    ensures PeaksNonZero(curve)
    ensures Drop(curve[j], curve[i]) <= -Drawdowns(curve)[i]
  {
    PositivePeaks(curve);
    PeakIsRunningMax(curve, i);
    var p := Peak(curve, i);
    DropGrowsWithPeak(curve[j], p, curve[i]);
    assert Drawdowns(curve)[i] == (curve[i] - p) / p;
    NegatedDrawdown(curve[i], p);
  }

  /**
   * On a positive curve the maximum drawdown is the largest relative drop:
   * it bounds the fall from any value to any later one, and it is attained
   * as the fall of some value below the peak before it.
   */
  lemma MaxDrawdownIsLargestDrop(curve: seq<real>)
    requires Positive(curve) && |curve| > 0
    ensures PeaksNonZero(curve)
    ensures forall j, i :: 0 <= j <= i < |curve| ==> Drop(curve[j], curve[i]) <= MaxDrawdown(curve)
    ensures exists i :: 0 <= i < |curve| && MaxDrawdown(curve) == Drop(Peak(curve, i), curve[i])
  {
    PositivePeaks(curve);
    var d := Drawdowns(curve);
    var m := MinOf(d);
    DrawdownRange(curve, 0);
    assert MaxDrawdown(curve) == -m;
    forall j, i | 0 <= j <= i < |curve|
      ensures Drop(curve[j], curve[i]) <= MaxDrawdown(curve)
    {
      DropWithinDrawdown(curve, j, i);
    }
    var k :| 0 <= k < |d| && m == d[k];
    var p := Peak(curve, k);
    NegatedDrawdown(curve[k], p);
  }

  // ---------------------------------------------------------------------
  // Win rate and total return

  function CountPositive(s: seq<real>): nat {
    if |s| == 0 then 0 else CountPositive(s[..|s| - 1]) + (if s[|s| - 1] > 0.0 then 1 else 0)
  }

  function CountNonZero(s: seq<real>): nat {
    if |s| == 0 then 0 else CountNonZero(s[..|s| - 1]) + (if s[|s| - 1] != 0.0 then 1 else 0)
  }

  lemma {:induction false} WinsAmongNonZero(s: seq<real>)
    ensures CountPositive(s) <= CountNonZero(s)
  {
    if |s| > 0 {
      WinsAmongNonZero(s[..|s| - 1]);
    }
  }

  /**
   * The percentage of positive series among the non-zero ones; 0 when every
   * return is zero (and so for an empty series).
   */
  function WinRate(series: seq<real>): (r: real)
    ensures CountNonZero(series) == 0 ==> r == 0.0
    ensures 0.0 <= r <= 100.0
    ensures CountNonZero(series) > 0 ==> r * CountNonZero(series) as real == 100.0 * CountPositive(series) as real
  {
    if |series| == 0 then 0.0
    else
      var winning := CountPositive(series);
      var total := CountNonZero(series);
      WinsAmongNonZero(series);
      if total > 0 then Ratio100(winning, total); winning as real / total as real * 100.0 else 0.0
  }

  lemma Ratio100(w: nat, n: nat)
    requires 0 < n && w <= n
    ensures 0.0 <= w as real / n as real * 100.0 <= 100.0
    ensures w as real / n as real * 100.0 * n as real == 100.0 * w as real
  {
    assert w as real / n as real <= 1.0;
  }

  datatype TotalReturn = TotalReturn(amount: real, pct: real)

  /**
   * The absolute and percentage return; the percentage is 0 for a
   * non-positive initial capital, and otherwise grows the initial capital
   * into the final one.
   */
  function CalculateTotalReturn(initial: real, final: real): (r: TotalReturn)
    ensures initial + r.amount == final
    ensures initial <= 0.0 ==> r.pct == 0.0
    ensures initial > 0.0 ==> final == initial * (1.0 + r.pct / 100.0)
  {
    var amount := final - initial;
    TotalReturn(amount, if initial > 0.0 then amount / initial * 100.0 else 0.0)
  }
}
