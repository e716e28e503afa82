/**
 * The indicator recurrences of backtest_api/components/indicators.py over a
 * close series: simple and exponential moving averages, DEMA, RSI, CCI, the
 * rolling median and the rolling percentile. A value pandas leaves NaN
 * (the warm-up of a rolling window, a division by zero) is `None`. Every
 * rolling window has `period >= 1` bars and ends at the bar it belongs to.
 */
module Indicators {
  import opened Common
  import opened Arith

  /** The `rolling(window=period)` window of bar i: bars i - period + 1 .. i. */
  function Window(s: seq<real>, period: nat, i: nat): (w: seq<real>)
    requires 1 <= period <= i + 1 <= |s|
    ensures |w| == period
  {
    s[i + 1 - period..i + 1]
  }

  predicate Within(s: seq<real>, lo: real, hi: real) {
    forall j :: 0 <= j < |s| ==> lo <= s[j] <= hi
  }

  lemma {:induction false} SumWithin(s: seq<real>, lo: real, hi: real)
    requires Within(s, lo, hi)
    ensures |s| as real * lo <= Sum(s) <= |s| as real * hi
  {
    if |s| > 0 {
      var n := |s| - 1;
      assert Within(s[..n], lo, hi);
      SumWithin(s[..n], lo, hi);
      assert (n + 1) as real * lo == n as real * lo + lo;
      assert (n + 1) as real * hi == n as real * hi + hi;
    }
  }

  /** A mean lies between any bounds of the values it averages. */
  lemma MeanWithin(s: seq<real>, lo: real, hi: real)
    requires |s| > 0 && Within(s, lo, hi)
    ensures lo <= Mean(s) <= hi
  {
    SumWithin(s, lo, hi);
    var n := |s| as real;
    var m := Mean(s);
    assert m * n == Sum(s);
    if m < lo { assert false; }
    if m > hi { assert false; }
  }

  // ---------------------------------------------------------------------
  // Moving averages

  /** `Close.rolling(window=period).mean()` at bar i. */
  function MaAt(closes: seq<real>, period: nat, i: nat): (r: Option<real>)
    requires period >= 1 && i < |closes|
    ensures r.None? <==> i + 1 < period
  {
    if i + 1 < period then None else Some(Mean(Window(closes, period, i)))
  }

  /** A simple moving average lies between the lowest and highest close of its window. */
  lemma MaWithinWindow(closes: seq<real>, period: nat, i: nat)
    requires period >= 1 && period <= i + 1 <= |closes|
    ensures var w := Window(closes, period, i);
      MinOf(w) <= MaAt(closes, period, i).value <= MaxOf(w)
  {
    var w := Window(closes, period, i);
    MeanWithin(w, MinOf(w), MaxOf(w));
  }

  /** The smoothing factor of `ewm(span=period)`. */
  function Alpha(period: nat): real
    requires period >= 1
  {
    2.0 / (period as real + 1.0)
  }

  lemma AlphaRange(period: nat)
    requires period >= 1
    ensures 0.0 < Alpha(period) <= 1.0
  {
    var d := period as real + 1.0;
    var a := 2.0 / d;
    assert a * d == 2.0;
    if a <= 0.0 { assert false; }
    if a > 1.0 { assert false; }
  }

  /** `ewm(adjust=False).mean()`: the first value, then a weighted blend of each new value with the previous average. */
  function EmaAt(s: seq<real>, alpha: real, i: nat): real
    requires i < |s|
  {
    if i == 0 then s[0] else alpha * s[i] + (1.0 - alpha) * EmaAt(s, alpha, i - 1)
  }

  function Ema(s: seq<real>, period: nat): (e: seq<real>)
    requires period >= 1
    ensures |e| == |s|
  {
    seq(|s|, i requires 0 <= i < |s| => EmaAt(s, Alpha(period), i))
  }

  lemma Blend(a: real, x: real, y: real, lo: real, hi: real)
    requires 0.0 < a <= 1.0 && lo <= x <= hi && lo <= y <= hi
    ensures lo <= a * x + (1.0 - a) * y <= hi
  {
    MulNonNegative(a, x - lo);
    MulNonNegative(1.0 - a, y - lo);
    MulNonNegative(a, hi - x);
    MulNonNegative(1.0 - a, hi - y);
    assert a * x + (1.0 - a) * y - lo == a * (x - lo) + (1.0 - a) * (y - lo);
    assert hi - (a * x + (1.0 - a) * y) == a * (hi - x) + (1.0 - a) * (hi - y);
  }

  /** Every EMA value lies within any bounds of the values seen so far. */
  lemma {:induction false} EmaWithin(s: seq<real>, alpha: real, i: nat, lo: real, hi: real)
    requires 0.0 < alpha <= 1.0 && i < |s|
    requires forall j :: 0 <= j <= i ==> lo <= s[j] <= hi
    ensures lo <= EmaAt(s, alpha, i) <= hi
  {
    if i > 0 {
      EmaWithin(s, alpha, i - 1, lo, hi);
      Blend(alpha, s[i], EmaAt(s, alpha, i - 1), lo, hi);
    }
  }

  /** The EMA of bar i lies between the lowest and highest close up to bar i. */
  lemma EmaWithinCloses(closes: seq<real>, period: nat, i: nat)
    requires period >= 1 && i < |closes|
    ensures var seen := closes[..i + 1];
      MinOf(seen) <= Ema(closes, period)[i] <= MaxOf(seen)
  {
    var seen := closes[..i + 1];
    assert forall j :: 0 <= j <= i ==> closes[j] == seen[j];
    AlphaRange(period);
    EmaWithin(closes, Alpha(period), i, MinOf(seen), MaxOf(seen));
  }

  /** DEMA: twice the EMA minus the EMA of the EMA, both with the same span. */
  function DemaAt(closes: seq<real>, period: nat, i: nat): real
    requires period >= 1 && i < |closes|
  {
    2.0 * Ema(closes, period)[i] - Ema(Ema(closes, period), period)[i]
  }

  predicate Constant(s: seq<real>, c: real) {
    forall j :: 0 <= j < |s| ==> s[j] == c
  }

  /** On a flat series the EMA, and so the DEMA, equal the price. */
  lemma DemaOfConstant(closes: seq<real>, period: nat, c: real, i: nat)
    requires period >= 1 && i < |closes| && Constant(closes, c)
    ensures Ema(closes, period)[i] == c
    ensures DemaAt(closes, period, i) == c
  {
    var e := Ema(closes, period);
    AlphaRange(period);
    forall j | 0 <= j < |closes|
      ensures e[j] == c
    {
      EmaWithin(closes, Alpha(period), j, c, c);
    }
    EmaWithin(e, Alpha(period), i, c, c);
  }

  // ---------------------------------------------------------------------
  // RSI

  /** `delta.where(delta > 0, 0)`: the rise into bar j; 0 on bar 0, whose delta is NaN. */
  function Gain(s: seq<real>, j: nat): (g: real)
    requires j < |s|
    ensures g >= 0.0
  {
    if j == 0 || s[j] <= s[j - 1] then 0.0 else s[j] - s[j - 1]
  }

  /** `-delta.where(delta < 0, 0)`: the fall into bar j. */
  function Loss(s: seq<real>, j: nat): (l: real)
    requires j < |s|
    ensures l >= 0.0
  {
    if j == 0 || s[j] >= s[j - 1] then 0.0 else s[j - 1] - s[j]
  }

  function Gains(s: seq<real>, period: nat, i: nat): (w: seq<real>)
    requires 1 <= period <= i + 1 <= |s|
    ensures |w| == period
  {
    seq(period, k requires 0 <= k < period && period <= i + 1 <= |s| => Gain(s, i + 1 - period + k))
  }

  function Losses(s: seq<real>, period: nat, i: nat): (w: seq<real>)
    requires 1 <= period <= i + 1 <= |s|
    ensures |w| == period
  {
    seq(period, k requires 0 <= k < period && period <= i + 1 <= |s| => Loss(s, i + 1 - period + k))
  }

  predicate NonNegative(s: seq<real>) {
    forall j :: 0 <= j < |s| ==> s[j] >= 0.0
  }

  lemma {:induction false} SumNonNegative(s: seq<real>)
    requires NonNegative(s)
    ensures Sum(s) >= 0.0
  {
    if |s| > 0 {
      assert NonNegative(s[..|s| - 1]);
      SumNonNegative(s[..|s| - 1]);
    }
  }

  lemma MeanNonNegative(s: seq<real>)
    requires |s| > 0 && NonNegative(s)
    ensures Mean(s) >= 0.0
  {
    SumNonNegative(s);
  }

  lemma MovesNonNegative(s: seq<real>, period: nat, i: nat)
    requires 1 <= period <= i + 1 <= |s|
    ensures NonNegative(Gains(s, period, i)) && NonNegative(Losses(s, period, i))
    ensures Mean(Gains(s, period, i)) >= 0.0 && Mean(Losses(s, period, i)) >= 0.0
  {
    var gs, ls := Gains(s, period, i), Losses(s, period, i);
    forall k | 0 <= k < period
      ensures gs[k] >= 0.0 && ls[k] >= 0.0
    {
      assert gs[k] == Gain(s, i + 1 - period + k);
      assert ls[k] == Loss(s, i + 1 - period + k);
    }
    MeanNonNegative(gs);
    MeanNonNegative(ls);
  }

  /**
   * `100 - 100 / (1 + gain / loss)` over the rolling mean gain and loss.
   * With no loss in the window the value is 100 when there was a gain and
   * NaN (0 / 0) when the price did not move.
   */
  function RsiAt(closes: seq<real>, period: nat, i: nat): (r: Option<real>)
    requires period >= 1 && i < |closes|
    ensures i + 1 < period ==> r.None?
  {
    if i + 1 < period then None
    else
      var gain, loss := Mean(Gains(closes, period, i)), Mean(Losses(closes, period, i));
      MovesNonNegative(closes, period, i);
      if loss == 0.0 then (if gain > 0.0 then Some(100.0) else None)
      else Some(100.0 - 100.0 / (1.0 + gain / loss))
  }

  lemma RsiForm(g: real, l: real)
    requires g >= 0.0 && l > 0.0
    ensures (100.0 - 100.0 / (1.0 + g / l)) * (g + l) == 100.0 * g
    ensures 0.0 <= 100.0 - 100.0 / (1.0 + g / l) < 100.0
  {
    var rs := g / l;
    assert rs * l == g;
    if rs < 0.0 { assert false; }
    var q := 100.0 / (1.0 + rs);
    assert q * (1.0 + rs) == 100.0;
    var p := 100.0 * g / (g + l);
    assert p * (g + l) == 100.0 * g;
    assert (100.0 - q) * (g + l) == 100.0 * g by {
      assert (1.0 + rs) * l == g + l;
      assert q * (g + l) == q * (1.0 + rs) * l;
    }
    Cancel(100.0 - q, p, g + l);
    if p < 0.0 { assert false; }
    if p >= 100.0 { assert false; }
  }

  /**
   * RSI is the share of the average gain in the average absolute move,
   * as a percentage: it lies in [0, 100], and it is 100 only when the
   * window has no loss.
   */
  lemma RsiIsGainShare(closes: seq<real>, period: nat, i: nat)
    requires period >= 1 && period <= i + 1 <= |closes|
    ensures var gain, loss := Mean(Gains(closes, period, i)), Mean(Losses(closes, period, i));
      var r := RsiAt(closes, period, i);
      (r.Some? ==> 0.0 <= r.value <= 100.0)
      && (loss > 0.0 ==> r.Some? && r.value * (gain + loss) == 100.0 * gain && r.value < 100.0)
      && (loss == 0.0 ==> (r.Some? <==> gain > 0.0))
  {
    MovesNonNegative(closes, period, i);
    var gain, loss := Mean(Gains(closes, period, i)), Mean(Losses(closes, period, i));
    if loss > 0.0 {
      RsiForm(gain, loss);
    }
  }

  // ---------------------------------------------------------------------
  // CCI

  /** The typical price (high + low + close) / 3. */
  function Typical(r: Row): real {
    (r.high + r.low + r.close) / 3.0
  }

  function TypicalWindow(rows: seq<Row>, period: nat, i: nat): (w: seq<real>)
    requires 1 <= period <= i + 1 <= |rows|
    ensures |w| == period
  {
    seq(period, k requires 0 <= k < period && period <= i + 1 <= |rows| => Typical(rows[i + 1 - period + k]))
  }

  function Deviations(w: seq<real>): (d: seq<real>)
    requires |w| > 0
    ensures |d| == |w|
  {
    seq(|w|, k requires 0 <= k < |w| => Abs(w[k] - Mean(w)))
  }

  /** `(x - x.mean()).abs().mean()`. */
  function MeanDeviation(w: seq<real>): real
    requires |w| > 0
  {
    Mean(Deviations(w))
  }

  /**
   * `(tp - sma(tp)) / (0.015 * mean deviation)`. A zero mean deviation
   * makes every typical price equal to the average, so the quotient is
   * 0 / 0, which pandas holds as NaN.
   */
  function CciAt(rows: seq<Row>, period: nat, i: nat): (r: Option<real>)
    requires period >= 1 && i < |rows|
    ensures i + 1 < period ==> r.None?
  {
    if i + 1 < period then None
    else
      var w := TypicalWindow(rows, period, i);
      var md := MeanDeviation(w);
      if md == 0.0 then None
      else Some((Typical(rows[i]) - Mean(w)) / (0.015 * md))
  }

  lemma {:induction false} SumZeroAllZero(s: seq<real>)
    requires forall j :: 0 <= j < |s| ==> s[j] >= 0.0
    requires Sum(s) == 0.0
    ensures forall j :: 0 <= j < |s| ==> s[j] == 0.0
  {
    if |s| > 0 {
      var n := |s| - 1;
      SumNonNegative(s[..n]);
      assert Sum(s[..n]) == 0.0;
      SumZeroAllZero(s[..n]);
      assert forall j :: 0 <= j < n ==> s[j] == s[..n][j];
    }
  }

  /** A zero mean deviation means every value equals the mean. */
  lemma ZeroDeviationFlat(w: seq<real>)
    requires |w| > 0 && MeanDeviation(w) == 0.0
    ensures forall k :: 0 <= k < |w| ==> w[k] == Mean(w)
  {
    var d := Deviations(w);
    assert NonNegative(d);
    var n := |d| as real;
    assert Sum(d) / n == 0.0;
    assert Sum(d) == Sum(d) / n * n;
    SumZeroAllZero(d);
    forall k | 0 <= k < |w|
      ensures w[k] == Mean(w)
    {
      assert d[k] == Abs(w[k] - Mean(w));
    }
  }

  /** CCI is NaN after warm-up only when every typical price of the window equals its average. */
  lemma CciUndefinedOnlyWhenFlat(rows: seq<Row>, period: nat, i: nat)
    requires period >= 1 && period <= i + 1 <= |rows|
    requires CciAt(rows, period, i).None?
    ensures var w := TypicalWindow(rows, period, i);
      forall k :: 0 <= k < period ==> w[k] == Mean(w)
  {
    ZeroDeviationFlat(TypicalWindow(rows, period, i));
  }

  /**
   * The CCI is positive exactly when the typical price is above its moving
   * average and negative exactly when below.
   */
  lemma CciSign(rows: seq<Row>, period: nat, i: nat)
    requires period >= 1 && period <= i + 1 <= |rows|
    requires CciAt(rows, period, i).Some?
    ensures var w := TypicalWindow(rows, period, i);
      var r := CciAt(rows, period, i).value;
      (r > 0.0 <==> Typical(rows[i]) > Mean(w)) && (r < 0.0 <==> Typical(rows[i]) < Mean(w))
  {
    var w := TypicalWindow(rows, period, i);
    var d := Deviations(w);
    assert NonNegative(d);
    MeanNonNegative(d);
    var x := Typical(rows[i]) - Mean(w);
    QuotientSign(x, 0.015 * MeanDeviation(w));
  }

  // ---------------------------------------------------------------------
  // Rolling median and percentile

  predicate Sorted(s: seq<real>) {
    forall j, k :: 0 <= j < k < |s| ==> s[j] <= s[k]
  }

  function Insert(x: real, s: seq<real>): seq<real> {
    if |s| == 0 then [x]
    else if x <= s[0] then [x] + s
    else [s[0]] + Insert(x, s[1..])
  }

  predicate AtLeast(s: seq<real>, lo: real) {
    forall j :: 0 <= j < |s| ==> lo <= s[j]
  }

  lemma {:induction false} InsertAtLeast(x: real, s: seq<real>, lo: real)
    requires lo <= x && AtLeast(s, lo)
    ensures AtLeast(Insert(x, s), lo)
  {
    if |s| > 0 && x > s[0] {
      assert AtLeast(s[1..], lo);
      InsertAtLeast(x, s[1..], lo);
    }
  }

  lemma {:induction false} InsertSorted(x: real, s: seq<real>)
    requires Sorted(s)
    ensures Sorted(Insert(x, s))
  {
    if |s| > 0 {
      if x > s[0] {
        InsertSorted(x, s[1..]);
        assert AtLeast(s[1..], s[0]);
        InsertAtLeast(x, s[1..], s[0]);
      } else {
        assert AtLeast(s, x);
      }
    }
  }

  lemma {:induction false} InsertMultiset(x: real, s: seq<real>)
    ensures multiset(Insert(x, s)) == multiset(s) + multiset{x}
  {
    if |s| > 0 && x > s[0] {
      InsertMultiset(x, s[1..]);
      assert s == [s[0]] + s[1..];
    }
  }

  lemma InsertFacts(x: real, s: seq<real>)
    requires Sorted(s)
    ensures Sorted(Insert(x, s)) && multiset(Insert(x, s)) == multiset(s) + multiset{x}
  {
    InsertSorted(x, s);
    InsertMultiset(x, s);
  }

  /**
   * The window in ascending order, by insertion. Any sort of a sequence of
   * reals yields this same sequence, so the median does not depend on how
   * the window is sorted.
   */
  function SortSeq(s: seq<real>): seq<real> {
    if |s| == 0 then []
    else Insert(s[|s| - 1], SortSeq(s[..|s| - 1]))
  }

  lemma {:induction false} SortFacts(s: seq<real>)
    ensures Sorted(SortSeq(s)) && multiset(SortSeq(s)) == multiset(s)
  {
    if |s| > 0 {
      SortFacts(s[..|s| - 1]);
      InsertFacts(s[|s| - 1], SortSeq(s[..|s| - 1]));
      assert s == s[..|s| - 1] + [s[|s| - 1]];
    }
  }

  /** The middle value of the sorted values, or the mean of the two middle values. */
  function Median(s: seq<real>): real
    requires |s| > 0
  {
    var t := SortSeq(s);
    var n := |t|;
    if n % 2 == 1 then t[n / 2] else (t[n / 2 - 1] + t[n / 2]) / 2.0
  }

  lemma SortedWithin(s: seq<real>, lo: real, hi: real)
    requires Within(s, lo, hi)
    ensures Within(SortSeq(s), lo, hi)
  {
    var t := SortSeq(s);
    SortFacts(s);
    forall k | 0 <= k < |t|
      ensures lo <= t[k] <= hi
    {
      assert t[k] in multiset(t);
      assert t[k] in multiset(s);
      var j :| 0 <= j < |s| && s[j] == t[k];
    }
  }

  /** `Close.rolling(window=period).median()` at bar i. */
  function MedianAt(closes: seq<real>, period: nat, i: nat): (r: Option<real>)
    requires period >= 1 && i < |closes|
    ensures r.None? <==> i + 1 < period
  {
    if i + 1 < period then None else Some(Median(Window(closes, period, i)))
  }

  /** The rolling median lies between the lowest and highest close of its window. */
  lemma MedianWithinWindow(closes: seq<real>, period: nat, i: nat)
    requires period >= 1 && period <= i + 1 <= |closes|
    ensures var w := Window(closes, period, i);
      MinOf(w) <= MedianAt(closes, period, i).value <= MaxOf(w)
  {
    var w := Window(closes, period, i);
    SortedWithin(w, MinOf(w), MaxOf(w));
    var t := SortSeq(w);
    var n := |t|;
    if n % 2 == 0 {
      assert MinOf(w) <= t[n / 2 - 1] <= MaxOf(w);
      assert MinOf(w) <= t[n / 2] <= MaxOf(w);
    }
  }

  /**
   * Where the latest close sits in the range of its window, in percent; 50
   * when the window is flat. The `percentile` argument only names the
   * column: the value does not depend on it.
   */
  function PercentileAt(closes: seq<real>, period: nat, percentile: real, i: nat): (r: Option<real>)
    requires period >= 1 && i < |closes|
    ensures r.None? <==> i + 1 < period
  {
    if i + 1 < period then None
    else
      var w := Window(closes, period, i);
      var lo, hi := MinOf(w), MaxOf(w);
      if hi != lo then Some((w[|w| - 1] - lo) / (hi - lo) * 100.0) else Some(50.0)
  }

  lemma FractionWithin(x: real, lo: real, hi: real)
    requires lo <= x <= hi && lo < hi
    ensures 0.0 <= (x - lo) / (hi - lo) * 100.0 <= 100.0
    ensures (x - lo) / (hi - lo) * 100.0 == 0.0 <==> x == lo
    ensures (x - lo) / (hi - lo) * 100.0 == 100.0 <==> x == hi
  {
    var d := hi - lo;
    var q := (x - lo) / d;
    assert q * d == x - lo;
    if q < 0.0 { assert false; }
    if q > 1.0 {
      MulPositive(q - 1.0, d);
      assert false;
    }
    if q == 1.0 && x != hi { assert false; }
    if x == hi {
      assert q == d / d;
      DivSelf(d);
    }
  }

  /**
   * The rolling percentile lies in [0, 100]: 0 when the latest close is the
   * window's low, 100 when it is the high, 50 when the window is flat, and
   * the same whatever `percentile` is passed.
   */
  lemma PercentileRange(closes: seq<real>, period: nat, percentile: real, other: real, i: nat)
    requires period >= 1 && period <= i + 1 <= |closes|
    ensures var r := PercentileAt(closes, period, percentile, i).value;
      var w := Window(closes, period, i);
      0.0 <= r <= 100.0
      && (MinOf(w) == MaxOf(w) ==> r == 50.0)
      && (MinOf(w) < MaxOf(w) ==> (r == 0.0 <==> closes[i] == MinOf(w)) && (r == 100.0 <==> closes[i] == MaxOf(w)))
      && PercentileAt(closes, period, other, i) == PercentileAt(closes, period, percentile, i)
  {
    var w := Window(closes, period, i);
    assert w[|w| - 1] == closes[i];
    if MinOf(w) < MaxOf(w) {
      FractionWithin(closes[i], MinOf(w), MaxOf(w));
    }
  }
}
