/**
 * Request handling in backtest_api/routes.py that decides what is run:
 * the normalisation of a backtest request, the EMA grid of the optimiser
 * and the in-sample / out-of-sample segments of an equity curve.
 */
module Routes {
  import opened Common

  // ---------------------------------------------------------------------
  // Backtest request normalisation

  /** The fields of a backtest request that the handler corrects before running. */
  datatype Request = Request(entryDelay: int, exitDelay: int, emaFast: int, emaSlow: int, mode: string)

  predicate ValidModeName(m: string) {
    m == "reversal" || m == "wait_for_next" || m == "long_only" || m == "short_only"
  }

  /** An EMA period the handler accepts as given; any other is replaced by the default. */
  function PeriodOr(p: int, default: int): (r: int)
    ensures 2 <= p <= 500 ==> r == p
    ensures !(2 <= p <= 500) ==> r == default
  {
    if p < 2 || p > 500 then default else p
  }

  /**
   * The request once corrected: delays clamped into 1 .. 5; each EMA period
   * outside 2 .. 500 replaced by 12 (fast) or 26 (slow); the two periods put
   * in ascending order, equal ones spread to (f, f + 14); and an unknown
   * strategy mode replaced by `reversal`.
   */
  function Normalised(r: Request): (n: Request)
    ensures 1 <= n.entryDelay <= 5 && 1 <= n.exitDelay <= 5
    ensures 1 <= r.entryDelay <= 5 ==> n.entryDelay == r.entryDelay
    ensures 1 <= r.exitDelay <= 5 ==> n.exitDelay == r.exitDelay
    ensures 2 <= n.emaFast < n.emaSlow && n.emaFast <= 500 && n.emaSlow <= 514
    ensures var f, s := PeriodOr(r.emaFast, 12), PeriodOr(r.emaSlow, 26);
      if f == s then n.emaFast == f && n.emaSlow == f + 14
      else multiset{n.emaFast, n.emaSlow} == multiset{f, s}
    ensures ValidModeName(n.mode) && ParseMode(n.mode) != UnknownMode
    ensures ValidModeName(r.mode) ==> n.mode == r.mode
  {
    var ed := if r.entryDelay < 1 then 1 else if r.entryDelay > 5 then 5 else r.entryDelay;
    var xd := if r.exitDelay < 1 then 1 else if r.exitDelay > 5 then 5 else r.exitDelay;
    var f, s := PeriodOr(r.emaFast, 12), PeriodOr(r.emaSlow, 26);
    var lo, hi := if f < s then f else s, if f < s then s else f;
    Request(ed, xd, lo, if lo == hi then lo + 14 else hi, if ValidModeName(r.mode) then r.mode else "reversal")
  }

  /**
   * The handler's corrections, applied one after the other to the request's
   * fields as the handler does.
   */
  method NormaliseRequest(r: Request) returns (n: Request)
    ensures n == Normalised(r)
  {
    var entryDelay, exitDelay := r.entryDelay, r.exitDelay;
    entryDelay := if 5 < entryDelay then 5 else entryDelay;
    entryDelay := if entryDelay < 1 then 1 else entryDelay;
    exitDelay := if 5 < exitDelay then 5 else exitDelay;
    exitDelay := if exitDelay < 1 then 1 else exitDelay;
    var emaFast, emaSlow := r.emaFast, r.emaSlow;
    if emaFast < 2 || emaFast > 500 {
      emaFast := 12;
    }
    if emaSlow < 2 || emaSlow > 500 {
      emaSlow := 26;
    }
    if emaFast >= emaSlow {
      emaFast, emaSlow := emaSlow, emaFast;
      if emaFast == emaSlow {
        emaSlow := emaFast + 14;
      }
    }
    var mode := r.mode;
    if !ValidModeName(mode) {
      mode := "reversal";
    }
    n := Request(entryDelay, exitDelay, emaFast, emaSlow, mode);
  }

  /**
   * Correcting a corrected request changes nothing, except when equal
   * periods above 486 were spread past 500: the slow period then lies out
   * of range and a second pass resets it.
   */
  lemma NormalisedStable(r: Request)
    ensures var f, s := PeriodOr(r.emaFast, 12), PeriodOr(r.emaSlow, 26);
      Normalised(Normalised(r)) == Normalised(r) <==> !(f == s && f > 486)
  {
    var n := Normalised(r);
    var f, s := PeriodOr(r.emaFast, 12), PeriodOr(r.emaSlow, 26);
    if f == s && f > 486 {
      assert n.emaSlow > 500;
      assert Normalised(n).emaSlow != n.emaSlow;
    } else {
      assert n.emaSlow <= 500;
    }
  }

  // ---------------------------------------------------------------------
  // The EMA optimisation grid

  /**
   * A pair the grid tests: a short period in 3 .. min(maxShort + 1, maxLong) - 1,
   * a long period in 10 .. maxLong, and short below long.
   */
  predicate InGrid(maxShort: int, maxLong: int, short: int, long: int) {
    3 <= short < maxShort + 1 && short < maxLong && 10 <= long <= maxLong && short < long
  }

  /** The order the nested loops visit pairs in: by short period, then by long period. */
  predicate Before(p: (int, int), q: (int, int)) {
    p.0 < q.0 || (p.0 == q.0 && p.1 < q.1)
  }

  /** A missing or zero bound reads as the default (`int(x or default)`). */
  function BoundOr(x: Option<int>, default: int): (r: int)
    ensures x.Some? && x.value != 0 ==> r == x.value
    ensures x.None? || x.value == 0 ==> r == default
  {
    if x.Some? && x.value != 0 then x.value else default
  }

  /**
   * The nested loops of the EMA optimiser: every pair the grid admits,
   * each exactly once, in the order the loops visit them; the number of
   * combinations tested is the number of pairs.
   */
  method EmaGrid(maxShort: int, maxLong: int) returns (pairs: seq<(int, int)>, tested: nat)
    ensures forall k :: 0 <= k < |pairs| ==> InGrid(maxShort, maxLong, pairs[k].0, pairs[k].1)
    ensures forall a, b :: InGrid(maxShort, maxLong, a, b) ==> (a, b) in pairs
    ensures forall k :: 0 < k < |pairs| ==> Before(pairs[k - 1], pairs[k])
    ensures tested == |pairs|
  {
    var shortEnd := if maxShort + 1 < maxLong then maxShort + 1 else maxLong;
    pairs, tested := [], 0;
    var short := 3;
    while short < shortEnd
      invariant shortEnd <= 3 || 3 <= short <= shortEnd
      invariant tested == |pairs|
      invariant forall k :: 0 <= k < |pairs| ==> InGrid(maxShort, maxLong, pairs[k].0, pairs[k].1) && pairs[k].0 < short
      invariant forall a, b :: InGrid(maxShort, maxLong, a, b) && a < short ==> (a, b) in pairs
      invariant forall k :: 0 < k < |pairs| ==> Before(pairs[k - 1], pairs[k])
    {
      var long := 10;
      while long < maxLong + 1
        invariant maxLong + 1 <= 10 || 10 <= long <= maxLong + 1
        invariant tested == |pairs|
        invariant forall k :: 0 <= k < |pairs| ==>
          InGrid(maxShort, maxLong, pairs[k].0, pairs[k].1) && Before(pairs[k], (short, long))
        invariant forall a, b :: InGrid(maxShort, maxLong, a, b) && Before((a, b), (short, long)) ==> (a, b) in pairs
        invariant forall k :: 0 < k < |pairs| ==> Before(pairs[k - 1], pairs[k])
      {
        if short < long {
          pairs := pairs + [(short, long)];
          tested := tested + 1;
        }
        long := long + 1;
      }
      short := short + 1;
    }
  }

  // ---------------------------------------------------------------------
  // Equity-curve segments

  /** A run of consecutive equity points, `start` to `end` inclusive, of one sample type. */
  datatype Segment<T> = Segment(kind: T, start: int, end: int)

  /** The segments tile 0 .. n-1 in order, each non-empty. */
  predicate Tiles<T>(segs: seq<Segment<T>>, n: int) {
    (|segs| == 0 <==> n == 0)
    && (|segs| > 0 ==> segs[0].start == 0 && segs[|segs| - 1].end == n - 1)
    && (forall k :: 0 <= k < |segs| ==> segs[k].start <= segs[k].end)
    && (forall k :: 0 < k < |segs| ==> segs[k].start == segs[k - 1].end + 1)
  }

  /** Each segment carries the sample type of every point it spans, and neighbours differ. */
  predicate Labels<T(==)>(segs: seq<Segment<T>>, types: seq<T>) {
    (forall k, i :: 0 <= k < |segs| && segs[k].start <= i <= segs[k].end && 0 <= i < |types| ==> types[i] == segs[k].kind)
    && (forall k :: 0 < k < |segs| ==> segs[k - 1].kind != segs[k].kind)
  }

  /**
   * The segment loop: the equity curve's sample types cut into maximal runs
   * that cover every point.
   */
  method Segments<T(==)>(types: seq<T>) returns (segs: seq<Segment<T>>)
    ensures Tiles(segs, |types|)
    ensures Labels(segs, types)
  {
    segs := [];
    if |types| == 0 {
      return;
    }
    var kind, start := types[0], 0;
    var i := 0;
    while i < |types|
      invariant 0 <= start <= i <= |types| && (i > 0 ==> start < i)
      invariant forall j :: start <= j < i ==> types[j] == kind
      invariant start < |types| && types[start] == kind
      invariant |segs| == 0 <==> start == 0
      invariant |segs| > 0 ==> segs[0].start == 0 && segs[|segs| - 1].end == start - 1 && segs[|segs| - 1].kind != kind
      invariant forall k :: 0 <= k < |segs| ==> segs[k].start <= segs[k].end
      invariant forall k :: 0 < k < |segs| ==> segs[k].start == segs[k - 1].end + 1
      invariant Labels(segs, types)
    {
      if types[i] != kind {
        AppendLabelled(segs, types, Segment(kind, start, i - 1));
        segs := segs + [Segment(kind, start, i - 1)];
        kind, start := types[i], i;
      }
      i := i + 1;
    }
    AppendLabelled(segs, types, Segment(kind, start, |types| - 1));
    segs := segs + [Segment(kind, start, |types| - 1)];
  }

  lemma AppendLabelled<T>(segs: seq<Segment<T>>, types: seq<T>, seg: Segment<T>)
    requires Labels(segs, types)
    requires forall i :: seg.start <= i <= seg.end && 0 <= i < |types| ==> types[i] == seg.kind
    requires |segs| > 0 ==> segs[|segs| - 1].kind != seg.kind
    ensures Labels(segs + [seg], types)
  {
    var r := segs + [seg];
    forall k, i | 0 <= k < |r| && r[k].start <= i <= r[k].end && 0 <= i < |types|
      ensures types[i] == r[k].kind
    {
      if k < |segs| {
        assert r[k] == segs[k];
      }
    }
  }
}
