/**
 * The market-data cache and the request parameters of
 * backtest_api/components/data_fetcher.py. The cache is two tables keyed by
 * the same request keys: the data and the time it was stored. The clock
 * (`time.time()`) is a parameter `now`.
 */
module DataFetcher {
  import opened Common

  /** Seconds an entry stays fresh. */
  const CacheTtl: real := 300.0

  /** Entries kept after a store. */
  const CacheLimit: nat := 100

  /** The cache of fetched candles, values of type `V`. */
  class Cache<V> {
    var data: map<string, V>
    var stamps: map<string, real>

    /** Both tables hold the same keys. */
    predicate Valid()
      reads this
    {
      data.Keys == stamps.Keys
    }

    constructor()
      ensures Valid() && data == map[] && stamps == map[]
    {
      data := map[];
      stamps := map[];
    }

    /**
     * A lookup: the stored data when it is younger than the time to live;
     * an expired entry is removed from both tables and reads as missing.
     */
    method Get(key: string, now: real) returns (r: Option<V>)
      modifies this
      ensures old(Valid()) ==> Valid()
      ensures r.Some? ==> key in data && key in stamps && r.value == data[key] && now - stamps[key] < CacheTtl
      ensures key in old(data) && key in old(stamps) && now - old(stamps)[key] < CacheTtl ==>
        r == Some(old(data)[key]) && data == old(data) && stamps == old(stamps)
      ensures key in old(data) && key in old(stamps) && now - old(stamps)[key] >= CacheTtl ==>
        r.None? && data == old(data) - {key} && stamps == old(stamps) - {key}
      ensures !(key in old(data) && key in old(stamps)) ==>
        r.None? && data == old(data) && stamps == old(stamps)
    {
      r := None;
      if key in data && key in stamps {
        var age := now - stamps[key];
        if age < CacheTtl {
          r := Some(data[key]);
        } else {
          data := data - {key};
          stamps := stamps - {key};
        }
      }
    }

    /**
     * A store: the key maps to the data stamped `now`; then, while more than
     * the limit are held, an entry with the oldest stamp is dropped. Entries
     * that stay are untouched, every dropped entry is at least as old as
     * every kept one, and at most the limit remain.
     */
    method Set(key: string, value: V, now: real)
      requires Valid()
      modifies this
      ensures Valid()
      ensures |data| == if |old(data)[key := value]| > CacheLimit then CacheLimit else |old(data)[key := value]|
      ensures forall k :: k in data ==> k in old(data)[key := value] && data[k] == old(data)[key := value][k]
      ensures forall k :: k in stamps ==> k in old(stamps)[key := now] && stamps[k] == old(stamps)[key := now][k]
      ensures forall k, k' :: k in old(stamps)[key := now] && k !in stamps && k' in stamps ==>
        old(stamps)[key := now][k] <= stamps[k']
      ensures |old(data)[key := value]| <= CacheLimit ==> data == old(data)[key := value] && stamps == old(stamps)[key := now]
      ensures (forall k :: k in old(stamps) && k != key ==> old(stamps)[k] < now) ==>
        key in data && data[key] == value && stamps[key] == now
    {
      data := data[key := value];
      stamps := stamps[key := now];
      ghost var data0, stamps0 := data, stamps;
      ghost var newest := forall k :: k in stamps0 && k != key ==> stamps0[k] < now;
      while |data| > CacheLimit
        invariant Valid()
        invariant |data0| > CacheLimit ==> |data| >= CacheLimit
        invariant |data0| <= CacheLimit ==> data == data0 && stamps == stamps0
        invariant DroppedOldest(data0, stamps0, data, stamps)
        invariant newest ==> key in stamps && stamps[key] == now
        decreases |data|
      {
        var oldest := OldestKey(stamps);
        if newest {
          KeyNotOldest(stamps0, stamps, key, now, oldest);
        }
        DropKeeps(data0, stamps0, data, stamps, oldest);
        data := data - {oldest};
        stamps := stamps - {oldest};
      }
    }
  }

  /**
   * A lookup within the time to live of a store, when no other entry was
   * stamped at or after the store, returns the stored data.
   */
  method StoreThenLookup<V>(c: Cache<V>, key: string, value: V, now: real, later: real) returns (r: Option<V>)
    requires c.Valid() && now <= later < now + CacheTtl
    requires forall k :: k in c.stamps && k != key ==> c.stamps[k] < now
    modifies c
    ensures c.Valid() && r == Some(value)
  {
    c.Set(key, value, now);
    r := c.Get(key, later);
  }

  /**
   * `data` and `stamps` are what is left of `data0` and `stamps0` after
   * dropping entries: the rest untouched, and each dropped entry at least
   * as old as each kept one.
   */
  ghost predicate DroppedOldest<V>(data0: map<string, V>, stamps0: map<string, real>, data: map<string, V>, stamps: map<string, real>) {
    (forall k :: k in data ==> k in data0 && data[k] == data0[k])
    && (forall k :: k in stamps ==> k in stamps0 && stamps[k] == stamps0[k])
    && (forall k, k' :: k in stamps0 && k !in stamps && k' in stamps ==> stamps0[k] <= stamps[k'])
  }

  /** Dropping an entry with the smallest stamp keeps the dropped entries the oldest ones. */
  lemma DropKeeps<V>(data0: map<string, V>, stamps0: map<string, real>, data: map<string, V>, stamps: map<string, real>, oldest: string)
    requires DroppedOldest(data0, stamps0, data, stamps) && data.Keys == stamps.Keys
    requires oldest in stamps && forall k :: k in stamps ==> stamps[oldest] <= stamps[k]
    ensures DroppedOldest(data0, stamps0, data - {oldest}, stamps - {oldest})
    ensures (data - {oldest}).Keys == (stamps - {oldest}).Keys && |data - {oldest}| == |data| - 1
  {
    assert (data - {oldest}).Keys == data.Keys - {oldest};
    assert |data.Keys - {oldest}| == |data.Keys| - 1;
  }

  /** While other entries remain, a stamp later than every other one is never the oldest. */
  lemma KeyNotOldest(stamps0: map<string, real>, stamps: map<string, real>, key: string, now: real, oldest: string)
    requires forall k :: k in stamps ==> k in stamps0 && stamps[k] == stamps0[k]
    requires forall k :: k in stamps0 && k != key ==> stamps0[k] < now
    requires key in stamps && stamps[key] == now && |stamps| > 1
    requires oldest in stamps && forall k :: k in stamps ==> stamps[oldest] <= stamps[k]
    ensures oldest != key
  {
    var rest := stamps.Keys - {key};
    assert |rest| > 0;
    var other :| other in rest;
    assert stamps[other] < now;
  }

  /** A key with the smallest stamp, found by a scan over the keys. */
  method OldestKey(stamps: map<string, real>) returns (k: string)
    requires |stamps| > 0
    ensures k in stamps && forall k' :: k' in stamps ==> stamps[k] <= stamps[k']
  {
    k :| k in stamps;
    var rest := stamps.Keys - {k};
    while rest != {}
      invariant rest <= stamps.Keys && k in stamps
      invariant forall k' :: k' in stamps && k' !in rest ==> stamps[k] <= stamps[k']
      decreases |rest|
    {
      var j :| j in rest;
      if stamps[j] < stamps[k] {
        k := j;
      }
      rest := rest - {j};
    }
  }

  // ---------------------------------------------------------------------
  // Request parameters

  /** The history lengths the market-data service is asked for. */
  datatype Period = OneMonth | SixtyDays | ThreeMonths | OneYear | TwoYears | All

  /** The days a period spans (`All` is unbounded). */
  function Span(p: Period): Option<int> {
    match p
    case OneMonth => Some(30)
    case SixtyDays => Some(60)
    case ThreeMonths => Some(90)
    case OneYear => Some(365)
    case TwoYears => Some(730)
    case All => None
  }

  function PeriodName(p: Period): string {
    match p
    case OneMonth => "1mo"
    case SixtyDays => "60d"
    case ThreeMonths => "3mo"
    case OneYear => "1y"
    case TwoYears => "2y"
    case All => "max"
  }

  /** The next shorter period, for all but the shortest. */
  function Shorter(p: Period): Option<Period> {
    match p
    case OneMonth => None
    case SixtyDays => Some(OneMonth)
    case ThreeMonths => Some(SixtyDays)
    case OneYear => Some(ThreeMonths)
    case TwoYears => Some(OneYear)
    case All => Some(TwoYears)
  }

  /**
   * The period fetched for `days_back` (730 when absent): the shortest
   * period that spans the requested days, or everything when none does.
   */
  function PeriodFor(daysBack: Option<int>): (p: Period)
    ensures Span(p).Some? ==> daysBack.GetOr(730) <= Span(p).value
    ensures Shorter(p).Some? ==> daysBack.GetOr(730) > Span(Shorter(p).value).value
    ensures daysBack.None? ==> p == TwoYears
  {
    var d := daysBack.GetOr(730);
    if d <= 30 then OneMonth
    else if d <= 60 then SixtyDays
    else if d <= 90 then ThreeMonths
    else if d <= 365 then OneYear
    else if d <= 730 then TwoYears
    else All
  }

  /** Whether `p` is at most as long as `q`. */
  function Rank(p: Period): nat {
    match p
    case OneMonth => 0
    case SixtyDays => 1
    case ThreeMonths => 2
    case OneYear => 3
    case TwoYears => 4
    case All => 5
  }

  /** Asking for more days never fetches a shorter period. */
  lemma PeriodMonotone(d: int, e: int)
    requires d <= e
    ensures Rank(PeriodFor(Some(d))) <= Rank(PeriodFor(Some(e)))
  {
  }

  /** With an explicit start and end date no period is used; otherwise the ladder decides. */
  function FetchPeriod(hasDateRange: bool, daysBack: Option<int>): (p: Option<Period>)
    ensures hasDateRange <==> p.None?
    ensures !hasDateRange ==> p == Some(PeriodFor(daysBack))
  {
    if hasDateRange then None else Some(PeriodFor(daysBack))
  }

  /** The candle intervals the application offers and the market-data interval each is fetched at. */
  const IntervalMap: map<string, string> := map[
    "1m" := "1m", "5m" := "5m", "15m" := "15m", "30m" := "30m",
    "1h" := "60m", "2h" := "60m", "4h" := "60m",
    "1d" := "1d", "1w" := "1wk", "1wk" := "1wk", "1W" := "1wk", "1M" := "1mo", "1mo" := "1mo"]

  predicate ServiceInterval(s: string) {
    s == "1m" || s == "5m" || s == "15m" || s == "30m" || s == "60m" || s == "1d" || s == "1wk" || s == "1mo"
  }

  /**
   * The market-data interval of a requested interval: always one the
   * service knows; hourly intervals are fetched at 60 minutes (and
   * resampled afterwards); an unknown interval falls back to daily.
   */
  function ServiceIntervalFor(interval: string): (r: string)
    ensures ServiceInterval(r)
    ensures interval !in IntervalMap ==> r == "1d"
    ensures interval == "1h" || interval == "2h" || interval == "4h" ==> r == "60m"
  {
    if interval in IntervalMap then IntervalMap[interval] else "1d"
  }
}
