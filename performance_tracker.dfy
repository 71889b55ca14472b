/**
 * Portfolio value snapshots: valuing the ticker-bearing allocations at current prices, the
 * day/month/year changes against the latest earlier snapshot, the windowed and sampled history
 * and the start/end metrics.
 *
 * The snapshot table is a sequence of rows in insertion order. Each "latest at or before"
 * query is the snapshot of greatest date among the matching rows; of several with that date,
 * the earliest-inserted one is taken.
 */
module PerformanceTracker {
  import opened Wrappers
  import opened RealSeq
  import opened Sorting
  import opened Time
  import opened RiskReturns

  /** The investment assumed when neither the caller nor an earlier snapshot gives one. */
  const DEFAULT_INVESTMENT: real := 10000.0

  /** Default look-back of the history query, in days. */
  const HISTORY_DAYS: int := 90

  /** Default look-back of the metrics query, in days. */
  const METRICS_DAYS: int := 365

  datatype Snapshot = Snapshot(
    id: int,
    portfolioId: int,
    totalValue: real,
    date: int,
    dailyChangePercent: Option<real>,
    monthlyChangePercent: Option<real>,
    yearlyChangePercent: Option<real>)

  datatype AssetValue = AssetValue(
    allocationId: int,
    assetName: string,
    ticker: string,
    price: real,
    quantity: real,
    value: real,
    allocationPercentage: real)

  datatype AssetSnapshot = AssetSnapshot(snapshotId: int, asset: AssetValue)

  datatype TrackerError =
    | PortfolioNotFound(portfolioId: int)
    | NoAllocations(portfolioId: int)
    | ZeroPriorValue        // a float division by a zero earlier total raises ZeroDivisionError
    | InsufficientSnapshotData

  // ---------------------------------------------------------------------------
  // Latest snapshot at or before a bound
  // ---------------------------------------------------------------------------

  /** A row of the portfolio dated at or before the bound (no bound: any date). */
  predicate Candidate(s: Snapshot, portfolioId: int, bound: Option<int>)
  {
    s.portfolioId == portfolioId && (bound.None? || s.date <= bound.value)
  }

  /** `filter(...).order_by(date.desc()).first()`. */
  function Latest(snaps: seq<Snapshot>, portfolioId: int, bound: Option<int>): (r: Option<Snapshot>)
    ensures r.Some? <==> exists i :: 0 <= i < |snaps| && Candidate(snaps[i], portfolioId, bound)
    ensures r.Some? ==> r.value in snaps && Candidate(r.value, portfolioId, bound)
    ensures r.Some? ==> forall i :: 0 <= i < |snaps| && Candidate(snaps[i], portfolioId, bound) ==>
                          snaps[i].date <= r.value.date
  {
    if snaps == [] then None
    else
      var n := |snaps| - 1;
      var prev := Latest(snaps[..n], portfolioId, bound);
      assert forall i :: 0 <= i < n ==> snaps[..n][i] == snaps[i];
      if Candidate(snaps[n], portfolioId, bound) && (prev.None? || prev.value.date < snaps[n].date) then
        Some(snaps[n])
      else prev
  }

  /** A later bound finds a snapshot whenever an earlier one does, and never an older one. */
  lemma LatestMonotone(snaps: seq<Snapshot>, portfolioId: int, b1: int, b2: int)
    requires b1 <= b2
    requires Latest(snaps, portfolioId, Some(b1)).Some?
    ensures Latest(snaps, portfolioId, Some(b2)).Some?
    ensures Latest(snaps, portfolioId, Some(b1)).value.date <= Latest(snaps, portfolioId, Some(b2)).value.date
  {
    var s := Latest(snaps, portfolioId, Some(b1)).value;
    var i :| 0 <= i < |snaps| && snaps[i] == s;
    assert Candidate(snaps[i], portfolioId, Some(b2));
  }

  // ---------------------------------------------------------------------------
  // Changes over one day, thirty days and a year
  // ---------------------------------------------------------------------------

  datatype Changes = Changes(daily: Option<real>, monthly: Option<real>, yearly: Option<real>)

  /** The percent change from an earlier snapshot's total; no earlier snapshot gives no change. */
  function Change(current: real, prior: Option<Snapshot>): (r: Result<Option<real>, TrackerError>)
    ensures prior.None? ==> r == Ok(None)
    ensures prior.Some? ==> (r.Err? <==> prior.value.totalValue == 0.0)
    ensures r.Ok? && prior.Some? ==>
              r.value.Some? && r.value.value * prior.value.totalValue == (current - prior.value.totalValue) * 100.0
  {
    if prior.None? then Ok(None)
    else if prior.value.totalValue == 0.0 then Err(ZeroPriorValue)
    else
      var p := prior.value.totalValue;
      QuotientTimesDivisor(current - p, p);
      Ok(Some((current - p) / p * 100.0))
  }

  /** The newest snapshot of the portfolio at least a day old, if any. */
  function PriorDay(snaps: seq<Snapshot>, portfolioId: int, now: int): (r: Option<Snapshot>)
    ensures r.Some? <==> exists i :: 0 <= i < |snaps| && snaps[i].portfolioId == portfolioId && snaps[i].date <= now - DAY
    ensures r.Some? ==> r.value in snaps && r.value.portfolioId == portfolioId && r.value.date <= now - DAY
    ensures r.Some? ==> forall i :: 0 <= i < |snaps| && snaps[i].portfolioId == portfolioId && snaps[i].date <= now - DAY ==>
                          snaps[i].date <= r.value.date
  {
    Latest(snaps, portfolioId, Some(now - DAY))
  }

  /** The newest snapshot of the portfolio at least 30 days old, if any. */
  function PriorMonth(snaps: seq<Snapshot>, portfolioId: int, now: int): (r: Option<Snapshot>)
    ensures r.Some? <==> exists i :: 0 <= i < |snaps| && snaps[i].portfolioId == portfolioId && snaps[i].date <= now - 30 * DAY
    ensures r.Some? ==> r.value in snaps && r.value.portfolioId == portfolioId && r.value.date <= now - 30 * DAY
    ensures r.Some? ==> forall i :: 0 <= i < |snaps| && snaps[i].portfolioId == portfolioId && snaps[i].date <= now - 30 * DAY ==>
                          snaps[i].date <= r.value.date
  {
    Latest(snaps, portfolioId, Some(now - 30 * DAY))
  }

  /** The newest snapshot of the portfolio at least 365 days old, if any. */
  function PriorYear(snaps: seq<Snapshot>, portfolioId: int, now: int): (r: Option<Snapshot>)
    ensures r.Some? <==> exists i :: 0 <= i < |snaps| && snaps[i].portfolioId == portfolioId && snaps[i].date <= now - 365 * DAY
    ensures r.Some? ==> r.value in snaps && r.value.portfolioId == portfolioId && r.value.date <= now - 365 * DAY
    ensures r.Some? ==> forall i :: 0 <= i < |snaps| && snaps[i].portfolioId == portfolioId && snaps[i].date <= now - 365 * DAY ==>
                          snaps[i].date <= r.value.date
  {
    Latest(snaps, portfolioId, Some(now - 365 * DAY))
  }

  /** `_calculate_changes`: the three changes, or the error of the first zero earlier total. */
  function CalculateChanges(snaps: seq<Snapshot>, portfolioId: int, now: int, current: real)
    : (r: Result<Changes, TrackerError>)
    ensures r.Err? <==> Change(current, PriorDay(snaps, portfolioId, now)).Err? ||
                        Change(current, PriorMonth(snaps, portfolioId, now)).Err? ||
                        Change(current, PriorYear(snaps, portfolioId, now)).Err?
    ensures r.Ok? ==> (r.value.daily.Some? <==> PriorDay(snaps, portfolioId, now).Some?)
    ensures r.Ok? ==> (r.value.monthly.Some? <==> PriorMonth(snaps, portfolioId, now).Some?)
    ensures r.Ok? ==> (r.value.yearly.Some? <==> PriorYear(snaps, portfolioId, now).Some?)
    ensures r.Ok? ==> Change(current, PriorDay(snaps, portfolioId, now)) == Ok(r.value.daily)
    ensures r.Ok? ==> Change(current, PriorMonth(snaps, portfolioId, now)) == Ok(r.value.monthly)
    ensures r.Ok? ==> Change(current, PriorYear(snaps, portfolioId, now)) == Ok(r.value.yearly)
    ensures r.Err? ==> r.error == ZeroPriorValue
  {
    var d := Change(current, PriorDay(snaps, portfolioId, now));
    var m := Change(current, PriorMonth(snaps, portfolioId, now));
    var y := Change(current, PriorYear(snaps, portfolioId, now));
    if d.Err? then Err(d.error)
    else if m.Err? then Err(m.error)
    else if y.Err? then Err(y.error)
    else Ok(Changes(d.value, m.value, y.value))
  }

  /** The horizons are nested: a yearly change implies a monthly one, which implies a daily one. */
  lemma NestedHorizons(snaps: seq<Snapshot>, portfolioId: int, now: int, current: real)
    requires CalculateChanges(snaps, portfolioId, now, current).Ok?
    ensures var c := CalculateChanges(snaps, portfolioId, now, current).value;
            (c.yearly.Some? ==> c.monthly.Some?) && (c.monthly.Some? ==> c.daily.Some?)
  {
    var c := CalculateChanges(snaps, portfolioId, now, current).value;
    if c.yearly.Some? {
      LatestMonotone(snaps, portfolioId, now - 365 * DAY, now - 30 * DAY);
    }
    if c.monthly.Some? {
      LatestMonotone(snaps, portfolioId, now - 30 * DAY, now - DAY);
    }
  }

  // ---------------------------------------------------------------------------
  // Valuing the allocations
  // ---------------------------------------------------------------------------

  /** The caller's amount when given (even 0), else the latest snapshot's total, else the default. */
  function ResolveInvestment(given: Option<real>, snaps: seq<Snapshot>, portfolioId: int): (amount: real)
    ensures given.Some? ==> amount == given.value
    ensures given.None? && Latest(snaps, portfolioId, None).Some? ==>
              amount == Latest(snaps, portfolioId, None).value.totalValue
    ensures given.None? && Latest(snaps, portfolioId, None).None? ==> amount == DEFAULT_INVESTMENT
  {
    if given.Some? then given.value
    else
      var latest := Latest(snaps, portfolioId, None);
      if latest.Some? then latest.value.totalValue else DEFAULT_INVESTMENT
  }

  lemma PriceTimesQuantity(share: real, price: real)
    requires price > 0.0
    ensures price * (share / price) == share
  {
  }

  /** The allocation's percentage when it carries a ticker and its price came back positive, else 0. */
  function PricedPercentage(a: Allocation, fetched: Option<real>): real
  {
    if HasTicker(a) && fetched.Some? && fetched.value > 0.0 then a.allocationPercentage else 0.0
  }

  /**
   * One asset's entry: the fetched price (0 when the fetch failed), the quantity the percentage
   * of the investment buys, and its value.
   */
  function AssetEntry(a: Allocation, fetched: Option<real>, amount: real): (e: AssetValue)
    requires HasTicker(a)
    ensures e.allocationId == a.id && e.assetName == a.assetName && e.ticker == a.ticker.value
    ensures e.allocationPercentage == a.allocationPercentage
    ensures e.price == (if fetched.Some? then fetched.value else 0.0)
    ensures e.price <= 0.0 ==> e.quantity == 0.0
    ensures e.price > 0.0 ==> e.quantity * e.price == a.allocationPercentage * amount
    ensures e.value == PricedPercentage(a, fetched) * amount
  {
    var price := if fetched.Some? then fetched.value else 0.0;
    var share := a.allocationPercentage * amount;
    var quantity := if price > 0.0 then share / price else 0.0;
    assert price * quantity == PricedPercentage(a, fetched) * amount && (price > 0.0 ==> quantity * price == share) by {
      if price > 0.0 {
        PriceTimesQuantity(share, price);
      }
    }
    AssetValue(a.id, a.assetName, a.ticker.value, price, quantity, price * quantity, a.allocationPercentage)
  }

  /** The positions of the ticker-bearing allocations, in increasing order. */
  function TickerIndices(allocations: seq<Allocation>): (ix: seq<nat>)
    ensures forall k :: 0 <= k < |ix| ==> ix[k] < |allocations| && HasTicker(allocations[ix[k]])
    ensures forall k, l :: 0 <= k < l < |ix| ==> ix[k] < ix[l]
    ensures forall i :: 0 <= i < |allocations| && HasTicker(allocations[i]) ==> i in ix
  {
    if allocations == [] then []
    else
      var n := |allocations| - 1;
      var prefix := TickerIndices(allocations[..n]);
      assert forall i :: 0 <= i < n ==> allocations[..n][i] == allocations[i];
      if HasTicker(allocations[n]) then prefix + [n] else prefix
  }

  /**
   * The entries of the ticker-bearing allocations, in allocation order: the k-th entry belongs to
   * the k-th allocation that carries a ticker, and there is one entry for each of them.
   */
  function AssetEntries(allocations: seq<Allocation>, prices: seq<Option<real>>, amount: real): (r: seq<AssetValue>)
    requires |prices| == |allocations|
    ensures |r| == |TickerIndices(allocations)|
    ensures forall k :: 0 <= k < |r| ==>
              var i := TickerIndices(allocations)[k];
              r[k] == AssetEntry(allocations[i], prices[i], amount)
  {
    if allocations == [] then []
    else
      var n := |allocations| - 1;
      var prefix := AssetEntries(allocations[..n], prices[..n], amount);
      assert forall i :: 0 <= i < n ==> allocations[..n][i] == allocations[i] && prices[..n][i] == prices[i];
      if HasTicker(allocations[n]) then prefix + [AssetEntry(allocations[n], prices[n], amount)] else prefix
  }

  /** The value of each entry. */
  function Values(entries: seq<AssetValue>): (v: seq<real>)
    ensures |v| == |entries| && forall k :: 0 <= k < |entries| ==> v[k] == entries[k].value
  {
    seq(|entries|, k requires 0 <= k < |entries| => entries[k].value)
  }

  /** The valuation loop of `create_snapshot`: one entry per ticker-bearing allocation and the running total. */
  method ValueAllocations(allocations: seq<Allocation>, prices: seq<Option<real>>, amount: real)
    returns (total: real, assets: seq<AssetValue>)
    requires |prices| == |allocations|
    ensures assets == AssetEntries(allocations, prices, amount)
    ensures total == Sum(Values(assets))
  {
    total, assets := 0.0, [];
    var i := 0;
    while i < |allocations|
      invariant 0 <= i <= |allocations|
      invariant assets == AssetEntries(allocations[..i], prices[..i], amount)
      invariant total == Sum(Values(assets))
    {
      assert allocations[..i + 1][..i] == allocations[..i];
      assert prices[..i + 1][..i] == prices[..i];
      if HasTicker(allocations[i]) {
        var e := AssetEntry(allocations[i], prices[i], amount);
        assert Values(assets + [e]) == Values(assets) + [e.value];
        SumSnoc(Values(assets), e.value);
        total := total + e.value;
        assets := assets + [e];
      }
      i := i + 1;
    }
    assert allocations[..i] == allocations;
    assert prices[..i] == prices;
  }

  /** The asset rows of a new snapshot, each referencing it. */
  function Linked(snapshotId: int, assets: seq<AssetValue>): (r: seq<AssetSnapshot>)
    ensures |r| == |assets|
    ensures forall k :: 0 <= k < |assets| ==> r[k].snapshotId == snapshotId && r[k].asset == assets[k]
  {
    seq(|assets|, k requires 0 <= k < |assets| => AssetSnapshot(snapshotId, assets[k]))
  }

  // ---------------------------------------------------------------------------
  // The snapshot store
  // ---------------------------------------------------------------------------

  /** The snapshot and asset-snapshot tables with the id the next snapshot receives. */
  class SnapshotStore {
    var snapshots: seq<Snapshot>
    var assetSnapshots: seq<AssetSnapshot>
    var nextId: int

    /** Ids increase in insertion order and stay below the next id; every asset row references a snapshot. */
    ghost predicate Valid()
      reads this
    {
      (forall i, j :: 0 <= i < j < |snapshots| ==> snapshots[i].id < snapshots[j].id) &&
      (forall i :: 0 <= i < |snapshots| ==> snapshots[i].id < nextId) &&
      (forall k :: 0 <= k < |assetSnapshots| ==> assetSnapshots[k].snapshotId in SnapshotIds())
    }

    function SnapshotIds(): set<int>
      reads this
    {
      set i | 0 <= i < |snapshots| :: snapshots[i].id
    }

    constructor ()
      ensures Valid() && snapshots == [] && assetSnapshots == []
    {
      snapshots, assetSnapshots, nextId := [], [], 1;
    }

    /** Appends a snapshot carrying the next id and its asset rows. */
    method Record(snapshot: Snapshot, assets: seq<AssetValue>)
      requires Valid() && snapshot.id == nextId
      modifies this
      ensures Valid()
      ensures snapshots == old(snapshots) + [snapshot]
      ensures assetSnapshots == old(assetSnapshots) + Linked(snapshot.id, assets)
      ensures nextId == old(nextId) + 1
    {
      ghost var before := snapshots;
      snapshots := snapshots + [snapshot];
      forall x | x in set i | 0 <= i < |before| :: before[i].id
        ensures x in SnapshotIds()
      {
        var i :| 0 <= i < |before| && before[i].id == x;
        assert snapshots[i] == before[i];
      }
      assert snapshots[|snapshots| - 1] == snapshot;
      assert snapshot.id in SnapshotIds();
      ghost var rows := assetSnapshots;
      assetSnapshots := assetSnapshots + Linked(snapshot.id, assets);
      forall k | 0 <= k < |assetSnapshots| ensures assetSnapshots[k].snapshotId in SnapshotIds() {
        if k < |rows| {
          assert assetSnapshots[k] == rows[k];
        }
      }
      nextId := nextId + 1;
    }

    /**
     * `create_snapshot`: `allocations` are the portfolio's allocation rows and `prices[i]` is the
     * price fetch for `allocations[i]` (None when it raised). The changes are computed against
     * the snapshots that existed before, then the snapshot and one asset row per
     * ticker-bearing allocation are added. On an error nothing is added.
     */
    method CreateSnapshot(portfolioExists: bool, portfolioId: int, allocations: seq<Allocation>,
                          investment: Option<real>, prices: seq<Option<real>>, now: int)
      returns (r: Result<Snapshot, TrackerError>)
      requires Valid() && |prices| == |allocations|
      modifies this
      ensures Valid()
      ensures !portfolioExists ==> r == Err(PortfolioNotFound(portfolioId))
      ensures portfolioExists && allocations == [] ==> r == Err(NoAllocations(portfolioId))
      ensures r.Err? ==> snapshots == old(snapshots) && assetSnapshots == old(assetSnapshots) && nextId == old(nextId)
      ensures portfolioExists && allocations != [] ==>
                var amount := ResolveInvestment(investment, old(snapshots), portfolioId);
                var assets := AssetEntries(allocations, prices, amount);
                var changes := CalculateChanges(old(snapshots), portfolioId, now, Sum(Values(assets)));
                (r.Err? <==> changes.Err?) &&
                (r.Ok? ==>
                   r.value == Snapshot(old(nextId), portfolioId, Sum(Values(assets)), now, changes.value.daily,
                                       changes.value.monthly, changes.value.yearly) &&
                   snapshots == old(snapshots) + [r.value] &&
                   assetSnapshots == old(assetSnapshots) + Linked(r.value.id, assets) &&
                   nextId == old(nextId) + 1)
    {
      if !portfolioExists {
        return Err(PortfolioNotFound(portfolioId));
      }
      if allocations == [] {
        return Err(NoAllocations(portfolioId));
      }
      var amount := ResolveInvestment(investment, snapshots, portfolioId);
      var total, assets := ValueAllocations(allocations, prices, amount);
      var changes := CalculateChanges(snapshots, portfolioId, now, total);
      if changes.Err? {
        return Err(changes.error);
      }
      var snapshot := Snapshot(nextId, portfolioId, total, now, changes.value.daily,
                               changes.value.monthly, changes.value.yearly);
      Record(snapshot, assets);
      r := Ok(snapshot);
    }
  }

  // ---------------------------------------------------------------------------
  // History and metrics
  // ---------------------------------------------------------------------------

  /** A row of the portfolio in the window that passes the interval's sampling rule. */
  predicate InHistory(s: Snapshot, portfolioId: int, start: int, end: int, interval: string,
                      dayOfWeek: int -> int, dayOfMonth: int -> int)
  {
    s.portfolioId == portfolioId && start <= s.date <= end &&
    (interval == "weekly" ==> dayOfWeek(s.date) == 1) &&
    (interval == "monthly" ==> dayOfMonth(s.date) == 1)
  }

  /** The rows passing the history filter, in table order. */
  function HistoryRows(snaps: seq<Snapshot>, portfolioId: int, start: int, end: int, interval: string,
                       dayOfWeek: int -> int, dayOfMonth: int -> int): (r: seq<Snapshot>)
    ensures forall s :: s in r <==> s in snaps && InHistory(s, portfolioId, start, end, interval, dayOfWeek, dayOfMonth)
    ensures forall s :: multiset(r)[s] ==
              if InHistory(s, portfolioId, start, end, interval, dayOfWeek, dayOfMonth) then multiset(snaps)[s] else 0
  {
    if snaps == [] then []
    else
      var n := |snaps| - 1;
      var prefix := HistoryRows(snaps[..n], portfolioId, start, end, interval, dayOfWeek, dayOfMonth);
      assert snaps == snaps[..n] + [snaps[n]];
      if InHistory(snaps[n], portfolioId, start, end, interval, dayOfWeek, dayOfMonth) then prefix + [snaps[n]]
      else prefix
  }

  function SnapshotDate(s: Snapshot): real
  {
    s.date as real
  }

  /**
   * `get_performance_history`: the window defaults to the 90 days before the end, which
   * defaults to now; "weekly" keeps Mondays (day-of-week 1), "monthly" keeps the first of the
   * month, any other interval keeps every row; the rows come back in ascending date order.
   */
  function PerformanceHistory(snaps: seq<Snapshot>, portfolioId: int, now: int, start: Option<int>, end: Option<int>,
                              interval: string, dayOfWeek: int -> int, dayOfMonth: int -> int): (r: seq<Snapshot>)
    ensures var w := Window(now, start, end, HISTORY_DAYS);
            forall s :: s in r <==> s in snaps && InHistory(s, portfolioId, w.0, w.1, interval, dayOfWeek, dayOfMonth)
    ensures var w := Window(now, start, end, HISTORY_DAYS);
            multiset(r) == multiset(HistoryRows(snaps, portfolioId, w.0, w.1, interval, dayOfWeek, dayOfMonth))
    ensures forall i, j :: 0 <= i < j < |r| ==> r[i].date <= r[j].date
  {
    var w := Window(now, start, end, HISTORY_DAYS);
    var rows := HistoryRows(snaps, portfolioId, w.0, w.1, interval, dayOfWeek, dayOfMonth);
    var sorted := SortBy(rows, SnapshotDate);
    assert forall s :: s in sorted <==> s in multiset(rows);
    assert forall i, j :: 0 <= i < j < |sorted| ==> SnapshotDate(sorted[i]) <= SnapshotDate(sorted[j]);
    sorted
  }

  /** The change as a percentage of a positive starting value; 0 when the start is not positive. */
  function PercentChange(absolute: real, starting: real): (p: real)
    ensures starting > 0.0 ==> p * starting == absolute * 100.0
    ensures starting <= 0.0 ==> p == 0.0
  {
    if starting > 0.0 then
      QuotientTimesDivisor(absolute, starting);
      assert (absolute / starting * 100.0) * starting == (absolute / starting * starting) * 100.0;
      absolute / starting * 100.0
    else 0.0
  }

  datatype PerformanceMetrics = PerformanceMetrics(
    periodStart: int,
    periodEnd: int,
    startingValue: real,
    endingValue: real,
    percentChange: real,
    absoluteChange: real)

  /**
   * `calculate_metrics`: the latest snapshots at or before the window's start and end (the
   * window defaults to the 365 days before now); the change between their totals, as a
   * percentage of the start total when that is positive and 0 otherwise.
   */
  function CalculateMetrics(snaps: seq<Snapshot>, portfolioId: int, now: int, start: Option<int>, end: Option<int>)
    : (r: Result<PerformanceMetrics, TrackerError>)
    ensures var w := Window(now, start, end, METRICS_DAYS);
            var first := Latest(snaps, portfolioId, Some(w.0));
            var last := Latest(snaps, portfolioId, Some(w.1));
            (r.Err? <==> first.None? || last.None?) &&
            (r.Err? ==> r.error == InsufficientSnapshotData) &&
            (r.Ok? ==>
               r.value.periodStart == first.value.date && r.value.periodEnd == last.value.date &&
               r.value.startingValue == first.value.totalValue && r.value.endingValue == last.value.totalValue)
    ensures r.Ok? ==> r.value.absoluteChange == r.value.endingValue - r.value.startingValue
    ensures r.Ok? ==> r.value.percentChange == PercentChange(r.value.absoluteChange, r.value.startingValue)
  {
    var w := Window(now, start, end, METRICS_DAYS);
    var first := Latest(snaps, portfolioId, Some(w.0));
    var last := Latest(snaps, portfolioId, Some(w.1));
    if first.None? || last.None? then Err(InsufficientSnapshotData)
    else
      var s, e := first.value.totalValue, last.value.totalValue;
      Ok(PerformanceMetrics(first.value.date, last.value.date, s, e, PercentChange(e - s, s), e - s))
  }

  /** When the window starts no later than it ends, the metrics fail exactly when nothing predates its start. */
  lemma MetricsNeedOnlyAStartSnapshot(snaps: seq<Snapshot>, portfolioId: int, now: int, start: Option<int>, end: Option<int>)
    requires Window(now, start, end, METRICS_DAYS).0 <= Window(now, start, end, METRICS_DAYS).1
    ensures var w := Window(now, start, end, METRICS_DAYS);
            CalculateMetrics(snaps, portfolioId, now, start, end).Err? <==> Latest(snaps, portfolioId, Some(w.0)).None?
    ensures CalculateMetrics(snaps, portfolioId, now, start, end).Ok? ==>
              CalculateMetrics(snaps, portfolioId, now, start, end).value.periodStart <=
              CalculateMetrics(snaps, portfolioId, now, start, end).value.periodEnd
  {
    var w := Window(now, start, end, METRICS_DAYS);
    if Latest(snaps, portfolioId, Some(w.0)).Some? {
      LatestMonotone(snaps, portfolioId, w.0, w.1);
    }
  }
}
