/**
 * The return-series builder of the risk analyzer: daily returns from close prices, the
 * per-allocation collection loop that skips failing tickers, the common-date alignment
 * (with its reset-on-empty behaviour) and the aligned return table.
 */
module RiskReturns {
  import opened Wrappers
  import opened Time
  import MarketData

  /** An allocation row of a portfolio: its id, asset name, ticker (possibly absent) and percentage. */
  datatype Allocation = Allocation(id: int, assetName: string, ticker: Option<string>, allocationPercentage: real)

  /** One ticker's dates and returns, index-aligned. */
  datatype ReturnSeries = ReturnSeries(dates: seq<int>, dailyReturns: seq<real>)

  /** An insertion-ordered dictionary ticker -> series, as a Python dict keeps it. */
  type AssetReturns = seq<(string, ReturnSeries)>

  // ---------------------------------------------------------------------------
  // Daily returns
  // ---------------------------------------------------------------------------

  /** No price that serves as a divisor (every price but the last) is zero. */
  predicate NoZeroDivisor(prices: seq<real>)
  {
    forall i :: 0 <= i < |prices| - 1 ==> prices[i] != 0.0
  }

  /**
   * Day-over-day returns: 0 on the first day, (p[i] - p[i-1]) / p[i-1] afterwards; None when a
   * divisor is zero (Python raises ZeroDivisionError and the ticker is skipped).
   */
  function Returns(prices: seq<real>): (r: Option<seq<real>>)
    requires |prices| > 0
    ensures r.Some? <==> NoZeroDivisor(prices)
    ensures r.Some? ==> |r.value| == |prices| && r.value[0] == 0.0
    ensures r.Some? ==> forall i :: 0 < i < |prices| ==> r.value[i] * prices[i - 1] == prices[i] - prices[i - 1]
  {
    if NoZeroDivisor(prices) then
      Some(seq(|prices|, i requires 0 <= i < |prices| =>
        if i == 0 then 0.0 else (prices[i] - prices[i - 1]) / prices[i - 1]))
    else None
  }

  /** The loop that appends one return per day after the first. */
  method DailyReturns(prices: seq<real>) returns (r: Option<seq<real>>)
    requires |prices| > 0
    ensures r == Returns(prices)
  {
    var daily: seq<real> := [0.0];
    var i := 1;
    while i < |prices|
      invariant 1 <= i <= |prices|
      invariant |daily| == i && daily[0] == 0.0
      invariant forall k :: 0 <= k < i - 1 ==> prices[k] != 0.0
      invariant forall k :: 0 < k < i ==> daily[k] == (prices[k] - prices[k - 1]) / prices[k - 1]
    {
      if prices[i - 1] == 0.0 {
        assert !NoZeroDivisor(prices);
        return None;
      }
      daily := daily + [(prices[i] - prices[i - 1]) / prices[i - 1]];
      i := i + 1;
    }
    ReturnsOfComputed(prices, daily);
    r := Some(daily);
  }

  /** A series built day by day by the return formula, with no zero divisor, is Returns(prices). */
  lemma ReturnsOfComputed(prices: seq<real>, daily: seq<real>)
    requires |prices| > 0 && |daily| == |prices| && daily[0] == 0.0
    requires forall k :: 0 <= k < |prices| - 1 ==> prices[k] != 0.0
    requires forall k :: 0 < k < |prices| ==> daily[k] == (prices[k] - prices[k - 1]) / prices[k - 1]
    ensures Returns(prices) == Some(daily)
  {
    assert NoZeroDivisor(prices);
    var expected := Returns(prices).value;
    assert forall k :: 0 <= k < |prices| ==> daily[k] == expected[k];
    assert daily == expected;
  }

  /** Growth factor of day t relative to day 0: the product of (1 + r[i]) for 0 < i <= t. */
  function Growth(r: seq<real>, t: nat): real
    requires t < |r|
  {
    if t == 0 then 1.0 else Growth(r, t - 1) * (1.0 + r[t])
  }

  /** The returns recover the prices: compounding them from the first price gives every later price. */
  lemma {:induction false} ReturnsRecoverPrices(prices: seq<real>, r: seq<real>, t: nat)
    requires |prices| > 0 && Returns(prices) == Some(r)
    requires t < |prices|
    ensures prices[0] * Growth(r, t) == prices[t]
  {
    GrowthRecoversPrices(prices, r, t);
  }

  /** Any sequence satisfying the return equation compounds back to the prices. */
  lemma {:induction false} GrowthRecoversPrices(prices: seq<real>, r: seq<real>, t: nat)
    requires |r| == |prices| && t < |prices|
    requires forall i :: 0 < i < |prices| ==> r[i] * prices[i - 1] == prices[i] - prices[i - 1]
    ensures prices[0] * Growth(r, t) == prices[t]
  {
    if t > 0 {
      GrowthRecoversPrices(prices, r, t - 1);
      CompoundStep(prices[0], Growth(r, t - 1), r[t], prices[t - 1], prices[t]);
    }
  }

  /** One day of compounding: from a * g == p and r * p == q - p follows a * (g * (1 + r)) == q. */
  lemma CompoundStep(a: real, g: real, r: real, p: real, q: real)
    requires a * g == p && r * p == q - p
    ensures a * (g * (1.0 + r)) == q
  {
    calc {
      a * (g * (1.0 + r));
      (a * g) * (1.0 + r);
      p * (1.0 + r);
      p + r * p;
      q;
    }
  }

  // ---------------------------------------------------------------------------
  // Collecting the tickers' series
  // ---------------------------------------------------------------------------

  function Keys(assets: AssetReturns): set<string>
  {
    set k | 0 <= k < |assets| :: assets[k].0
  }

  predicate DistinctKeys(assets: AssetReturns)
  {
    forall i, j :: 0 <= i < j < |assets| ==> assets[i].0 != assets[j].0
  }

  predicate WellFormed(s: ReturnSeries)
  {
    |s.dates| == |s.dailyReturns| && |s.dailyReturns| > 0 && s.dailyReturns[0] == 0.0
  }

  /** Python's `d[key] = value`: an existing key keeps its position and takes the new value; a new key goes last. */
  function Put(assets: AssetReturns, key: string, value: ReturnSeries): (r: AssetReturns)
    requires DistinctKeys(assets)
    ensures DistinctKeys(r)
    ensures |assets| <= |r|
    ensures Keys(r) == Keys(assets) + {key}
    ensures forall k :: 0 <= k < |r| && r[k].0 == key ==> r[k].1 == value
    ensures forall k :: 0 <= k < |r| && r[k].0 != key ==> k < |assets| && r[k] == assets[k]
    ensures forall k :: 0 <= k < |assets| ==> r[k].0 == assets[k].0
    ensures forall k :: 0 <= k < |assets| && assets[k].0 != key ==> r[k] == assets[k]
    ensures key in Keys(assets) ==> |r| == |assets|
    ensures key !in Keys(assets) ==> r == assets + [(key, value)]
  {
    if key in Keys(assets) then
      var k :| 0 <= k < |assets| && assets[k].0 == key;
      assert Keys(assets[k := (key, value)]) == Keys(assets) by {
        forall x ensures x in Keys(assets[k := (key, value)]) <==> x in Keys(assets) {
          if x in Keys(assets) {
            var m :| 0 <= m < |assets| && assets[m].0 == x;
            assert assets[k := (key, value)][m].0 == x;
          }
        }
      }
      assets[k := (key, value)]
    else
      var r := assets + [(key, value)];
      assert Keys(r) == Keys(assets) + {key} by {
        forall x ensures x in Keys(r) <==> x in Keys(assets) + {key} {
          if x in Keys(assets) {
            var m :| 0 <= m < |assets| && assets[m].0 == x;
            assert r[m].0 == x;
          }
          if x == key { assert r[|assets|].0 == x; }
        }
      }
      r
  }

  /** True for an allocation the loop processes: one whose ticker is present and non-empty. */
  predicate HasTicker(a: Allocation)
  {
    a.ticker.Some? && a.ticker.value != ""
  }

  /** The closing prices of a history, in its order. */
  function Closes(data: seq<MarketData.PricePoint>): (prices: seq<real>)
    ensures |prices| == |data|
    ensures forall i :: 0 <= i < |data| ==> prices[i] == data[i].close
  {
    seq(|data|, i requires 0 <= i < |data| => data[i].close)
  }

  /**
   * One ticker's series from the provider's reply: None when the fetch raises, when the history is
   * empty, or when a zero price makes the return computation raise.
   */
  function TickerSeries(ticker: string, reply: MarketData.Reply<MarketData.HistoryBody>, start: int, end: int)
    : (r: Option<ReturnSeries>)
    ensures r.Some? ==> WellFormed(r.value)
  {
    match MarketData.History(ticker, reply, start, end)
    case Err(_) => None
    case Ok(data) =>
      if |data| == 0 then None
      else
        var prices := seq(|data|, i requires 0 <= i < |data| => data[i].close);
        match Returns(prices)
        case None => None
        case Some(daily) => Some(ReturnSeries(seq(|data|, i requires 0 <= i < |data| => data[i].date), daily))
  }

  /**
   * What a ticker's series is made of: there is none exactly when the fetch fails, the history is
   * empty, or a zero closing price makes a return undefined; otherwise its dates are the history's
   * dates in order and its returns are the returns of the closing prices.
   */
  lemma TickerSeriesOfHistory(ticker: string, reply: MarketData.Reply<MarketData.HistoryBody>, start: int, end: int)
    ensures var h := MarketData.History(ticker, reply, start, end);
            var r := TickerSeries(ticker, reply, start, end);
            r.None? <==> h.Err? || |h.value| == 0 || Returns(Closes(h.value)).None?
    ensures var h := MarketData.History(ticker, reply, start, end);
            var r := TickerSeries(ticker, reply, start, end);
            r.Some? ==> h.Ok? && |r.value.dates| == |h.value| &&
                        (forall i :: 0 <= i < |h.value| ==> r.value.dates[i] == h.value[i].date) &&
                        Returns(Closes(h.value)) == Some(r.value.dailyReturns)
  {
    var h := MarketData.History(ticker, reply, start, end);
    if h.Ok? && |h.value| > 0 {
      assert Closes(h.value) == seq(|h.value|, i requires 0 <= i < |h.value| => h.value[i].close);
    }
  }

  /** Allocation i has a ticker and no later allocation carries the same one. */
  predicate LastWithTicker(allocations: seq<Allocation>, i: int)
  {
    0 <= i < |allocations| && HasTicker(allocations[i]) &&
    forall j :: i < j < |allocations| && HasTicker(allocations[j]) ==> allocations[j].ticker.value != allocations[i].ticker.value
  }

  /**
   * Every ticker's weight is recorded before its fetch, so a failing ticker still has a weight; a
   * ticker held twice keeps the percentage of its last allocation.
   */
  function CollectedWeights(allocations: seq<Allocation>): (w: map<string, real>)
    ensures forall i :: 0 <= i < |allocations| && HasTicker(allocations[i]) ==> allocations[i].ticker.value in w
    ensures forall t :: t in w ==> exists i :: 0 <= i < |allocations| && HasTicker(allocations[i]) &&
                                               allocations[i].ticker.value == t
    ensures forall i :: LastWithTicker(allocations, i) ==> w[allocations[i].ticker.value] == allocations[i].allocationPercentage
  {
    if allocations == [] then map[]
    else
      var prefix := allocations[..|allocations| - 1];
      var a := allocations[|allocations| - 1];
      var w := CollectedWeights(prefix);
      assert forall i :: 0 <= i < |prefix| ==> prefix[i] == allocations[i];
      var r := if HasTicker(a) then w[a.ticker.value := a.allocationPercentage] else w;
      LastWeightStep(allocations, w, r);
      r
  }

  /** The last-allocation rule survives one more allocation. */
  lemma LastWeightStep(allocations: seq<Allocation>, w: map<string, real>, r: map<string, real>)
    requires |allocations| > 0
    requires var n := |allocations| - 1;
             forall i :: LastWithTicker(allocations[..n], i) ==>
               allocations[i].ticker.value in w && w[allocations[i].ticker.value] == allocations[i].allocationPercentage
    requires var a := allocations[|allocations| - 1];
             r == if HasTicker(a) then w[a.ticker.value := a.allocationPercentage] else w
    ensures forall i :: LastWithTicker(allocations, i) ==>
              allocations[i].ticker.value in r && r[allocations[i].ticker.value] == allocations[i].allocationPercentage
  {
    var n := |allocations| - 1;
    forall i | LastWithTicker(allocations, i)
      ensures allocations[i].ticker.value in r && r[allocations[i].ticker.value] == allocations[i].allocationPercentage
    {
      if i < n {
        assert LastWithTicker(allocations[..n], i) by {
          assert forall j :: 0 <= j < n ==> allocations[..n][j] == allocations[j];
        }
      }
    }
  }

  /** Allocation i is usable and no later usable allocation carries the same ticker. */
  predicate LastUsable(allocations: seq<Allocation>, replies: seq<MarketData.Reply<MarketData.HistoryBody>>,
                       start: int, end: int, i: int)
    requires |replies| == |allocations|
  {
    0 <= i < |allocations| && Usable(allocations[i], replies[i], start, end) &&
    forall j :: i < j < |allocations| && Usable(allocations[j], replies[j], start, end) ==>
                  allocations[j].ticker.value != allocations[i].ticker.value
  }

  /** The asset_returns dictionary after the loop has processed `allocations` with their replies. */
  function CollectedReturns(allocations: seq<Allocation>, replies: seq<MarketData.Reply<MarketData.HistoryBody>>,
                            start: int, end: int): (r: AssetReturns)
    requires |replies| == |allocations|
    ensures DistinctKeys(r)
    ensures forall k :: 0 <= k < |r| ==> WellFormed(r[k].1)
    decreases |allocations|
  {
    if allocations == [] then []
    else
      var n := |allocations| - 1;
      var prefix := CollectedReturns(allocations[..n], replies[..n], start, end);
      var a := allocations[n];
      if !HasTicker(a) then prefix
      else
        match TickerSeries(a.ticker.value, replies[n], start, end)
        case None => prefix
        case Some(s) => Put(prefix, a.ticker.value, s)
  }

  /** A ticker fetched more than once holds the series of its last usable allocation, as `d[key] = value` overwrites. */
  lemma {:induction false} CollectedSeriesIsLastUsable(allocations: seq<Allocation>,
                                                       replies: seq<MarketData.Reply<MarketData.HistoryBody>>,
                                                       start: int, end: int)
    requires |replies| == |allocations|
    ensures forall i :: LastUsable(allocations, replies, start, end, i) ==>
              var t := allocations[i].ticker.value;
              (t, TickerSeries(t, replies[i], start, end).value) in CollectedReturns(allocations, replies, start, end)
    decreases |allocations|
  {
    if allocations != [] {
      var n := |allocations| - 1;
      CollectedSeriesIsLastUsable(allocations[..n], replies[..n], start, end);
      LastSeriesStep(allocations, replies, start, end, CollectedReturns(allocations[..n], replies[..n], start, end),
                     CollectedReturns(allocations, replies, start, end));
    }
  }

  /** The last-usable-allocation rule survives one more allocation. */
  lemma LastSeriesStep(allocations: seq<Allocation>, replies: seq<MarketData.Reply<MarketData.HistoryBody>>,
                       start: int, end: int, prefix: AssetReturns, r: AssetReturns)
    requires |replies| == |allocations| > 0
    requires DistinctKeys(prefix)
    requires var n := |allocations| - 1;
             forall i :: LastUsable(allocations[..n], replies[..n], start, end, i) ==>
               var t := allocations[i].ticker.value;
               (t, TickerSeries(t, replies[i], start, end).value) in prefix
    requires var n := |allocations| - 1; var a := allocations[n];
             r == if !Usable(a, replies[n], start, end) then prefix
                  else Put(prefix, a.ticker.value, TickerSeries(a.ticker.value, replies[n], start, end).value)
    ensures forall i :: LastUsable(allocations, replies, start, end, i) ==>
              var t := allocations[i].ticker.value;
              (t, TickerSeries(t, replies[i], start, end).value) in r
  {
    var n := |allocations| - 1;
    forall i | LastUsable(allocations, replies, start, end, i)
      ensures var t := allocations[i].ticker.value;
              (t, TickerSeries(t, replies[i], start, end).value) in r
    {
      var t := allocations[i].ticker.value;
      var pair := (t, TickerSeries(t, replies[i], start, end).value);
      if i < n {
        assert LastUsable(allocations[..n], replies[..n], start, end, i) by {
          assert forall j :: 0 <= j < n ==> allocations[..n][j] == allocations[j] && replies[..n][j] == replies[j];
        }
        var k :| 0 <= k < |prefix| && prefix[k] == pair;
        if Usable(allocations[n], replies[n], start, end) {
          assert allocations[n].ticker.value != t;
          assert r[k] == pair;
        }
      } else {
        var s := TickerSeries(t, replies[n], start, end).value;
        assert Usable(allocations[n], replies[n], start, end);
        assert t in Keys(r);
        var k :| 0 <= k < |r| && r[k].0 == t;
        assert r[k] == pair;
      }
    }
  }

  /** An allocation contributes a series only if it has a ticker and its fetch yields a series. */
  predicate Usable(a: Allocation, reply: MarketData.Reply<MarketData.HistoryBody>, start: int, end: int)
  {
    HasTicker(a) && TickerSeries(a.ticker.value, reply, start, end).Some?
  }

  /** The tickers of the usable allocations. */
  function UsableTickers(allocations: seq<Allocation>, replies: seq<MarketData.Reply<MarketData.HistoryBody>>,
                         start: int, end: int): set<string>
    requires |replies| == |allocations|
  {
    set i | 0 <= i < |allocations| && Usable(allocations[i], replies[i], start, end) :: allocations[i].ticker.value
  }

  /** One more allocation adds its ticker to the keys exactly when it is usable. */
  lemma CollectedKeysStep(allocations: seq<Allocation>, replies: seq<MarketData.Reply<MarketData.HistoryBody>>,
                          start: int, end: int)
    requires |replies| == |allocations| > 0
    ensures var n := |allocations| - 1;
            Keys(CollectedReturns(allocations, replies, start, end)) ==
            Keys(CollectedReturns(allocations[..n], replies[..n], start, end)) +
            (if Usable(allocations[n], replies[n], start, end) then {allocations[n].ticker.value} else {})
  {
  }

  /** The same step for the usable tickers. */
  lemma UsableTickersStep(allocations: seq<Allocation>, replies: seq<MarketData.Reply<MarketData.HistoryBody>>,
                          start: int, end: int)
    requires |replies| == |allocations| > 0
    ensures var n := |allocations| - 1;
            UsableTickers(allocations, replies, start, end) ==
            UsableTickers(allocations[..n], replies[..n], start, end) +
            (if Usable(allocations[n], replies[n], start, end) then {allocations[n].ticker.value} else {})
  {
    var n := |allocations| - 1;
    assert forall i :: 0 <= i < n ==> allocations[..n][i] == allocations[i] && replies[..n][i] == replies[i];
  }

  /** Exactly the usable allocations' tickers end up in the dictionary; failing tickers are skipped, never fatal. */
  lemma {:induction false} CollectedKeysAreUsableTickers(allocations: seq<Allocation>,
                                                         replies: seq<MarketData.Reply<MarketData.HistoryBody>>,
                                                         start: int, end: int)
    requires |replies| == |allocations|
    ensures Keys(CollectedReturns(allocations, replies, start, end)) == UsableTickers(allocations, replies, start, end)
    decreases |allocations|
  {
    if allocations != [] {
      var n := |allocations| - 1;
      CollectedKeysAreUsableTickers(allocations[..n], replies[..n], start, end);
      CollectedKeysStep(allocations, replies, start, end);
      UsableTickersStep(allocations, replies, start, end);
    }
  }

  /** The index of the first usable allocation with ticker t, or |allocations| when there is none. */
  function FirstUsable(allocations: seq<Allocation>, replies: seq<MarketData.Reply<MarketData.HistoryBody>>,
                       start: int, end: int, t: string): (f: nat)
    requires |replies| == |allocations|
    ensures f <= |allocations|
    ensures f < |allocations| ==> Usable(allocations[f], replies[f], start, end) && allocations[f].ticker.value == t
    ensures forall j :: 0 <= j < f && Usable(allocations[j], replies[j], start, end) ==> allocations[j].ticker.value != t
  {
    if allocations == [] then 0
    else
      var n := |allocations| - 1;
      var f := FirstUsable(allocations[..n], replies[..n], start, end, t);
      assert forall j :: 0 <= j < n ==> allocations[..n][j] == allocations[j] && replies[..n][j] == replies[j];
      if f < n then f
      else if Usable(allocations[n], replies[n], start, end) && allocations[n].ticker.value == t then n
      else n + 1
  }

  /** A ticker that was already usable earlier keeps its first usable index. */
  lemma FirstUsableOfPrefix(allocations: seq<Allocation>, replies: seq<MarketData.Reply<MarketData.HistoryBody>>,
                            start: int, end: int, t: string)
    requires |replies| == |allocations| > 0
    ensures var n := |allocations| - 1;
            var f := FirstUsable(allocations[..n], replies[..n], start, end, t);
            f < n ==> FirstUsable(allocations, replies, start, end, t) == f
  {
  }

  /**
   * The dictionary's keys appear in the order of their first usable allocation: a key is placed
   * when first inserted and a later assignment keeps its position.
   */
  lemma {:induction false} CollectedKeyOrder(allocations: seq<Allocation>,
                                             replies: seq<MarketData.Reply<MarketData.HistoryBody>>, start: int, end: int)
    requires |replies| == |allocations|
    ensures forall k :: 0 <= k < |CollectedReturns(allocations, replies, start, end)| ==>
              FirstUsable(allocations, replies, start, end, CollectedReturns(allocations, replies, start, end)[k].0) < |allocations|
    ensures forall k1, k2 :: 0 <= k1 < k2 < |CollectedReturns(allocations, replies, start, end)| ==>
              FirstUsable(allocations, replies, start, end, CollectedReturns(allocations, replies, start, end)[k1].0) <
              FirstUsable(allocations, replies, start, end, CollectedReturns(allocations, replies, start, end)[k2].0)
    decreases |allocations|
  {
    if allocations != [] {
      var n := |allocations| - 1;
      var pa, pr := allocations[..n], replies[..n];
      CollectedKeyOrder(pa, pr, start, end);
      var prefix := CollectedReturns(pa, pr, start, end);
      var r := CollectedReturns(allocations, replies, start, end);
      forall k | 0 <= k < |prefix|
        ensures FirstUsable(allocations, replies, start, end, prefix[k].0) == FirstUsable(pa, pr, start, end, prefix[k].0) < n
      {
        FirstUsableOfPrefix(allocations, replies, start, end, prefix[k].0);
      }
      if Usable(allocations[n], replies[n], start, end) && allocations[n].ticker.value !in Keys(prefix) {
        var t := allocations[n].ticker.value;
        CollectedKeysAreUsableTickers(pa, pr, start, end);
        assert FirstUsable(allocations, replies, start, end, t) == n;
        assert r == prefix + [(t, TickerSeries(t, replies[n], start, end).value)];
      } else {
        assert |r| == |prefix|;
        assert forall k :: 0 <= k < |r| ==> r[k].0 == prefix[k].0;
      }
    }
  }

  /** The analysis has no data exactly when no allocation is usable. */
  lemma CollectedEmptyIffAllSkipped(allocations: seq<Allocation>,
                                    replies: seq<MarketData.Reply<MarketData.HistoryBody>>, start: int, end: int)
    requires |replies| == |allocations|
    ensures |CollectedReturns(allocations, replies, start, end)| == 0 <==>
            forall i :: 0 <= i < |allocations| ==> !Usable(allocations[i], replies[i], start, end)
  {
    var r := CollectedReturns(allocations, replies, start, end);
    CollectedKeysAreUsableTickers(allocations, replies, start, end);
    if |r| > 0 {
      assert r[0].0 in Keys(r);
    }
    if exists i :: 0 <= i < |allocations| && Usable(allocations[i], replies[i], start, end) {
      var i :| 0 <= i < |allocations| && Usable(allocations[i], replies[i], start, end);
      assert allocations[i].ticker.value in UsableTickers(allocations, replies, start, end);
    }
  }

  /** Processing allocation i updates the weights and the dictionary as one loop iteration does. */
  lemma CollectedStep(allocations: seq<Allocation>, replies: seq<MarketData.Reply<MarketData.HistoryBody>>,
                      start: int, end: int, i: nat)
    requires |replies| == |allocations| && i < |allocations|
    ensures var a := allocations[i];
            CollectedWeights(allocations[..i + 1]) ==
              if HasTicker(a) then CollectedWeights(allocations[..i])[a.ticker.value := a.allocationPercentage]
              else CollectedWeights(allocations[..i])
    ensures var a := allocations[i];
            CollectedReturns(allocations[..i + 1], replies[..i + 1], start, end) ==
              if Usable(a, replies[i], start, end)
              then Put(CollectedReturns(allocations[..i], replies[..i], start, end), a.ticker.value,
                       TickerSeries(a.ticker.value, replies[i], start, end).value)
              else CollectedReturns(allocations[..i], replies[..i], start, end)
  {
    assert allocations[..i + 1][..i] == allocations[..i];
    assert replies[..i + 1][..i] == replies[..i];
  }

  /** The per-allocation loop: record each weight, fetch, compute returns, and skip whatever fails. */
  method CollectReturns(allocations: seq<Allocation>, replies: seq<MarketData.Reply<MarketData.HistoryBody>>,
                        now: int, start: int, end: int)
    returns (weights: map<string, real>, assets: AssetReturns)
    requires |replies| == |allocations|
    ensures weights == CollectedWeights(allocations)
    ensures assets == CollectedReturns(allocations, replies, start, end)
  {
    weights, assets := map[], [];
    var i := 0;
    while i < |allocations|
      invariant 0 <= i <= |allocations|
      invariant weights == CollectedWeights(allocations[..i])
      invariant assets == CollectedReturns(allocations[..i], replies[..i], start, end)
    {
      CollectedStep(allocations, replies, start, end, i);
      var a := allocations[i];
      if HasTicker(a) {
        var ticker := a.ticker.value;
        weights := weights[ticker := a.allocationPercentage];
        var data := MarketData.GetHistoricalData(ticker, now, Some(start), Some(end), replies[i]);
        if data.Ok? && |data.value| > 0 {
          var prices := Closes(data.value);
          var daily := DailyReturns(prices);
          if daily.Some? {
            var dates := seq(|data.value|, k requires 0 <= k < |data.value| => data.value[k].date);
            assert TickerSeries(ticker, replies[i], start, end) == Some(ReturnSeries(dates, daily.value));
            assets := Put(assets, ticker, ReturnSeries(dates, daily.value));
          }
        }
      }
      i := i + 1;
    }
    assert allocations[..i] == allocations;
    assert replies[..i] == replies;
  }

  // ---------------------------------------------------------------------------
  // Common dates
  // ---------------------------------------------------------------------------

  function DateSet(s: ReturnSeries): set<int>
  {
    set d | d in s.dates
  }

  /**
   * The running set after each ticker: the first ticker's dates, then the intersection with each
   * further ticker's dates, except that an empty running set is replaced by the next ticker's dates.
   * Whatever the resets, every common date belongs to the last ticker.
   */
  function CommonDateSet(assets: AssetReturns): (r: set<int>)
    ensures |assets| > 0 ==> r <= DateSet(assets[|assets| - 1].1)
  {
    if assets == [] then {}
    else
      var running := CommonDateSet(assets[..|assets| - 1]);
      var dates := DateSet(assets[|assets| - 1].1);
      if running == {} then dates else running * dates
  }

  /** The dates every ticker has. */
  function Intersection(assets: AssetReturns): set<int>
    requires |assets| > 0
  {
    set d | d in DateSet(assets[0].1) && forall k :: 0 <= k < |assets| ==> d in DateSet(assets[k].1)
  }

  /** A date every ticker has is never dropped by the alignment. */
  lemma {:induction false} IntersectionKept(assets: AssetReturns)
    requires |assets| > 0
    ensures Intersection(assets) <= CommonDateSet(assets)
  {
    if |assets| > 1 {
      var prefix := assets[..|assets| - 1];
      IntersectionKept(prefix);
      assert forall k :: 0 <= k < |prefix| ==> prefix[k] == assets[k];
      assert Intersection(assets) <= Intersection(prefix);
    } else {
      assert assets[..0] == [];
    }
  }

  /** No reset happens when the running set is non-empty after every ticker but the last. */
  predicate NeverReset(assets: AssetReturns)
  {
    forall k :: 1 <= k < |assets| ==> CommonDateSet(assets[..k]) != {}
  }

  /** Without a reset, the common dates are exactly the dates every ticker has. */
  lemma {:induction false} CommonIsIntersectionWithoutReset(assets: AssetReturns)
    requires |assets| > 0
    requires NeverReset(assets)
    ensures CommonDateSet(assets) == Intersection(assets)
  {
    var n := |assets| - 1;
    if n == 0 {
      assert assets[..0] == [];
    } else {
      var prefix := assets[..n];
      assert forall k :: 1 <= k < |prefix| ==> prefix[..k] == assets[..k];
      CommonIsIntersectionWithoutReset(prefix);
      assert forall k :: 0 <= k < |prefix| ==> prefix[k] == assets[k];
      assert CommonDateSet(prefix) != {};
      forall d | d in CommonDateSet(assets) ensures d in Intersection(assets) {
        assert d in Intersection(prefix);
      }
      IntersectionKept(assets);
    }
  }

  /** The reset in action: with dates {1}, {2}, {2} the common dates are {2} although no date is shared by all three. */
  lemma ResetKeepsLaterTickersDates()
    ensures var a := [("A", ReturnSeries([1], [0.0])), ("B", ReturnSeries([2], [0.0])), ("C", ReturnSeries([2], [0.0]))];
            CommonDateSet(a) == {2} && Intersection(a) == {}
  {
    var a := [("A", ReturnSeries([1], [0.0])), ("B", ReturnSeries([2], [0.0])), ("C", ReturnSeries([2], [0.0]))];
    assert DateSet(a[0].1) == {1};
    assert DateSet(a[1].1) == {2};
    assert DateSet(a[2].1) == {2};
    assert a[..1][..0] == [];
    assert a[..2][..1] == a[..1];
    assert a[..3] == a;
    assert CommonDateSet(a[..1]) == {1};
    assert CommonDateSet(a[..2]) == {};
    assert 2 !in Intersection(a);
  }

  /** The loop that folds each ticker's date set into the running set. */
  method CommonDates(assets: AssetReturns) returns (common: set<int>)
    ensures common == CommonDateSet(assets)
  {
    common := {};
    var i := 0;
    while i < |assets|
      invariant 0 <= i <= |assets|
      invariant common == CommonDateSet(assets[..i])
    {
      assert assets[..i + 1][..i] == assets[..i];
      var dates := set d | d in assets[i].1.dates;
      if common == {} {
        common := dates;
      } else {
        common := common * dates;
      }
      i := i + 1;
    }
    assert assets[..i] == assets;
  }

  /** Some element of a non-empty set is smallest. */
  lemma {:induction false} MinimumExists(s: set<int>)
    requires s != {}
    ensures exists m :: m in s && forall x :: x in s ==> m <= x
    decreases |s|
  {
    if forall x :: x !in s {
      assert false;
    }
    var y :| y in s;
    if s != {y} {
      var rest := s - {y};
      MinimumExists(rest);
      var m :| m in rest && forall x :: x in rest ==> m <= x;
      var least := if y < m then y else m;
      forall x | x in s ensures least <= x {
        if x != y { assert x in rest; }
      }
      assert least in s;
    } else {
      assert forall x :: x in s ==> y <= x;
    }
  }

  /** The earliest date of a non-empty set. */
  function Earliest(s: set<int>): (m: int)
    requires s != {}
    ensures m in s && forall x :: x in s ==> m <= x
  {
    MinimumExists(s);
    var m :| m in s && forall x :: x in s ==> m <= x;
    m
  }

  /** `sorted(list(s))` for a set of dates: strictly ascending, the same elements. */
  function SortedDates(s: set<int>): (r: seq<int>)
    ensures forall i, j :: 0 <= i < j < |r| ==> r[i] < r[j]
    ensures forall d :: d in r <==> d in s
    ensures |r| == |s|
    decreases |s|
  {
    if s == {} then []
    else
      var m := Earliest(s);
      var rest := SortedDates(s - {m});
      assert forall k :: 0 <= k < |rest| ==> rest[k] in s - {m};
      [m] + rest
  }

  // ---------------------------------------------------------------------------
  // The aligned table
  // ---------------------------------------------------------------------------

  /** `dict(zip(dates, returns)).get(d, 0)`: the return at the last position dated d, or 0. */
  function ReturnOn(dates: seq<int>, values: seq<real>, d: int): (r: real)
    requires |dates| == |values|
    ensures d !in dates ==> r == 0.0
    ensures d in dates ==> exists j :: 0 <= j < |dates| && dates[j] == d && r == values[j]
  {
    if dates == [] then 0.0
    else if dates[|dates| - 1] == d then values[|values| - 1]
    else
      var r := ReturnOn(dates[..|dates| - 1], values[..|values| - 1], d);
      assert d in dates[..|dates| - 1] <==> d in dates;
      r
  }

  /** One ticker's column: its return on each common date, 0 where it has no such date. */
  function AlignedColumn(s: ReturnSeries, common: seq<int>): (column: seq<real>)
    requires WellFormed(s)
    ensures |column| == |common|
    ensures forall k :: 0 <= k < |common| && common[k] !in s.dates ==> column[k] == 0.0
  {
    seq(|common|, k requires 0 <= k < |common| => ReturnOn(s.dates, s.dailyReturns, common[k]))
  }

  function Tickers(assets: AssetReturns): (r: seq<string>)
    ensures |r| == |assets|
    ensures forall k :: 0 <= k < |assets| ==> r[k] == assets[k].0
  {
    seq(|assets|, k requires 0 <= k < |assets| => assets[k].0)
  }

  /** The returns table, one column per ticker in dictionary order, one row per common date. */
  function AlignedTable(assets: AssetReturns, common: seq<int>): (table: seq<seq<real>>)
    requires forall k :: 0 <= k < |assets| ==> WellFormed(assets[k].1)
    ensures |table| == |assets|
    ensures forall j :: 0 <= j < |assets| ==> table[j] == AlignedColumn(assets[j].1, common)
  {
    seq(|assets|, j requires 0 <= j < |assets| => AlignedColumn(assets[j].1, common))
  }

  /** Without a reset no zero is filled in: every aligned value is a return the ticker really had on that date. */
  lemma NoFillWithoutReset(assets: AssetReturns, j: nat, k: nat)
    requires |assets| > 0 && NeverReset(assets)
    requires forall m :: 0 <= m < |assets| ==> WellFormed(assets[m].1)
    requires j < |assets|
    requires k < |SortedDates(CommonDateSet(assets))|
    ensures var common := SortedDates(CommonDateSet(assets));
            var s := assets[j].1;
            exists i :: 0 <= i < |s.dates| && s.dates[i] == common[k] &&
                        AlignedTable(assets, common)[j][k] == s.dailyReturns[i]
  {
    var common := SortedDates(CommonDateSet(assets));
    CommonIsIntersectionWithoutReset(assets);
    assert common[k] in CommonDateSet(assets);
    assert common[k] in DateSet(assets[j].1);
    assert common[k] in assets[j].1.dates;
  }
}
