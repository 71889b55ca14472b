/**
 * The risk metrics engine: weight normalisation, the weighted portfolio return series, the
 * cumulative-return drawdown, the upper-triangular correlation map, the whole
 * single-portfolio analysis and the failure-tolerant comparison of several portfolios.
 *
 * The sample standard deviation behind the volatility and the Pearson coefficient are not
 * computed here: they enter as function parameters.
 */
module RiskAnalyzer {
  import opened Wrappers
  import opened RealSeq
  import opened Time
  import opened RiskReturns
  import MarketData

  /** Trading days per year used to annualise daily figures. */
  const TRADING_DAYS: real := 252.0

  /** The risk-free rate of the single-portfolio Sharpe ratio (the frontier uses 0). */
  const RISK_FREE_RATE: real := 0.02

  datatype RiskError =
    | PortfolioNotFound(portfolioId: int)
    | NoValidAllocations(portfolioId: int)
    | NoHistoricalData
    /** No date is common to the collected series: the 5th percentile of the empty return series raises. */
    | EmptyReturnSeries

  /**
   * The analysis of one portfolio. Option fields are None where pandas/numpy would produce a
   * non-finite number (a zero weight sum, an empty series, a zero volatility, a zero peak).
   * The intermediate table is kept so that callers can relate the figures to it.
   */
  datatype RiskMetrics = RiskMetrics(
    tickers: seq<string>,
    commonDates: seq<int>,
    aligned: seq<seq<real>>,
    weights: Option<seq<real>>,
    portfolioReturns: Option<seq<real>>,
    volatility: Option<real>,
    expectedAnnualReturn: Option<real>,
    sharpeRatio: Option<real>,
    maxDrawdown: Option<real>,
    correlations: map<string, map<string, real>>)

  // ---------------------------------------------------------------------------
  // Weights
  // ---------------------------------------------------------------------------

  /** `[portfolio_weights.get(ticker, 0) for ticker in columns]`. */
  function WeightVector(tickers: seq<string>, weights: map<string, real>): (v: seq<real>)
    ensures |v| == |tickers|
    ensures forall j :: 0 <= j < |tickers| && tickers[j] !in weights ==> v[j] == 0.0
    ensures forall j :: 0 <= j < |tickers| && tickers[j] in weights ==> v[j] == weights[tickers[j]]
  {
    seq(|tickers|, j requires 0 <= j < |tickers| => if tickers[j] in weights then weights[tickers[j]] else 0.0)
  }

  /**
   * `weights / weights.sum()`: proportional weights summing to exactly 1, or None when the raw
   * sum is zero (numpy yields NaN or infinite weights there).
   */
  function NormalisedWeights(v: seq<real>): (r: Option<seq<real>>)
    ensures r.Some? <==> Sum(v) != 0.0
    ensures r.Some? ==> |r.value| == |v| && Sum(r.value) == 1.0
    ensures r.Some? ==> forall j :: 0 <= j < |v| ==> r.value[j] * Sum(v) == v[j]
  {
    if Sum(v) == 0.0 then None
    else
      NormalisedSumsToOne(v);
      Some(DivideAll(v, Sum(v)))
  }

  /** Cancelling a common nonzero factor in a quotient. */
  lemma CancelFactor(x: real, s: real, c: real)
    requires s != 0.0 && c != 0.0
    ensures (x * c) / (s * c) == x / s
  {
    var q := x / s;
    assert q * s == x;
    assert q * (s * c) == x * c;
  }

  /** Scaling every percentage by the same nonzero factor leaves the normalised weights unchanged. */
  lemma NormalisationIgnoresScale(v: seq<real>, c: real)
    requires c != 0.0
    ensures NormalisedWeights(Scale(v, c)) == NormalisedWeights(v)
  {
    SumScale(v, c);
    var s := Sum(v);
    if s != 0.0 {
      assert Sum(Scale(v, c)) == s * c != 0.0;
      var a, b := NormalisedWeights(Scale(v, c)).value, NormalisedWeights(v).value;
      assert a == DivideAll(Scale(v, c), s * c);
      assert b == DivideAll(v, s);
      forall j | 0 <= j < |v| ensures a[j] == b[j] {
        assert a[j] == Scale(v, c)[j] / (s * c) == (v[j] * c) / (s * c);
        assert b[j] == v[j] / s;
        CancelFactor(v[j], s, c);
      }
      assert a == b;
    } else {
      assert Sum(Scale(v, c)) == 0.0;
    }
  }

  // ---------------------------------------------------------------------------
  // Portfolio returns
  // ---------------------------------------------------------------------------

  /** A table with `cols` columns of `rows` entries each. */
  predicate Rectangular(table: seq<seq<real>>, rows: nat)
  {
    forall j :: 0 <= j < |table| ==> |table[j]| == rows
  }

  /** Row k of the table dotted with the weights: the sum over the first n columns of w[j] * table[j][k]. */
  function RowReturn(table: seq<seq<real>>, w: seq<real>, k: nat, n: nat): real
    requires n <= |table| == |w|
    requires forall j :: 0 <= j < |table| ==> k < |table[j]|
  {
    if n == 0 then 0.0 else RowReturn(table, w, k, n - 1) + w[n - 1] * table[n - 1][k]
  }

  /** `returns_df.dot(weights)`: the weighted return of every row. */
  function PortfolioReturns(table: seq<seq<real>>, w: seq<real>, rows: nat): (r: seq<real>)
    requires |table| == |w| && Rectangular(table, rows)
    ensures |r| == rows
    ensures forall k :: 0 <= k < rows ==> r[k] == RowReturn(table, w, k, |table|)
  {
    seq(rows, k requires 0 <= k < rows => RowReturn(table, w, k, |table|))
  }

  /** Over the first n columns, a row whose entries all equal x returns x times the weights' sum. */
  lemma {:induction false} RowReturnOfUniformRow(table: seq<seq<real>>, w: seq<real>, k: nat, n: nat, x: real)
    requires n <= |table| == |w|
    requires forall j :: 0 <= j < |table| ==> k < |table[j]| && table[j][k] == x
    ensures RowReturn(table, w, k, n) == Sum(w[..n]) * x
  {
    if n > 0 {
      RowReturnOfUniformRow(table, w, k, n - 1, x);
      assert w[..n][..n - 1] == w[..n - 1];
    }
  }

  /** With weights summing to 1, a day on which every ticker returned x is a day on which the portfolio returned x. */
  lemma UniformDayGivesSameReturn(table: seq<seq<real>>, w: seq<real>, rows: nat, k: nat, x: real)
    requires |table| == |w| && Rectangular(table, rows) && Sum(w) == 1.0
    requires k < rows
    requires forall j :: 0 <= j < |table| ==> table[j][k] == x
    ensures PortfolioReturns(table, w, rows)[k] == x
  {
    RowReturnOfUniformRow(table, w, k, |table|, x);
    assert w[..|table|] == w;
  }

  /** Weights 60/40 over returns A = [0, 0.01, -0.02] and B = [0, 0.02, 0.01] give [0, 0.014, -0.008]. */
  lemma TwoTickerScenario()
    ensures NormalisedWeights([60.0, 40.0]) == Some([0.6, 0.4])
    ensures PortfolioReturns([[0.0, 0.01, -0.02], [0.0, 0.02, 0.01]], [0.6, 0.4], 3) == [0.0, 0.014, -0.008]
  {
    var v := [60.0, 40.0];
    assert v[..1] == [60.0];
    assert Sum(v) == 100.0;
    var w := NormalisedWeights(v).value;
    assert w == [0.6, 0.4];
    var table := [[0.0, 0.01, -0.02], [0.0, 0.02, 0.01]];
    var r := PortfolioReturns(table, [0.6, 0.4], 3);
    assert r[1] == RowReturn(table, [0.6, 0.4], 1, 2) == 0.6 * 0.01 + 0.4 * 0.02;
    assert r[2] == RowReturn(table, [0.6, 0.4], 2, 2) == 0.6 * -0.02 + 0.4 * 0.01;
  }

  // ---------------------------------------------------------------------------
  // Maximum drawdown
  // ---------------------------------------------------------------------------

  /** `(1 + returns).cumprod()`: on day t, (1 + r[0]) compounded with the growth of days 1..t. */
  function Cumulative(r: seq<real>): (c: seq<real>)
    ensures |c| == |r|
    ensures forall t :: 0 <= t < |r| ==> c[t] == (1.0 + r[0]) * Growth(r, t)
  {
    seq(|r|, t requires 0 <= t < |r| => (1.0 + r[0]) * Growth(r, t))
  }

  /** The cumulative product starts at 1 + r[0] and each day multiplies it by 1 + r[t]. */
  lemma CumulativeStep(r: seq<real>, t: nat)
    requires 0 < t < |r|
    ensures Cumulative(r)[0] == 1.0 + r[0]
    ensures Cumulative(r)[t] == Cumulative(r)[t - 1] * (1.0 + r[t])
  {
    var g := Growth(r, t - 1);
    assert Growth(r, t) == g * (1.0 + r[t]);
    assert (1.0 + r[0]) * (g * (1.0 + r[t])) == ((1.0 + r[0]) * g) * (1.0 + r[t]);
  }

  /** While every daily return exceeds -1, the growth factor stays positive. */
  lemma {:induction false} GrowthPositive(r: seq<real>, t: nat)
    requires forall i :: 0 <= i < |r| ==> r[i] > -1.0
    requires t < |r|
    ensures Growth(r, t) > 0.0
  {
    if t > 0 {
      GrowthPositive(r, t - 1);
      ProductPositive(Growth(r, t - 1), 1.0 + r[t]);
    }
  }

  lemma ProductPositive(a: real, b: real)
    requires a > 0.0 && b > 0.0
    ensures a * b > 0.0
  {
  }

  /** While every daily return exceeds -1, the cumulative value stays positive. */
  lemma CumulativePositive(r: seq<real>, t: nat)
    requires forall i :: 0 <= i < |r| ==> r[i] > -1.0
    requires t < |r|
    ensures Cumulative(r)[t] > 0.0
  {
    GrowthPositive(r, t);
    ProductPositive(1.0 + r[0], Growth(r, t));
  }

  /** The largest element of a non-empty sequence. */
  function Max(s: seq<real>): (x: real)
    requires s != []
    ensures x in s
    ensures forall k :: 0 <= k < |s| ==> s[k] <= x
  {
    if |s| == 1 then s[0]
    else
      var m := Max(s[..|s| - 1]);
      assert forall k :: 0 <= k < |s| - 1 ==> s[..|s| - 1][k] == s[k];
      if s[|s| - 1] > m then s[|s| - 1] else m
  }

  /** The smallest element of a non-empty sequence. */
  function Min(s: seq<real>): (x: real)
    requires s != []
    ensures x in s
    ensures forall k :: 0 <= k < |s| ==> x <= s[k]
  {
    if |s| == 1 then s[0]
    else
      var m := Min(s[..|s| - 1]);
      assert forall k :: 0 <= k < |s| - 1 ==> s[..|s| - 1][k] == s[k];
      if s[|s| - 1] < m then s[|s| - 1] else m
  }

  /** `cum.cummax()`: the peak of the values up to each day. */
  function RunningMax(c: seq<real>): (m: seq<real>)
    ensures |m| == |c|
    ensures forall t :: 0 <= t < |c| ==> m[t] == Max(c[..t + 1])
  {
    seq(|c|, t requires 0 <= t < |c| => Max(c[..t + 1]))
  }

  /** The peak on day t is one of the values up to day t and is at least every one of them. */
  lemma RunningMaxIsPeak(c: seq<real>, t: nat)
    requires t < |c|
    ensures forall i :: 0 <= i <= t ==> c[i] <= RunningMax(c)[t]
    ensures exists i :: 0 <= i <= t && RunningMax(c)[t] == c[i]
  {
    var p := c[..t + 1];
    assert forall i :: 0 <= i <= t ==> p[i] == c[i];
    var x := Max(p);
    var i :| 0 <= i < |p| && p[i] == x;
  }

  /** `cum / peak - 1` for each day; None if some peak is zero (pandas yields NaN or infinity there). */
  function Drawdowns(r: seq<real>): (d: Option<seq<real>>)
    ensures d.Some? <==> forall t :: 0 <= t < |r| ==> RunningMax(Cumulative(r))[t] != 0.0
    ensures d.Some? ==> |d.value| == |r|
  {
    var c := Cumulative(r);
    var m := RunningMax(c);
    if forall t :: 0 <= t < |r| ==> m[t] != 0.0 then
      Some(seq(|r|, t requires 0 <= t < |r| => c[t] / m[t] - 1.0))
    else None
  }

  /** `drawdown.min()`; None for an empty series or when a drawdown is not finite. */
  function MaxDrawdown(r: seq<real>): (x: Option<real>)
    ensures x.Some? <==> |r| > 0 && Drawdowns(r).Some?
    ensures x.Some? ==> x.value in Drawdowns(r).value
    ensures x.Some? ==> forall t :: 0 <= t < |r| ==> x.value <= Drawdowns(r).value[t]
  {
    match Drawdowns(r)
    case None => None
    case Some(d) => if d == [] then None else Some(Min(d))
  }

  lemma QuotientAtMostOne(x: real, y: real)
    requires 0.0 < x <= y
    ensures x / y <= 1.0
  {
  }

  /** A value at or below a positive peak is a non-positive drawdown. */
  lemma DrawdownBelowPeak(x: real, y: real)
    requires 0.0 < x <= y
    ensures x / y - 1.0 <= 0.0
  {
    QuotientAtMostOne(x, y);
  }

  /** While every daily return exceeds -1, each day's value is positive and at most its peak. */
  lemma PeaksPositive(r: seq<real>)
    requires forall i :: 0 <= i < |r| ==> r[i] > -1.0
    ensures forall t :: 0 <= t < |r| ==> 0.0 < Cumulative(r)[t] <= RunningMax(Cumulative(r))[t]
  {
    var c := Cumulative(r);
    forall t | 0 <= t < |r| ensures 0.0 < c[t] <= RunningMax(c)[t] {
      CumulativePositive(r, t);
      RunningMaxIsPeak(c, t);
    }
  }

  /** Every drawdown is at most 0 and the first is exactly 0, so the maximum drawdown is at most 0. */
  lemma DrawdownNonPositive(r: seq<real>)
    requires |r| > 0
    requires forall i :: 0 <= i < |r| ==> r[i] > -1.0
    ensures Drawdowns(r).Some?
    ensures forall t :: 0 <= t < |r| ==> Drawdowns(r).value[t] <= 0.0
    ensures Drawdowns(r).value[0] == 0.0
    ensures MaxDrawdown(r).Some? && MaxDrawdown(r).value <= 0.0
  {
    PeaksPositive(r);
    var c := Cumulative(r);
    var m := RunningMax(c);
    var d := Drawdowns(r).value;
    forall t | 0 <= t < |r| ensures d[t] <= 0.0 {
      DrawdownBelowPeak(c[t], m[t]);
    }
    RunningMaxIsPeak(c, 0);
    assert m[0] == c[0];
    NoDrawdownAtPeak(c[0]);
  }

  lemma NoDrawdownAtPeak(x: real)
    requires x != 0.0
    ensures x / x - 1.0 == 0.0
  {
  }

  lemma {:induction false} RisingUpTo(c: seq<real>, i: nat, t: nat)
    requires forall k :: 0 < k < |c| ==> c[k - 1] <= c[k]
    requires i <= t < |c|
    ensures c[i] <= c[t]
    decreases t - i
  {
    if i < t {
      RisingUpTo(c, i + 1, t);
    }
  }

  /** A value curve that never falls is its own running maximum. */
  lemma RunningMaxOfRising(c: seq<real>, t: nat)
    requires forall i :: 0 < i < |c| ==> c[i - 1] <= c[i]
    requires t < |c|
    ensures RunningMax(c)[t] == c[t]
  {
    RunningMaxIsPeak(c, t);
    var i :| 0 <= i <= t && RunningMax(c)[t] == c[i];
    RisingUpTo(c, i, t);
  }

  lemma GrowsByNonNegative(a: real, b: real)
    requires a > 0.0 && b >= 0.0
    ensures a <= a * (1.0 + b)
  {
    assert a * (1.0 + b) == a + a * b;
  }

  /** Without a negative day the cumulative value never falls. */
  lemma CumulativeRising(r: seq<real>)
    requires forall i :: 0 <= i < |r| ==> r[i] >= 0.0
    ensures forall i :: 0 < i < |r| ==> Cumulative(r)[i - 1] <= Cumulative(r)[i]
  {
    var c := Cumulative(r);
    forall i | 0 < i < |r| ensures c[i - 1] <= c[i] {
      CumulativePositive(r, i - 1);
      CumulativeStep(r, i);
      GrowsByNonNegative(c[i - 1], r[i]);
    }
  }

  /** No negative day means no drawdown: the maximum drawdown is exactly 0. */
  lemma NoDrawdownWithoutLosses(r: seq<real>)
    requires |r| > 0
    requires forall i :: 0 <= i < |r| ==> r[i] >= 0.0
    ensures MaxDrawdown(r) == Some(0.0)
  {
    DrawdownNonPositive(r);
    CumulativeRising(r);
    var c := Cumulative(r);
    var m := RunningMax(c);
    var d := Drawdowns(r).value;
    forall t | 0 <= t < |r| ensures d[t] == 0.0 {
      RunningMaxOfRising(c, t);
      CumulativePositive(r, t);
      NoDrawdownAtPeak(c[t]);
    }
    var x := MaxDrawdown(r).value;
    assert x in d;
  }
  // ---------------------------------------------------------------------------
  // Annualised figures
  // ---------------------------------------------------------------------------

  /** `portfolio_returns.mean() * 252`; None for an empty series. */
  function ExpectedAnnualReturn(r: seq<real>): (x: Option<real>)
    ensures x.Some? <==> |r| > 0
    ensures x.Some? ==> x.value * (|r| as real) == Sum(r) * TRADING_DAYS
  {
    if |r| == 0 then None else Some(Sum(r) / (|r| as real) * TRADING_DAYS)
  }

  /** (expected annual return - 2%) / volatility; None where either is missing or the volatility is zero. */
  function SharpeRatio(expected: Option<real>, volatility: Option<real>): (s: Option<real>)
    ensures s.Some? <==> expected.Some? && volatility.Some? && volatility.value != 0.0
    ensures s.Some? ==> s.value * volatility.value == expected.value - RISK_FREE_RATE
  {
    if expected.Some? && volatility.Some? && volatility.value != 0.0 then
      Some((expected.value - RISK_FREE_RATE) / volatility.value)
    else None
  }

  // ---------------------------------------------------------------------------
  // Correlations
  // ---------------------------------------------------------------------------

  predicate Distinct(tickers: seq<string>)
  {
    forall i, j :: 0 <= i < j < |tickers| ==> tickers[i] != tickers[j]
  }

  /** One row of the correlation dictionary: `pearson` of column i with each column j >= i. */
  method CorrelationRow(tickers: seq<string>, table: seq<seq<real>>, pearson: (seq<real>, seq<real>) -> real, i: nat)
    returns (row: map<string, real>)
    requires Distinct(tickers) && |table| == |tickers| && i < |tickers|
    ensures forall t :: t in row ==> t in tickers
    ensures forall b :: 0 <= b < |tickers| ==> (tickers[b] in row <==> i <= b)
    ensures forall b :: i <= b < |tickers| ==> row[tickers[b]] == pearson(table[i], table[b])
  {
    row := map[];
    var j := i;
    while j < |tickers|
      invariant i <= j <= |tickers|
      invariant forall t :: t in row ==> t in tickers[i..j]
      invariant forall b :: i <= b < j ==> tickers[b] in row && row[tickers[b]] == pearson(table[i], table[b])
    {
      row := row[tickers[j] := pearson(table[i], table[j])];
      j := j + 1;
    }
    forall b | 0 <= b < i ensures tickers[b] !in row {
      assert forall k :: 0 <= k < |tickers[i..j]| ==> tickers[i..j][k] == tickers[i + k] != tickers[b];
    }
  }

  /**
   * The nested correlation dictionary: an entry for every ticker, holding an entry for each ticker at
   * the same or a later column, valued by `pearson` of the two columns.
   */
  method Correlations(tickers: seq<string>, table: seq<seq<real>>, pearson: (seq<real>, seq<real>) -> real)
    returns (m: map<string, map<string, real>>)
    requires Distinct(tickers) && |table| == |tickers|
    ensures forall t :: t in m <==> t in tickers
    ensures forall a, b :: 0 <= a < |tickers| && 0 <= b < |tickers| ==> (tickers[b] in m[tickers[a]] <==> a <= b)
    ensures forall a :: 0 <= a < |tickers| ==> forall t :: t in m[tickers[a]] ==> t in tickers
    ensures forall a, b :: 0 <= a <= b < |tickers| ==> m[tickers[a]][tickers[b]] == pearson(table[a], table[b])
  {
    m := map[];
    var i := 0;
    while i < |tickers|
      invariant 0 <= i <= |tickers|
      invariant forall t :: t in m ==> t in tickers[..i]
      invariant forall a :: 0 <= a < i ==> tickers[a] in m && RowOf(m[tickers[a]], tickers, table, pearson, a)
    {
      var row := CorrelationRow(tickers, table, pearson, i);
      m := m[tickers[i] := row];
      i := i + 1;
    }
    forall t | t in tickers ensures t in m {
      var a :| 0 <= a < |tickers| && tickers[a] == t;
    }
  }

  /** `row` is the correlation row of column a. */
  ghost predicate RowOf(row: map<string, real>, tickers: seq<string>, table: seq<seq<real>>,
                        pearson: (seq<real>, seq<real>) -> real, a: nat)
    requires |table| == |tickers| && a < |tickers|
  {
    (forall t :: t in row ==> t in tickers) &&
    (forall b :: 0 <= b < |tickers| ==> (tickers[b] in row <==> a <= b)) &&
    (forall b :: a <= b < |tickers| ==> tickers[b] in row && row[tickers[b]] == pearson(table[a], table[b]))
  }
  // ---------------------------------------------------------------------------
  // The whole analysis
  // ---------------------------------------------------------------------------

  /** The portfolio returns for normalised weights, or None where the weights are not finite. */
  function WeightedReturns(table: seq<seq<real>>, weights: Option<seq<real>>, rows: nat): (r: Option<seq<real>>)
    requires Rectangular(table, rows)
    requires weights.Some? ==> |weights.value| == |table|
    ensures r.Some? <==> weights.Some?
    ensures r.Some? ==> |r.value| == rows
    ensures r.Some? ==> forall k :: 0 <= k < rows ==> r.value[k] == RowReturn(table, weights.value, k, |table|)
  {
    if weights.Some? then Some(PortfolioReturns(table, weights.value, rows)) else None
  }

  lemma DistinctTickers(assets: AssetReturns)
    requires DistinctKeys(assets)
    ensures Distinct(Tickers(assets))
  {
  }

  /**
   * The figures computed from the collected return series, the raw weight of each ticker and the
   * correlation dictionary built beside them.
   */
  function Analysis(assets: AssetReturns, weightMap: map<string, real>, annualVolatility: seq<real> -> real,
                    correlations: map<string, map<string, real>>): (m: RiskMetrics)
    requires forall k :: 0 <= k < |assets| ==> WellFormed(assets[k].1)
    ensures m.tickers == Tickers(assets) && m.correlations == correlations
    ensures m.commonDates == SortedDates(CommonDateSet(assets))
    ensures |m.aligned| == |m.tickers| && Rectangular(m.aligned, |m.commonDates|)
    ensures m.weights.Some? ==> |m.weights.value| == |m.tickers| && Sum(m.weights.value) == 1.0
    ensures m.portfolioReturns.Some? <==> m.weights.Some?
    ensures m.portfolioReturns.Some? ==> |m.portfolioReturns.value| == |m.commonDates|
    ensures m.volatility.Some? <==> m.portfolioReturns.Some? && |m.commonDates| >= 2
    ensures m.volatility.Some? ==> m.volatility.value == annualVolatility(m.portfolioReturns.value)
    ensures m.aligned == AlignedTable(assets, m.commonDates)
    ensures m.weights == NormalisedWeights(WeightVector(m.tickers, weightMap))
    ensures m.portfolioReturns.Some? ==>
              forall k :: 0 <= k < |m.commonDates| ==> m.portfolioReturns.value[k] == RowReturn(m.aligned, m.weights.value, k, |m.tickers|)
    ensures m.expectedAnnualReturn.Some? <==> m.portfolioReturns.Some? && |m.commonDates| > 0
    ensures m.expectedAnnualReturn.Some? ==> m.expectedAnnualReturn == ExpectedAnnualReturn(m.portfolioReturns.value)
    ensures m.maxDrawdown.Some? ==> m.portfolioReturns.Some? && |m.commonDates| > 0
    ensures m.portfolioReturns.Some? ==> m.maxDrawdown == MaxDrawdown(m.portfolioReturns.value)
    ensures m.sharpeRatio == SharpeRatio(m.expectedAnnualReturn, m.volatility)
  {
    var dates := SortedDates(CommonDateSet(assets));
    var tickers := Tickers(assets);
    var table := AlignedTable(assets, dates);
    var weights := NormalisedWeights(WeightVector(tickers, weightMap));
    var portfolioReturns := WeightedReturns(table, weights, |dates|);
    var volatility := if portfolioReturns.Some? && |dates| >= 2 then Some(annualVolatility(portfolioReturns.value)) else None;
    var expected := if portfolioReturns.Some? then ExpectedAnnualReturn(portfolioReturns.value) else None;
    var drawdown := if portfolioReturns.Some? then MaxDrawdown(portfolioReturns.value) else None;
    RiskMetrics(tickers, dates, table, weights, portfolioReturns, volatility, expected,
                SharpeRatio(expected, volatility), drawdown, correlations)
  }

  /** Over the collected series of the portfolio's tickers, the weights are each ticker's share of the collected percentages. */
  lemma AnalysisWeightsAreShares(assets: AssetReturns, weightMap: map<string, real>, annualVolatility: seq<real> -> real,
                                 correlations: map<string, map<string, real>>, j: nat)
    requires forall k :: 0 <= k < |assets| ==> WellFormed(assets[k].1)
    requires j < |assets| && assets[j].0 in weightMap
    requires Analysis(assets, weightMap, annualVolatility, correlations).weights.Some?
    ensures var v := WeightVector(Tickers(assets), weightMap);
            Analysis(assets, weightMap, annualVolatility, correlations).weights.value[j] * Sum(v) == weightMap[assets[j].0]
  {
  }

  /**
   * The drawdown properties carried over to the reported figures: when every portfolio return is
   * above -100%, the reported maximum drawdown exists and is at most 0, and exactly 0 when no day loses.
   */
  lemma AnalysisDrawdownNonPositive(assets: AssetReturns, weightMap: map<string, real>, annualVolatility: seq<real> -> real,
                                    correlations: map<string, map<string, real>>)
    requires forall k :: 0 <= k < |assets| ==> WellFormed(assets[k].1)
    requires var m := Analysis(assets, weightMap, annualVolatility, correlations);
             m.portfolioReturns.Some? && |m.commonDates| > 0 &&
             forall k :: 0 <= k < |m.commonDates| ==> m.portfolioReturns.value[k] > -1.0
    ensures var m := Analysis(assets, weightMap, annualVolatility, correlations);
            m.maxDrawdown.Some? && m.maxDrawdown.value <= 0.0 &&
            ((forall k :: 0 <= k < |m.commonDates| ==> m.portfolioReturns.value[k] >= 0.0) ==> m.maxDrawdown.value == 0.0)
  {
    var m := Analysis(assets, weightMap, annualVolatility, correlations);
    var r := m.portfolioReturns.value;
    DrawdownNonPositive(r);
    if forall k :: 0 <= k < |r| ==> r[k] >= 0.0 {
      NoDrawdownWithoutLosses(r);
    }
  }

  /** The start of the look-back window: `days` days before `now`. */
  function LookbackStart(now: int, days: int): (start: int)
    ensures start + days * DAY == now
  {
    Window(now, None, None, days).0
  }

  /**
   * Risk metrics of one portfolio over the `days` days before `now`. `replies[i]` is the history
   * provider's reply for `allocations[i]`; `annualVolatility` stands for `std() * sqrt(252)` and
   * `pearson` for the pairwise correlation coefficient.
   */
  method CalculatePortfolioRiskMetrics(portfolioId: int, portfolioExists: bool, allocations: seq<Allocation>,
                                       replies: seq<MarketData.Reply<MarketData.HistoryBody>>, now: int, days: int,
                                       annualVolatility: seq<real> -> real,
                                       pearson: (seq<real>, seq<real>) -> real)
    returns (r: Result<RiskMetrics, RiskError>)
    requires |replies| == |allocations|
    ensures !portfolioExists ==> r == Err(PortfolioNotFound(portfolioId))
    ensures portfolioExists && (forall i :: 0 <= i < |allocations| ==> allocations[i].ticker.None?) ==>
              r == Err(NoValidAllocations(portfolioId))
    ensures portfolioExists && (exists i :: 0 <= i < |allocations| && allocations[i].ticker.Some?) ==>
              (r == Err(NoHistoricalData) <==>
               forall i :: 0 <= i < |allocations| ==> !Usable(allocations[i], replies[i], LookbackStart(now, days), now))
    ensures portfolioExists && (exists i :: 0 <= i < |allocations| && Usable(allocations[i], replies[i], LookbackStart(now, days), now)) ==>
              (r.Ok? <==> CommonDateSet(CollectedReturns(allocations, replies, LookbackStart(now, days), now)) != {}) &&
              (r.Err? ==> r.error == EmptyReturnSeries)
    ensures r.Ok? ==> |r.value.commonDates| > 0
    ensures r.Ok? ==>
              var assets := CollectedReturns(allocations, replies, LookbackStart(now, days), now);
              |assets| > 0 && Distinct(r.value.tickers) &&
              r.value == Analysis(assets, CollectedWeights(allocations), annualVolatility, r.value.correlations)
    ensures r.Ok? ==> |r.value.aligned| == |r.value.tickers|
    ensures r.Ok? ==>
              var t := r.value.tickers;
              (forall x :: x in r.value.correlations <==> x in t) &&
              (forall i, j :: 0 <= i < |t| && 0 <= j < |t| ==> (t[j] in r.value.correlations[t[i]] <==> i <= j)) &&
              (forall i, j :: 0 <= i <= j < |t| ==>
                 r.value.correlations[t[i]][t[j]] == pearson(r.value.aligned[i], r.value.aligned[j]))
  {
    if !portfolioExists {
      return Err(PortfolioNotFound(portfolioId));
    }
    if forall i :: 0 <= i < |allocations| ==> allocations[i].ticker.None? {
      return Err(NoValidAllocations(portfolioId));
    }
    var start, end := LookbackStart(now, days), now;
    var weightMap, assets := CollectReturns(allocations, replies, now, start, end);
    CollectedEmptyIffAllSkipped(allocations, replies, start, end);
    if |assets| == 0 {
      return Err(NoHistoricalData);
    }
    var common := CommonDates(assets);
    var dates := SortedDates(common);
    if |dates| == 0 {
      return Err(EmptyReturnSeries);
    }
    var tickers := Tickers(assets);
    DistinctTickers(assets);
    var table := AlignedTable(assets, dates);
    var correlations := Correlations(tickers, table, pearson);
    r := Ok(Analysis(assets, weightMap, annualVolatility, correlations));
  }

  // ---------------------------------------------------------------------------
  // Comparing portfolios
  // ---------------------------------------------------------------------------

  datatype PortfolioInfo = PortfolioInfo(name: string, riskProfile: string)

  datatype Comparison = Comparison(name: string, riskProfile: string, metrics: RiskMetrics)

  /**
   * The comparison dictionary after processing `ids` in order, where `outcomes[i]` is what the
   * analysis of `ids[i]` returned: a failure is skipped, a success (re)writes that id's entry.
   */
  function Compared(ids: seq<int>, outcomes: seq<Result<RiskMetrics, RiskError>>, portfolios: map<int, PortfolioInfo>)
    : (r: map<int, Comparison>)
    requires |outcomes| == |ids|
    ensures forall id :: id in r ==> id in portfolios && exists i :: 0 <= i < |ids| && ids[i] == id && outcomes[i].Ok?
    ensures forall i :: 0 <= i < |ids| && outcomes[i].Ok? && ids[i] in portfolios ==> ids[i] in r
  {
    if ids == [] then map[]
    else
      var n := |ids| - 1;
      var prefix := Compared(ids[..n], outcomes[..n], portfolios);
      assert forall i :: 0 <= i < n ==> ids[..n][i] == ids[i] && outcomes[..n][i] == outcomes[i];
      if outcomes[n].Ok? && ids[n] in portfolios then
        prefix[ids[n] := Comparison(portfolios[ids[n]].name, portfolios[ids[n]].riskProfile, outcomes[n].value)]
      else prefix
  }

  /** The entry of an id is built from the last successful analysis of that id; other ids' outcomes do not matter. */
  lemma ComparedEntryIsLastSuccess(ids: seq<int>, outcomes: seq<Result<RiskMetrics, RiskError>>,
                                   portfolios: map<int, PortfolioInfo>, id: int)
    requires |outcomes| == |ids|
    requires id in Compared(ids, outcomes, portfolios)
    ensures exists i :: 0 <= i < |ids| && ids[i] == id && outcomes[i].Ok? &&
                        Compared(ids, outcomes, portfolios)[id] ==
                          Comparison(portfolios[id].name, portfolios[id].riskProfile, outcomes[i].value) &&
                        forall k :: i < k < |ids| && ids[k] == id ==> outcomes[k].Err?
  {
    var i := LastSuccessOf(ids, outcomes, portfolios, id);
  }

  /** The index of the last successful analysis of id, found by walking back from the end. */
  lemma {:induction false} LastSuccessOf(ids: seq<int>, outcomes: seq<Result<RiskMetrics, RiskError>>,
                                         portfolios: map<int, PortfolioInfo>, id: int)
    returns (i: nat)
    requires |outcomes| == |ids|
    requires id in Compared(ids, outcomes, portfolios)
    ensures i < |ids| && ids[i] == id && outcomes[i].Ok?
    ensures Compared(ids, outcomes, portfolios)[id] ==
              Comparison(portfolios[id].name, portfolios[id].riskProfile, outcomes[i].value)
    ensures forall k :: i < k < |ids| && ids[k] == id ==> outcomes[k].Err?
  {
    var n := |ids| - 1;
    var prefix := Compared(ids[..n], outcomes[..n], portfolios);
    ComparedStep(ids, outcomes, portfolios);
    if outcomes[n].Ok? && ids[n] in portfolios && ids[n] == id {
      i := n;
    } else {
      assert id in prefix;
      i := LastSuccessOf(ids[..n], outcomes[..n], portfolios, id);
      assert ids[..n][i] == ids[i] && outcomes[..n][i] == outcomes[i];
      assert forall k :: 0 <= k < n ==> ids[..n][k] == ids[k] && outcomes[..n][k] == outcomes[k];
    }
  }

  /** One more outcome: a success for a known portfolio (re)writes its entry, anything else changes nothing. */
  lemma ComparedStep(ids: seq<int>, outcomes: seq<Result<RiskMetrics, RiskError>>, portfolios: map<int, PortfolioInfo>)
    requires |outcomes| == |ids| > 0
    ensures var n := |ids| - 1;
            var prefix := Compared(ids[..n], outcomes[..n], portfolios);
            Compared(ids, outcomes, portfolios) ==
              if outcomes[n].Ok? && ids[n] in portfolios
              then prefix[ids[n] := Comparison(portfolios[ids[n]].name, portfolios[ids[n]].riskProfile, outcomes[n].value)]
              else prefix
  {
  }

  /** The loop over the requested ids; a failing analysis is reported and skipped. */
  method ComparePortfolios(ids: seq<int>, outcomes: seq<Result<RiskMetrics, RiskError>>, portfolios: map<int, PortfolioInfo>)
    returns (results: map<int, Comparison>)
    requires |outcomes| == |ids|
    ensures results == Compared(ids, outcomes, portfolios)
    ensures results.Keys <= set i | 0 <= i < |ids| :: ids[i]
  {
    results := map[];
    var i := 0;
    while i < |ids|
      invariant 0 <= i <= |ids|
      invariant results == Compared(ids[..i], outcomes[..i], portfolios)
    {
      assert ids[..i + 1][..i] == ids[..i];
      assert outcomes[..i + 1][..i] == outcomes[..i];
      if outcomes[i].Ok? && ids[i] in portfolios {
        var info := portfolios[ids[i]];
        results := results[ids[i] := Comparison(info.name, info.riskProfile, outcomes[i].value)];
      }
      i := i + 1;
    }
    assert ids[..i] == ids;
    assert outcomes[..i] == outcomes;
    forall id | id in results ensures id in set i | 0 <= i < |ids| :: ids[i] {
      var k :| 0 <= k < |ids| && ids[k] == id && outcomes[k].Ok?;
    }
  }
}
