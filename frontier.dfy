/**
 * The random-weight efficient frontier and the choice of an "optimal" sample from it.
 *
 * The random weight draws are passed in, one sequence per sample, and the portfolio volatility
 * `sqrt(w' C w)` of the annualised covariance matrix C enters as a function of the weights.
 */
module Frontier {
  import opened Wrappers
  import opened RealSeq
  import opened Sorting
  import opened RiskAnalyzer

  /** The number of samples drawn when the caller does not choose one. */
  const DEFAULT_FRONTIER_SIZE: nat := 1000

  datatype FrontierPoint = FrontierPoint(ret: real, volatility: real, sharpeRatio: real, weights: map<string, real>)

  /** `returns_df.mean() * 252` for every column. */
  function AnnualMeans(table: seq<seq<real>>, rows: nat): (means: seq<real>)
    requires rows > 0 && Rectangular(table, rows)
    ensures |means| == |table|
    ensures forall j :: 0 <= j < |table| ==> means[j] * (rows as real) == Sum(table[j]) * TRADING_DAYS
  {
    seq(|table|, j requires 0 <= j < |table| => Sum(table[j]) / (rows as real) * TRADING_DAYS)
  }

  /** The inner product of the first n entries of two sequences. */
  function Dot(a: seq<real>, b: seq<real>, n: nat): real
    requires n <= |a| == |b|
  {
    if n == 0 then 0.0 else Dot(a, b, n - 1) + a[n - 1] * b[n - 1]
  }

  /** `{asset: weight for asset, weight in zip(columns, weights)}`. */
  function WeightMap(tickers: seq<string>, w: seq<real>): (m: map<string, real>)
    requires Distinct(tickers) && |w| == |tickers|
    ensures m.Keys == set t | t in tickers
    ensures forall j :: 0 <= j < |tickers| ==> m[tickers[j]] == w[j]
  {
    var m := map j | 0 <= j < |tickers| :: tickers[j] := w[j];
    assert forall t :: t in tickers ==> t in m by {
      forall t | t in tickers ensures t in m {
        var j :| 0 <= j < |tickers| && tickers[j] == t;
      }
    }
    m
  }

  /** The values of a weight map read in column order. */
  function InColumnOrder(tickers: seq<string>, m: map<string, real>): (v: seq<real>)
    requires forall t :: t in tickers ==> t in m
    ensures |v| == |tickers| && forall j :: 0 <= j < |tickers| ==> v[j] == m[tickers[j]]
  {
    seq(|tickers|, j requires 0 <= j < |tickers| => m[tickers[j]])
  }

  /** A draw of `np.random.random(n)`: n numbers in [0, 1), not all zero. */
  predicate ValidDraw(draw: seq<real>, n: nat)
  {
    |draw| == n && (forall j :: 0 <= j < n ==> 0.0 <= draw[j] < 1.0) && Sum(draw) > 0.0
  }

  /** A frontier sample's weights: keyed by exactly the table's columns, non-negative, summing to 1. */
  predicate WeightsOk(tickers: seq<string>, m: map<string, real>)
  {
    m.Keys == (set t | t in tickers) &&
    (forall t :: t in m ==> m[t] >= 0.0) &&
    Sum(InColumnOrder(tickers, m)) == 1.0
  }

  /** A valid draw normalised: non-negative weights summing to 1. */
  lemma NormalisedDraw(draw: seq<real>, n: nat)
    requires ValidDraw(draw, n)
    ensures Sum(DivideAll(draw, Sum(draw))) == 1.0
    ensures forall j :: 0 <= j < n ==> DivideAll(draw, Sum(draw))[j] >= 0.0
  {
    NormalisedSumsToOne(draw);
    forall j | 0 <= j < n ensures DivideAll(draw, Sum(draw))[j] >= 0.0 {
      QuotientNonNegative(draw[j], Sum(draw));
    }
  }

  /** Non-negative weights summing to 1, keyed by their columns, make valid frontier weights. */
  lemma WeightMapOk(tickers: seq<string>, w: seq<real>)
    requires Distinct(tickers) && |w| == |tickers|
    requires Sum(w) == 1.0 && forall j :: 0 <= j < |w| ==> w[j] >= 0.0
    ensures WeightsOk(tickers, WeightMap(tickers, w))
  {
    var m := WeightMap(tickers, w);
    assert InColumnOrder(tickers, m) == w;
    forall t | t in m ensures m[t] >= 0.0 {
      var j :| 0 <= j < |tickers| && tickers[j] == t;
    }
  }

  /** The weight map of a normalised draw: valid frontier weights that read back as the normalised draw. */
  lemma DrawWeights(tickers: seq<string>, draw: seq<real>)
    requires Distinct(tickers) && ValidDraw(draw, |tickers|)
    ensures WeightsOk(tickers, WeightMap(tickers, DivideAll(draw, Sum(draw))))
    ensures InColumnOrder(tickers, WeightMap(tickers, DivideAll(draw, Sum(draw)))) == DivideAll(draw, Sum(draw))
  {
    var w := DivideAll(draw, Sum(draw));
    NormalisedDraw(draw, |tickers|);
    WeightMapOk(tickers, w);
    assert InColumnOrder(tickers, WeightMap(tickers, w)) == w;
  }

  /** A positive volatility, and a Sharpe ratio that times the volatility gives the return. */
  predicate SharpeConsistent(p: FrontierPoint)
  {
    p.volatility > 0.0 && p.sharpeRatio * p.volatility == p.ret
  }

  /**
   * One random portfolio: the draw normalised to sum to 1 as its weights, the annual return as their inner
   * product with the mean returns, the volatility of those weights and the 0%-rate Sharpe ratio.
   */
  function Sample(tickers: seq<string>, means: seq<real>, draw: seq<real>, volatilityOf: seq<real> -> real)
    : (p: FrontierPoint)
    requires Distinct(tickers) && |means| == |tickers| && ValidDraw(draw, |tickers|)
    requires forall w :: volatilityOf(w) > 0.0
    ensures SharpeConsistent(p)
    ensures WeightsOk(tickers, p.weights)
    ensures InColumnOrder(tickers, p.weights) == DivideAll(draw, Sum(draw))
    ensures p.ret == Dot(means, InColumnOrder(tickers, p.weights), |tickers|)
    ensures p.volatility == volatilityOf(InColumnOrder(tickers, p.weights))
  {
    var w := DivideAll(draw, Sum(draw));
    var m := WeightMap(tickers, w);
    DrawWeights(tickers, draw);
    var ret := Dot(means, w, |tickers|);
    Point(ret, volatilityOf(w), m)
  }

  /** A frontier point with its Sharpe ratio at a 0% risk-free rate. */
  function Point(ret: real, vol: real, m: map<string, real>): (p: FrontierPoint)
    requires vol > 0.0
    ensures p.ret == ret && p.volatility == vol && p.weights == m
    ensures SharpeConsistent(p)
  {
    QuotientTimesDivisor(ret, vol);
    FrontierPoint(ret, vol, ret / vol, m)
  }

  /** The samples in the order they are drawn. */
  function Samples(tickers: seq<string>, means: seq<real>, draws: seq<seq<real>>, volatilityOf: seq<real> -> real)
    : (s: seq<FrontierPoint>)
    requires Distinct(tickers) && |means| == |tickers|
    requires forall k :: 0 <= k < |draws| ==> ValidDraw(draws[k], |tickers|)
    requires forall w :: volatilityOf(w) > 0.0
    ensures |s| == |draws|
    ensures forall k :: 0 <= k < |draws| ==> s[k] == Sample(tickers, means, draws[k], volatilityOf)
  {
    seq(|draws|, k requires 0 <= k < |draws| => Sample(tickers, means, draws[k], volatilityOf))
  }

  /** Sort key of `sort(key=sharpe_ratio, reverse=True)`: ascending in the negated ratio. */
  function NegatedSharpe(p: FrontierPoint): real
  {
    -p.sharpeRatio
  }

  /**
   * `generate_efficient_frontier`: one sample per draw, then ordered by non-increasing Sharpe ratio,
   * keeping the drawing order among equal ratios.
   */
  method GenerateEfficientFrontier(tickers: seq<string>, table: seq<seq<real>>, rows: nat, draws: seq<seq<real>>,
                                   volatilityOf: seq<real> -> real)
    returns (results: seq<FrontierPoint>)
    requires Distinct(tickers) && |table| == |tickers| && rows > 0 && Rectangular(table, rows)
    requires forall k :: 0 <= k < |draws| ==> ValidDraw(draws[k], |tickers|)
    requires forall w :: volatilityOf(w) > 0.0
    ensures |results| == |draws|
    ensures multiset(results) == multiset(Samples(tickers, AnnualMeans(table, rows), draws, volatilityOf))
    ensures forall i, j :: 0 <= i < j < |results| ==> results[i].sharpeRatio >= results[j].sharpeRatio
    ensures forall k :: 0 <= k < |results| ==> WeightsOk(tickers, results[k].weights)
  {
    var means := AnnualMeans(table, rows);
    var drawn: seq<FrontierPoint> := [];
    var i := 0;
    while i < |draws|
      invariant 0 <= i <= |draws|
      invariant drawn == Samples(tickers, means, draws[..i], volatilityOf)
    {
      drawn := drawn + [Sample(tickers, means, draws[i], volatilityOf)];
      i := i + 1;
    }
    assert draws[..i] == draws;
    results := SortBy(drawn, NegatedSharpe);
    assert SortedBy(results, NegatedSharpe);
    forall k | 0 <= k < |results| ensures WeightsOk(tickers, results[k].weights) {
      assert results[k] in multiset(drawn);
    }
  }

  /** A frontier sorted by non-increasing Sharpe ratio has its maximum at the front. */
  lemma FirstHasMaximumSharpe(frontier: seq<FrontierPoint>)
    requires |frontier| > 0
    requires forall i, j :: 0 <= i < j < |frontier| ==> frontier[i].sharpeRatio >= frontier[j].sharpeRatio
    ensures forall k :: 0 <= k < |frontier| ==> frontier[0].sharpeRatio >= frontier[k].sharpeRatio
  {
    forall k | 0 < k < |frontier| ensures frontier[0].sharpeRatio >= frontier[k].sharpeRatio {
    }
  }

  function Abs(x: real): (r: real)
    ensures r >= 0.0 && (r == x || r == -x)
  {
    if x < 0.0 then -x else x
  }

  /** How far a sample's return is from the target. */
  function Distance(p: FrontierPoint, target: real): real
  {
    Abs(p.ret - target)
  }

  /** `min(frontier, key=|return - target|)`: the first sample at the smallest distance. */
  function ClosestIndex(frontier: seq<FrontierPoint>, target: real): (k: nat)
    requires |frontier| > 0
    ensures k < |frontier|
    ensures forall i :: 0 <= i < |frontier| ==> Distance(frontier[k], target) <= Distance(frontier[i], target)
    ensures forall i :: 0 <= i < k ==> Distance(frontier[k], target) < Distance(frontier[i], target)
  {
    if |frontier| == 1 then 0
    else
      var n := |frontier| - 1;
      var k := ClosestIndex(frontier[..n], target);
      assert forall i :: 0 <= i < n ==> frontier[..n][i] == frontier[i];
      if Distance(frontier[n], target) < Distance(frontier[k], target) then n else k
  }

  /**
   * `get_optimal_portfolio` on a generated frontier: entry 0 without a target, else the closest
   * return, the earliest one on a tie as `min` picks it. None for an empty frontier, where the
   * program raises.
   */
  function SelectOptimal(frontier: seq<FrontierPoint>, target: Option<real>): (p: Option<FrontierPoint>)
    ensures p.Some? <==> |frontier| > 0
    ensures p.Some? ==> p.value in frontier
    ensures p.Some? && target.None? ==> p.value == frontier[0]
    ensures p.Some? && target.Some? ==>
              forall i :: 0 <= i < |frontier| ==> Distance(p.value, target.value) <= Distance(frontier[i], target.value)
    ensures p.Some? && target.Some? ==>
              exists k :: 0 <= k < |frontier| && p.value == frontier[k] &&
                          forall i :: 0 <= i < k ==> Distance(frontier[k], target.value) < Distance(frontier[i], target.value)
  {
    if |frontier| == 0 then None
    else if target.None? then Some(frontier[0])
    else Some(frontier[ClosestIndex(frontier, target.value)])
  }

  /**
   * The optimal sample among `DEFAULT_FRONTIER_SIZE` draws, picked from the generated frontier,
   * which is returned as a ghost so that the choice can be stated on it.
   */
  method GetOptimalPortfolio(tickers: seq<string>, table: seq<seq<real>>, rows: nat, draws: seq<seq<real>>,
                             volatilityOf: seq<real> -> real, target: Option<real>)
    returns (p: Option<FrontierPoint>, ghost frontier: seq<FrontierPoint>)
    requires Distinct(tickers) && |table| == |tickers| && rows > 0 && Rectangular(table, rows)
    requires |draws| == DEFAULT_FRONTIER_SIZE
    requires forall k :: 0 <= k < |draws| ==> ValidDraw(draws[k], |tickers|)
    requires forall w :: volatilityOf(w) > 0.0
    ensures p.Some?
    ensures p.value in Samples(tickers, AnnualMeans(table, rows), draws, volatilityOf)
    ensures WeightsOk(tickers, p.value.weights)
    ensures target.None? ==>
              forall q :: q in Samples(tickers, AnnualMeans(table, rows), draws, volatilityOf) ==>
                p.value.sharpeRatio >= q.sharpeRatio
    ensures target.Some? ==>
              forall q :: q in Samples(tickers, AnnualMeans(table, rows), draws, volatilityOf) ==>
                Distance(p.value, target.value) <= Distance(q, target.value)
    ensures multiset(frontier) == multiset(Samples(tickers, AnnualMeans(table, rows), draws, volatilityOf))
    ensures forall i, j :: 0 <= i < j < |frontier| ==> frontier[i].sharpeRatio >= frontier[j].sharpeRatio
    ensures p == SelectOptimal(frontier, target)
  {
    var generated := GenerateEfficientFrontier(tickers, table, rows, draws, volatilityOf);
    frontier := generated;
    p := SelectOptimal(generated, target);
    ghost var samples := Samples(tickers, AnnualMeans(table, rows), draws, volatilityOf);
    assert p.value in multiset(samples);
    ghost var k :| 0 <= k < |frontier| && frontier[k] == p.value;
    FirstHasMaximumSharpe(frontier);
    forall q | q in samples ensures q in frontier {
      assert q in multiset(frontier);
    }
  }
}
