/**
 * The market-data layer: a latest-price cache with a time-to-live in front of a primary
 * quote provider (Alpha Vantage) and a fallback provider (Finnhub), the daily-history
 * query and the symbol search. Every provider reply is an input value; nothing here
 * performs I/O.
 */
module MarketData {
  import opened Wrappers
  import opened Sorting
  import opened Time

  /** Cached prices stay valid for fifteen minutes. */
  const CACHE_DURATION: int := 15 * MINUTE

  /** Days of history returned when no start date is given. */
  const HISTORY_DEFAULT_DAYS: int := 365

  datatype Provider = AlphaVantage | Finnhub

  datatype FetchError =
    | StatusCode(provider: Provider, status: int)
    | InvalidFormat(provider: Provider, symbol: string)
    | ApiKeyNotSet(provider: Provider)
    | ConnectionFailed(reason: string)
    | MissingField(name: string)
    | BothProvidersFailed(symbol: string, primary: FetchError, fallback: FetchError)

  /** What one HTTP request to a provider produced: a response with a status and a decoded JSON body, or no response. */
  datatype Reply<B> = Response(status: int, body: B) | NoResponse(reason: string)

  /** Alpha Vantage GLOBAL_QUOTE body: the "Global Quote" object, when present, with its numeric fields. */
  datatype QuoteBody = QuoteBody(globalQuote: Option<map<string, real>>)

  /** Finnhub quote body: its top-level numeric fields ("c" is the current price). */
  datatype FinnhubBody = FinnhubBody(fields: map<string, real>)

  /** Alpha Vantage TIME_SERIES_DAILY body: the "Time Series (Daily)" entries in reply order, each a date and its fields. */
  datatype HistoryBody = HistoryBody(timeSeries: Option<seq<(int, map<string, real>)>>)

  /** Alpha Vantage SYMBOL_SEARCH body: the "bestMatches" array, when present. */
  datatype SearchBody = SearchBody(bestMatches: Option<seq<map<string, string>>>)

  datatype PricePoint = PricePoint(date: int, open: real, high: real, low: real, close: real, volume: real)

  datatype SymbolMatch = SymbolMatch(symbol: string, name: string, kind: string, region: string, currency: string)

  // ---------------------------------------------------------------------------
  // Provider reply parsing
  // ---------------------------------------------------------------------------

  /** The primary provider's quote: status 200 and a "05. price" field inside "Global Quote". */
  function ParseAlphaVantageQuote(symbol: string, reply: Reply<QuoteBody>): (r: Result<real, FetchError>)
    ensures r.Ok? <==> reply.Response? && reply.status == 200 && reply.body.globalQuote.Some?
                        && "05. price" in reply.body.globalQuote.value
    ensures r.Ok? ==> r.value == reply.body.globalQuote.value["05. price"]
    ensures reply.Response? && reply.status != 200 ==> r == Err(StatusCode(AlphaVantage, reply.status))
  {
    match reply
    case NoResponse(reason) => Err(ConnectionFailed(reason))
    case Response(status, body) =>
      if status != 200 then Err(StatusCode(AlphaVantage, status))
      else if body.globalQuote.Some? && "05. price" in body.globalQuote.value then
        Ok(body.globalQuote.value["05. price"])
      else Err(InvalidFormat(AlphaVantage, symbol))
  }

  /** The fallback provider's quote: refused before any request when its API key is empty. */
  function ParseFinnhubQuote(symbol: string, apiKey: string, reply: Reply<FinnhubBody>): (r: Result<real, FetchError>)
    ensures apiKey == "" ==> r == Err(ApiKeyNotSet(Finnhub))
    ensures r.Ok? <==> apiKey != "" && reply.Response? && reply.status == 200 && "c" in reply.body.fields
    ensures r.Ok? ==> r.value == reply.body.fields["c"]
    ensures apiKey != "" && reply.Response? && reply.status != 200 ==> r == Err(StatusCode(Finnhub, reply.status))
  {
    if apiKey == "" then Err(ApiKeyNotSet(Finnhub))
    else
      match reply
      case NoResponse(reason) => Err(ConnectionFailed(reason))
      case Response(status, body) =>
        if status != 200 then Err(StatusCode(Finnhub, status))
        else if "c" in body.fields then Ok(body.fields["c"])
        else Err(InvalidFormat(Finnhub, symbol))
  }

  /**
   * What a cache miss yields: the primary's price, else the fallback's, else an error naming the
   * symbol and carrying both underlying errors.
   */
  function FetchUncached(symbol: string, finnhubKey: string, primary: Reply<QuoteBody>, fallback: Reply<FinnhubBody>)
    : (r: Result<real, FetchError>)
    ensures ParseAlphaVantageQuote(symbol, primary).Ok? ==> r == ParseAlphaVantageQuote(symbol, primary)
    ensures ParseAlphaVantageQuote(symbol, primary).Err? && ParseFinnhubQuote(symbol, finnhubKey, fallback).Ok? ==>
              r == ParseFinnhubQuote(symbol, finnhubKey, fallback)
    ensures r.Err? <==> ParseAlphaVantageQuote(symbol, primary).Err? && ParseFinnhubQuote(symbol, finnhubKey, fallback).Err?
    ensures r.Err? ==> r.error == BothProvidersFailed(symbol, ParseAlphaVantageQuote(symbol, primary).error,
                                                              ParseFinnhubQuote(symbol, finnhubKey, fallback).error)
  {
    match ParseAlphaVantageQuote(symbol, primary)
    case Ok(price) => Ok(price)
    case Err(e) =>
      match ParseFinnhubQuote(symbol, finnhubKey, fallback)
      case Ok(price) => Ok(price)
      case Err(inner) => Err(BothProvidersFailed(symbol, e, inner))
  }

  /** Once the primary provider answers with a price, the fallback's reply cannot change the outcome. */
  lemma FallbackUnusedAfterPrimarySuccess(symbol: string, finnhubKey: string, primary: Reply<QuoteBody>,
                                          fallback1: Reply<FinnhubBody>, fallback2: Reply<FinnhubBody>)
    requires ParseAlphaVantageQuote(symbol, primary).Ok?
    ensures FetchUncached(symbol, finnhubKey, primary, fallback1) == FetchUncached(symbol, finnhubKey, primary, fallback2)
  {
  }

  // ---------------------------------------------------------------------------
  // The latest-price cache
  // ---------------------------------------------------------------------------

  /** The service object: its API keys and the two cache maps it updates in place. */
  class MarketDataService {
    const alphaVantageApiKey: string
    const finnhubApiKey: string
    var priceCache: map<string, real>
    var cacheExpiry: map<string, int>

    /** Both cache maps are always written together, so they have the same keys. */
    ghost predicate Valid()
      reads this
    {
      priceCache.Keys == cacheExpiry.Keys
    }

    constructor (alphaVantageApiKey: string, finnhubApiKey: string)
      ensures Valid()
      ensures this.alphaVantageApiKey == alphaVantageApiKey && this.finnhubApiKey == finnhubApiKey
      ensures priceCache == map[] && cacheExpiry == map[]
    {
      this.alphaVantageApiKey := alphaVantageApiKey;
      this.finnhubApiKey := finnhubApiKey;
      priceCache := map[];
      cacheExpiry := map[];
    }

    /** A hit needs a cached price and a stored expiry strictly later than now (a missing expiry reads as now). */
    predicate IsCacheHit(symbol: string, now: int)
      reads this
    {
      symbol in priceCache && now < (if symbol in cacheExpiry then cacheExpiry[symbol] else now)
    }

    /**
     * Latest price of `symbol` at instant `now`. The two replies are what the providers would answer
     * if asked; on a hit neither is consulted.
     */
    method GetLatestPrice(symbol: string, now: int, primary: Reply<QuoteBody>, fallback: Reply<FinnhubBody>)
      returns (r: Result<real, FetchError>)
      requires Valid()
      modifies this
      ensures Valid()
      ensures old(IsCacheHit(symbol, now)) ==>
                r == Ok(old(priceCache[symbol])) && priceCache == old(priceCache) && cacheExpiry == old(cacheExpiry)
      ensures !old(IsCacheHit(symbol, now)) ==> r == FetchUncached(symbol, finnhubApiKey, primary, fallback)
      ensures !old(IsCacheHit(symbol, now)) && r.Ok? ==>
                priceCache == old(priceCache)[symbol := r.value] &&
                cacheExpiry == old(cacheExpiry)[symbol := now + CACHE_DURATION]
      ensures r.Err? ==> priceCache == old(priceCache) && cacheExpiry == old(cacheExpiry)
    {
      if IsCacheHit(symbol, now) {
        return Ok(priceCache[symbol]);
      }
      var primaryPrice := ParseAlphaVantageQuote(symbol, primary);
      if primaryPrice.Ok? {
        priceCache := priceCache[symbol := primaryPrice.value];
        cacheExpiry := cacheExpiry[symbol := now + CACHE_DURATION];
        return primaryPrice;
      }
      var fallbackPrice := ParseFinnhubQuote(symbol, finnhubApiKey, fallback);
      if fallbackPrice.Ok? {
        priceCache := priceCache[symbol := fallbackPrice.value];
        cacheExpiry := cacheExpiry[symbol := now + CACHE_DURATION];
        return fallbackPrice;
      }
      r := Err(BothProvidersFailed(symbol, primaryPrice.error, fallbackPrice.error));
    }
  }

  /** A price fetched at `now` is served from the cache for every later instant before now + 15 minutes, and not after. */
  lemma FreshEntryIsHitUntilExpiry(cache: MarketDataService, symbol: string, now: int, later: int)
    requires symbol in cache.priceCache && symbol in cache.cacheExpiry
    requires cache.cacheExpiry[symbol] == now + CACHE_DURATION
    ensures cache.IsCacheHit(symbol, later) <==> later < now + CACHE_DURATION
  {
  }

  // ---------------------------------------------------------------------------
  // Daily history
  // ---------------------------------------------------------------------------

  /** Builds a point from one day's fields; a missing field raises KeyError for the first absent name. */
  function ToPricePoint(date: int, values: map<string, real>): (r: Result<PricePoint, FetchError>)
    ensures r.Ok? <==> "1. open" in values && "2. high" in values && "3. low" in values
                        && "4. close" in values && "5. volume" in values
    ensures r.Ok? ==> r.value.date == date && r.value.close == values["4. close"]
  {
    if "1. open" !in values then Err(MissingField("1. open"))
    else if "2. high" !in values then Err(MissingField("2. high"))
    else if "3. low" !in values then Err(MissingField("3. low"))
    else if "4. close" !in values then Err(MissingField("4. close"))
    else if "5. volume" !in values then Err(MissingField("5. volume"))
    else Ok(PricePoint(date, values["1. open"], values["2. high"], values["3. low"], values["4. close"], values["5. volume"]))
  }

  predicate InWindow(date: int, start: int, end: int)
  {
    start <= date <= end
  }

  /** The positions of the entries dated inside [start, end], in increasing order. */
  function WindowIndices(series: seq<(int, map<string, real>)>, start: int, end: int): (ix: seq<nat>)
    ensures forall k :: 0 <= k < |ix| ==> ix[k] < |series| && InWindow(series[ix[k]].0, start, end)
    ensures forall k, l :: 0 <= k < l < |ix| ==> ix[k] < ix[l]
    ensures forall i :: 0 <= i < |series| && InWindow(series[i].0, start, end) ==> i in ix
  {
    if series == [] then []
    else
      var n := |series| - 1;
      var prefix := WindowIndices(series[..n], start, end);
      assert forall i :: 0 <= i < n ==> series[..n][i] == series[i];
      if InWindow(series[n].0, start, end) then prefix + [n] else prefix
  }

  /**
   * The entries of `series` dated inside [start, end], converted in reply order. Entries outside the
   * window are never converted, so only an in-window entry can raise.
   */
  function WindowPoints(series: seq<(int, map<string, real>)>, start: int, end: int): (r: Result<seq<PricePoint>, FetchError>)
    ensures r.Ok? ==> forall k :: 0 <= k < |r.value| ==> InWindow(r.value[k].date, start, end)
    ensures r.Ok? <==> forall i :: 0 <= i < |series| && InWindow(series[i].0, start, end) ==>
                                   ToPricePoint(series[i].0, series[i].1).Ok?
    ensures r.Ok? ==> forall p :: p in r.value <==>
                        exists i :: 0 <= i < |series| && InWindow(series[i].0, start, end) &&
                                    ToPricePoint(series[i].0, series[i].1) == Ok(p)
  {
    if series == [] then Ok([])
    else
      var prefix := series[..|series| - 1];
      var last := series[|series| - 1];
      assert forall i :: 0 <= i < |prefix| ==> prefix[i] == series[i];
      match WindowPoints(prefix, start, end)
      case Err(e) => Err(e)
      case Ok(points) =>
        if !InWindow(last.0, start, end) then Ok(points)
        else
          match ToPricePoint(last.0, last.1)
          case Err(e) => Err(e)
          case Ok(p) => Ok(points + [p])
  }

  /**
   * The window's points in reply order: one point per in-window entry, the k-th being the conversion
   * of the k-th in-window entry, so a repeated entry gives a repeated point and nothing is merged.
   */
  lemma {:induction false} WindowPointsInOrder(series: seq<(int, map<string, real>)>, start: int, end: int)
    ensures var r := WindowPoints(series, start, end);
            r.Ok? ==> |r.value| == |WindowIndices(series, start, end)| &&
                      forall k :: 0 <= k < |r.value| ==>
                        var i := WindowIndices(series, start, end)[k];
                        ToPricePoint(series[i].0, series[i].1) == Ok(r.value[k])
  {
    if series != [] {
      var n := |series| - 1;
      WindowPointsInOrder(series[..n], start, end);
      assert forall i :: 0 <= i < n ==> series[..n][i] == series[i];
    }
  }

  function DateKey(p: PricePoint): real
  {
    p.date as real
  }

  /** The daily-history query as a function of the provider's reply: window filter, then ascending date order. */
  function History(symbol: string, reply: Reply<HistoryBody>, start: int, end: int): Result<seq<PricePoint>, FetchError>
  {
    match reply
    case NoResponse(reason) => Err(ConnectionFailed(reason))
    case Response(status, body) =>
      if status != 200 then Err(StatusCode(AlphaVantage, status))
      else if body.timeSeries.None? then Err(InvalidFormat(AlphaVantage, symbol))
      else
        match WindowPoints(body.timeSeries.value, start, end)
        case Err(e) => Err(e)
        case Ok(points) => Ok(SortBy(points, DateKey))
  }

  /** The loop that collects in-window points, in reply order. */
  method CollectWindow(series: seq<(int, map<string, real>)>, start: int, end: int)
    returns (r: Result<seq<PricePoint>, FetchError>)
    ensures r == WindowPoints(series, start, end)
  {
    var result: seq<PricePoint> := [];
    var i := 0;
    while i < |series|
      invariant 0 <= i <= |series|
      invariant WindowPoints(series[..i], start, end) == Ok(result)
    {
      var (date, values) := series[i];
      assert series[..i + 1][..i] == series[..i];
      if InWindow(date, start, end) {
        var point := ToPricePoint(date, values);
        if point.Err? {
          assert WindowPoints(series[..i + 1], start, end).Err?;
          WindowErrorPersists(series, start, end, i + 1);
          assert series[..|series|] == series;
          return Err(point.error);
        }
        result := result + [point.value];
      }
      i := i + 1;
    }
    assert series[..i] == series;
    r := Ok(result);
  }

  /** Once a prefix raises, the whole series raises with the same error. */
  lemma {:induction false} WindowErrorPersists(series: seq<(int, map<string, real>)>, start: int, end: int, n: nat)
    requires n <= |series|
    requires WindowPoints(series[..n], start, end).Err?
    ensures WindowPoints(series, start, end) == WindowPoints(series[..n], start, end)
    decreases |series| - n
  {
    if n < |series| {
      assert series[..n + 1][..n] == series[..n];
      WindowErrorPersists(series, start, end, n + 1);
    } else {
      assert series[..n] == series;
    }
  }

  /**
   * Daily history of `symbol` between `start` and `end` (defaults: end = now, start = end - 365 days).
   * Every point lies in the window, the points are ascending by date, and they are the converted
   * in-window entries of the reply, each as often as it occurs there.
   */
  method GetHistoricalData(symbol: string, now: int, start: Option<int>, end: Option<int>, reply: Reply<HistoryBody>)
    returns (r: Result<seq<PricePoint>, FetchError>)
    ensures var (s, e) := Window(now, start, end, HISTORY_DEFAULT_DAYS);
            r == History(symbol, reply, s, e)
    ensures reply.NoResponse? ==> r == Err(ConnectionFailed(reply.reason))
    ensures reply.Response? && reply.status != 200 ==> r == Err(StatusCode(AlphaVantage, reply.status))
    ensures reply.Response? && reply.status == 200 && reply.body.timeSeries.None? ==>
              r == Err(InvalidFormat(AlphaVantage, symbol))
    ensures r.Ok? ==> SortedBy(r.value, DateKey)
    ensures r.Ok? ==> var (s, e) := Window(now, start, end, HISTORY_DEFAULT_DAYS);
                      forall p :: p in r.value ==> s <= p.date <= e
    ensures r.Ok? ==> var (s, e) := Window(now, start, end, HISTORY_DEFAULT_DAYS);
                      var series := reply.body.timeSeries.value;
                      forall p :: p in r.value <==>
                        exists i :: 0 <= i < |series| && InWindow(series[i].0, s, e) &&
                                    ToPricePoint(series[i].0, series[i].1) == Ok(p)
    ensures r.Ok? ==> var (s, e) := Window(now, start, end, HISTORY_DEFAULT_DAYS);
                      multiset(r.value) == multiset(WindowPoints(reply.body.timeSeries.value, s, e).value)
  {
    var (s, e) := Window(now, start, end, HISTORY_DEFAULT_DAYS);
    match reply
    case NoResponse(reason) =>
      r := Err(ConnectionFailed(reason));
    case Response(status, body) =>
      if status != 200 {
        r := Err(StatusCode(AlphaVantage, status));
      } else if body.timeSeries.None? {
        r := Err(InvalidFormat(AlphaVantage, symbol));
      } else {
        var points := CollectWindow(body.timeSeries.value, s, e);
        if points.Err? {
          r := Err(points.error);
        } else {
          var sorted := SortBy(points.value, DateKey);
          assert forall p :: p in sorted <==> p in points.value by {
            assert multiset(sorted) == multiset(points.value);
            forall p ensures p in sorted <==> p in points.value {
              assert p in sorted <==> p in multiset(sorted);
              assert p in points.value <==> p in multiset(points.value);
            }
          }
          r := Ok(sorted);
        }
      }
  }

  // ---------------------------------------------------------------------------
  // Symbol search
  // ---------------------------------------------------------------------------

  /** One "bestMatches" item as a five-field record; a missing field raises KeyError. */
  function ToSymbolMatch(item: map<string, string>): (r: Result<SymbolMatch, FetchError>)
    ensures r.Ok? <==> "1. symbol" in item && "2. name" in item && "3. type" in item
                        && "4. region" in item && "8. currency" in item
    ensures r.Ok? ==> r.value == SymbolMatch(item["1. symbol"], item["2. name"], item["3. type"],
                                             item["4. region"], item["8. currency"])
  {
    if "1. symbol" !in item then Err(MissingField("1. symbol"))
    else if "2. name" !in item then Err(MissingField("2. name"))
    else if "3. type" !in item then Err(MissingField("3. type"))
    else if "4. region" !in item then Err(MissingField("4. region"))
    else if "8. currency" !in item then Err(MissingField("8. currency"))
    else Ok(SymbolMatch(item["1. symbol"], item["2. name"], item["3. type"], item["4. region"], item["8. currency"]))
  }

  /** The comprehension over "bestMatches": one record per item, in order; the first bad item raises. */
  function MapMatches(items: seq<map<string, string>>): (r: Result<seq<SymbolMatch>, FetchError>)
    ensures r.Ok? <==> forall i :: 0 <= i < |items| ==> ToSymbolMatch(items[i]).Ok?
    ensures r.Ok? ==> |r.value| == |items| &&
                      forall i :: 0 <= i < |items| ==> ToSymbolMatch(items[i]) == Ok(r.value[i])
  {
    if items == [] then Ok([])
    else
      match ToSymbolMatch(items[0])
      case Err(e) => Err(e)
      case Ok(m) =>
        match MapMatches(items[1..])
        case Err(e) => Err(e)
        case Ok(rest) => Ok([m] + rest)
  }

  /** Symbol search: [] when "bestMatches" is absent, one record per match otherwise, an error on a non-200 status. */
  function SearchSymbols(reply: Reply<SearchBody>): (r: Result<seq<SymbolMatch>, FetchError>)
    ensures reply.Response? && reply.status != 200 ==> r == Err(StatusCode(AlphaVantage, reply.status))
    ensures reply.Response? && reply.status == 200 && reply.body.bestMatches.None? ==> r == Ok([])
    ensures reply.Response? && reply.status == 200 && reply.body.bestMatches.Some? ==>
              var items := reply.body.bestMatches.value;
              (r.Ok? <==> forall i :: 0 <= i < |items| ==> ToSymbolMatch(items[i]).Ok?) &&
              (r.Ok? ==> |r.value| == |items| && forall i :: 0 <= i < |items| ==> ToSymbolMatch(items[i]) == Ok(r.value[i]))
    ensures reply.NoResponse? ==> r == Err(ConnectionFailed(reply.reason))
  {
    match reply
    case NoResponse(reason) => Err(ConnectionFailed(reason))
    case Response(status, body) =>
      if status != 200 then Err(StatusCode(AlphaVantage, status))
      else if body.bestMatches.None? then Ok([])
      else MapMatches(body.bestMatches.value)
  }
}
