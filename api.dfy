/** The fetch wrappers of YahooFinanceAPI (financial-engine-cpp/src/yahoo_finance_api.cpp):
    one request, its decoded response handed to a parser, and every failure
    reduced to "absent" for that request. */
module YahooFinanceApi {
  import opened Outcomes
  import opened JsonValues
  import opened HistoricalParser
  import opened TrendingParser

  /** std::chrono::hours(24 * days), in seconds per day. */
  const SecondsPerDay: int := 86400
  /** The look-back getLatestStockPrice asks for. */
  const LatestLookbackDays: int := 2
  /** The default arguments of the header: `days = 30` for getHistoricalData
      and getHistoricalDataBatch, `limit = 20` for getTrendingStocks. Dafny has
      no default arguments; a caller that omits them passes these. */
  const DefaultLookbackDays: int := 30
  const DefaultTrendingLimit: int := 20

  /** What the transport is asked for: the chart of a symbol between two Unix
      times at a daily interval, or the US trending tickers. */
  datatype Request =
    | ChartRequest(symbol: string, period1: int, period2: int)
    | TrendingRequest(count: int)

  /** What one call sees of the outside world: the wall clock, in whole
      seconds, and the body the transport returns for a request (empty on a
      transport failure). */
  datatype World = World(now: int, transport: Request -> string)

  /** The foreign libraries: the JSON decoder (None when it throws) and the
      rendering of a Unix time as local calendar text (localtime, strftime). */
  datatype Host = Host(decode: string -> Option<Json>, stamp: int -> string)

  /** The request getHistoricalData sends: a window of `days` days ending now. */
  function HistoricalRequest(symbol: string, days: int, now: int): (q: Request)
    ensures q.ChartRequest? && q.symbol == symbol && q.period2 == now
    ensures q.period2 - q.period1 == SecondsPerDay * days
  {
    ChartRequest(symbol, now - SecondsPerDay * days, now)
  }

  /** The body the transport returns for that request. */
  function ChartBody(symbol: string, days: int, w: World): string
  {
    w.transport(HistoricalRequest(symbol, days, w.now))
  }

  /** getHistoricalData: absent when the body is empty, when decoding throws
      or when the parser throws; otherwise present with whatever the parser
      returned, the empty series included. */
  function GetHistoricalData(symbol: string, days: int, w: World, host: Host): (r: Outcome<Option<Series>>)
    ensures !r.Thrown?
    ensures var body := ChartBody(symbol, days, w);
            r == Done(None) <==>
              body == [] || host.decode(body).None? || ParseHistorical(host.decode(body).value, host.stamp).Thrown?
    ensures var body := ChartBody(symbol, days, w);
            r.Done? && r.value.Some? <==>
              body != [] && host.decode(body).Some? && ParseHistorical(host.decode(body).value, host.stamp).Done?
    ensures var body := ChartBody(symbol, days, w);
            r.Done? && r.value.Some? ==> ParseHistorical(host.decode(body).value, host.stamp) == Done(r.value.value)
  {
    var body := ChartBody(symbol, days, w);
    if body == [] then Done(None)
    else
      match host.decode(body)
      case None => Done(None)
      case Some(doc) =>
        match ParseHistorical(doc, host.stamp)
        case Done(bars) => Done(Some(bars))
        case Thrown => Done(None)
        case Undefined => Undefined
  }

  /** A decodable body without a chart is present and empty, not absent. */
  lemma EmptyChartIsPresent(symbol: string, days: int, w: World, host: Host)
    requires ChartBody(symbol, days, w) != []
    requires host.decode(ChartBody(symbol, days, w)).Some?
    requires ChartResults(host.decode(ChartBody(symbol, days, w)).value).None?
    ensures GetHistoricalData(symbol, days, w, host) == Done(Some([]))
  {
  }

  /** getLatestStockPrice: the last bar of a two-day fetch; absent when that
      fetch is absent or empty. */
  function GetLatestStockPrice(symbol: string, w: World, host: Host): (r: Outcome<Option<StockPrice>>)
    ensures !r.Thrown?
    ensures var fetched := GetHistoricalData(symbol, LatestLookbackDays, w, host);
            && (r.Undefined? <==> fetched.Undefined?)
            && (r == Done(None) <==> fetched == Done(None) || fetched == Done(Some([])))
            && (r.Done? && r.value.Some? ==>
                  fetched.Done? && fetched.value.Some? && |fetched.value.value| > 0
                  && r.value.value == fetched.value.value[|fetched.value.value| - 1])
  {
    var fetched :- GetHistoricalData(symbol, LatestLookbackDays, w, host);
    if fetched.None? || fetched.value == [] then Done(None)
    else Done(Some(fetched.value[|fetched.value| - 1]))
  }

  /** The latest price is the bar of the last index at which all five price
      columns hold a value; every later index of the response was a gap. */
  lemma LatestIsLastCompleteDay(symbol: string, w: World, host: Host, b: StockPrice)
    requires GetLatestStockPrice(symbol, w, host) == Done(Some(b))
    ensures var body := ChartBody(symbol, LatestLookbackDays, w);
            && host.decode(body).Some?
            && Locate(host.decode(body).value, SeriesKey).Done?
            && Locate(host.decode(body).value, SeriesKey).value.Some?
            && FromLastComplete(Locate(host.decode(body).value, SeriesKey).value.value, host.stamp, b)
  {
    var body := ChartBody(symbol, LatestLookbackDays, w);
    var doc := host.decode(body).value;
    var bars := ParseHistorical(doc, host.stamp).value;
    assert GetHistoricalData(symbol, LatestLookbackDays, w, host) == Done(Some(bars));
    assert b == bars[|bars| - 1];
    LastBarIsLastComplete(doc, host.stamp);
  }

  /** The outcomes of the fetches of a batch, in order; the k-th fetch sees
      the k-th world. */
  function Fetches(symbols: seq<string>, days: int, worlds: nat -> World, host: Host): seq<Outcome<Option<Series>>>
  {
    seq(|symbols|, k requires 0 <= k < |symbols| => GetHistoricalData(symbols[k], days, worlds(k), host))
  }

  predicate Fetched(o: Outcome<Option<Series>>)
  {
    o.Done? && o.value.Some?
  }

  /** After the first i fetches, the keys are exactly the symbols whose
      fetch was present. */
  ghost predicate KeysHold(symbols: seq<string>, calls: seq<Outcome<Option<Series>>>, i: nat, res: map<string, Series>)
    requires i <= |symbols| == |calls|
  {
    forall s :: s in res <==> exists k :: 0 <= k < i && symbols[k] == s && Fetched(calls[k])
  }

  /** After the first i fetches, each key maps to the series of its last
      present fetch. */
  ghost predicate ValuesHold(symbols: seq<string>, calls: seq<Outcome<Option<Series>>>, i: nat, res: map<string, Series>)
    requires i <= |symbols| == |calls|
  {
    forall s :: s in res ==>
      exists j :: 0 <= j < i && symbols[j] == s && calls[j] == Done(Some(res[s]))
        && forall k :: j < k < i && symbols[k] == s ==> !Fetched(calls[k])
  }

  ghost predicate BatchHolds(symbols: seq<string>, calls: seq<Outcome<Option<Series>>>, i: nat, res: map<string, Series>)
    requires i <= |symbols| == |calls|
  {
    KeysHold(symbols, calls, i, res) && ValuesHold(symbols, calls, i, res)
  }

  /** One more fetch: a present result overwrites the symbol's entry, an
      absent one leaves the map as it was. */
  lemma BatchStep(symbols: seq<string>, calls: seq<Outcome<Option<Series>>>, i: nat, res: map<string, Series>)
    requires i < |symbols| == |calls| && BatchHolds(symbols, calls, i, res)
    ensures !Fetched(calls[i]) ==> BatchHolds(symbols, calls, i + 1, res)
    ensures Fetched(calls[i]) ==> BatchHolds(symbols, calls, i + 1, res[symbols[i] := calls[i].value.value])
  {
  }

  /** getHistoricalDataBatch: fetch every symbol in order, keep the present ones. */
  method GetHistoricalDataBatch(symbols: seq<string>, days: int, worlds: nat -> World, host: Host)
    returns (r: Outcome<map<string, Series>>)
    ensures !r.Thrown?
    ensures r.Undefined? <==> exists k :: 0 <= k < |symbols| && Fetches(symbols, days, worlds, host)[k].Undefined?
    ensures r.Done? ==> BatchHolds(symbols, Fetches(symbols, days, worlds, host), |symbols|, r.value)
  {
    ghost var calls := Fetches(symbols, days, worlds, host);
    var res: map<string, Series> := map[];
    var i := 0;
    while i < |symbols|
      invariant 0 <= i <= |symbols|
      invariant forall k :: 0 <= k < i ==> !calls[k].Undefined?
      invariant BatchHolds(symbols, calls, i, res)
    {
      var data := GetHistoricalData(symbols[i], days, worlds(i), host);
      assert data == calls[i];
      if data.Undefined? {
        return Undefined;
      }
      BatchStep(symbols, calls, i, res);
      if data.value.Some? {
        res := res[symbols[i] := data.value.value];
      }
      i := i + 1;
    }
    return Done(res);
  }

  /** A symbol whose fetch fails costs only its own entry: with every other
      fetch present, the keys are the other symbols. */
  lemma OneFailureOmitsOnlyThatSymbol(symbols: seq<string>, calls: seq<Outcome<Option<Series>>>,
                                      res: map<string, Series>, f: nat)
    requires |symbols| == |calls| && BatchHolds(symbols, calls, |symbols|, res)
    requires f < |symbols| && !Fetched(calls[f])
    requires forall k :: 0 <= k < |symbols| && k != f ==> Fetched(calls[k])
    ensures res.Keys == set k | 0 <= k < |symbols| && k != f :: symbols[k]
  {
  }

  /** The body the transport returns for the trending request. */
  function TrendingBody(limit: int, w: World): string
  {
    w.transport(TrendingRequest(limit))
  }

  /** getTrendingStocks: the empty list when the body is empty, when decoding
      throws or when the parser throws; otherwise the parser's list. */
  function GetTrendingStocks(limit: int, w: World, host: Host): (r: Outcome<seq<string>>)
    ensures !r.Thrown?
    ensures var body := TrendingBody(limit, w);
            body == [] || host.decode(body).None? ==> r == Done([])
    ensures var body := TrendingBody(limit, w);
            body != [] && host.decode(body).Some? ==>
              && (ParseTrending(host.decode(body).value).Thrown? ==> r == Done([]))
              && (ParseTrending(host.decode(body).value).Done? ==> r == ParseTrending(host.decode(body).value))
    ensures var body := TrendingBody(limit, w);
            r.Done? && r.value != [] ==>
              body != [] && host.decode(body).Some? && ParseTrending(host.decode(body).value) == r
  {
    var body := TrendingBody(limit, w);
    if body == [] then Done([])
    else
      match host.decode(body)
      case None => Done([])
      case Some(doc) =>
        match ParseTrending(doc)
        case Done(symbols) => Done(symbols)
        case Thrown => Done([])
        case Undefined => Undefined
  }

  /** getTrendingStocks always returns: the guard and the loop never reach
      undefined behaviour, and every exception is caught. */
  lemma TrendingAlwaysReturns(limit: int, w: World, host: Host)
    ensures GetTrendingStocks(limit, w, host).Done?
  {
    var body := TrendingBody(limit, w);
    if body != [] && host.decode(body).Some? {
      var doc := host.decode(body).value;
      var quotes := QuotesOf(doc);
      if quotes.Done? && quotes.value.Some? {
        SymbolsOfTagged(Elements(quotes.value.value));
      }
    }
  }
}
