/** parseHistoricalData (financial-engine-cpp/src/yahoo_finance_api.cpp): from a
    decoded chart document to the ordered series of complete daily bars. */
module HistoricalParser {
  import opened Outcomes
  import opened JsonValues

  /** One trading day (the StockPrice record of yahoo_finance_api.h). */
  datatype StockPrice = StockPrice(
    timestamp: string,
    open: real,
    high: real,
    low: real,
    close: real,
    volume: int,
    adjclose: real)

  type Series = seq<StockPrice>

  /** The key whose presence is checked on the first chart result. */
  const SeriesKey: string := "timestamp"
  /** The key the source then reads the timestamp array from (see Findings). */
  const AsWrittenSeriesKey: string := "timestamps"

  // The expected shape of a chart document, by safe navigation.

  function ChartResults(doc: Json): Option<Json>
  {
    var chart :- Get(doc, "chart");
    Get(chart, "result")
  }

  function FirstChartResult(doc: Json): Option<Json>
  {
    var results :- ChartResults(doc);
    Entry(results, 0)
  }

  function Indicators(doc: Json): Option<Json>
  {
    var first :- FirstChartResult(doc);
    Get(first, "indicators")
  }

  function QuoteObject(doc: Json): Option<Json>
  {
    var indicators :- Indicators(doc);
    var quotes :- Get(indicators, "quote");
    Entry(quotes, 0)
  }

  function AdjcloseEntries(doc: Json): Option<Json>
  {
    var indicators :- Indicators(doc);
    var adjclose :- Get(indicators, "adjclose");
    var first :- Entry(adjclose, 0);
    Get(first, "adjclose")
  }

  predicate HasPriceColumns(quote: Json)
  {
    Contains(quote, "open") && Contains(quote, "high") && Contains(quote, "low")
    && Contains(quote, "close") && Contains(quote, "volume")
  }

  /** The parallel arrays the per-index loop reads. */
  datatype Columns = Columns(
    timestamps: Json,
    open: Json,
    high: Json,
    low: Json,
    close: Json,
    volume: Json,
    adjclose: Json)

  /** The adjusted-close array, or an empty array when the indicators carry none. */
  function AdjcloseColumn(indicators: Json): (r: Outcome<Json>)
    ensures !Contains(indicators, "adjclose") ==> r == Done(JArr([]))
    ensures Contains(indicators, "adjclose") && !Get(indicators, "adjclose").value.JArr? ==> r == Thrown
    ensures Contains(indicators, "adjclose") && Entry(Get(indicators, "adjclose").value, 0).Some? ==>
              var first := Entry(Get(indicators, "adjclose").value, 0).value;
              && (first.JObj? <==> !r.Thrown?)
              && (r.Done? <==> Contains(first, "adjclose"))
              && (r.Done? ==> Get(first, "adjclose") == Some(r.value))
  {
    if Contains(indicators, "adjclose") then
      var entries :- AtKey(indicators, "adjclose");
      var first :- AtIndex(entries, 0);
      AtKey(first, "adjclose")
    else
      Done(JArr([]))
  }

  /** A chart document that passes every container check before the loop:
      chart.result[0] has timestamp, indicators and the key the timestamp
      array is read from; indicators.quote[0] has the five price columns; and
      an adjclose indicator, if there is one, has adjclose[0].adjclose. */
  predicate DocumentedChart(doc: Json, seriesKey: string)
  {
    && FirstChartResult(doc).Some?
    && Contains(FirstChartResult(doc).value, "timestamp")
    && Contains(FirstChartResult(doc).value, "indicators")
    && Contains(FirstChartResult(doc).value, seriesKey)
    && QuoteObject(doc).Some?
    && HasPriceColumns(QuoteObject(doc).value)
    && (Contains(Indicators(doc).value, "adjclose") ==> AdjcloseEntries(doc).Some?)
  }

  /** The container checks before the loop. Done(None) is an early return of
      the empty series; `seriesKey` is the key the timestamp array is read from. */
  function Locate(doc: Json, seriesKey: string): (r: Outcome<Option<Columns>>)
    // no chart, no chart.result, or an empty chart.result
    ensures ChartResults(doc).None? ==> r == Done(None)
    ensures ChartResults(doc).Some? && Empty(ChartResults(doc).value) ==> r == Done(None)
    // a non-empty chart.result that is not an array cannot be indexed
    ensures ChartResults(doc).Some? && !Empty(ChartResults(doc).value) && !ChartResults(doc).value.JArr?
            ==> r == Thrown
    // the first result lacks timestamp or indicators
    ensures FirstChartResult(doc).Some?
            && !(Contains(FirstChartResult(doc).value, "timestamp") && Contains(FirstChartResult(doc).value, "indicators"))
            ==> r == Done(None)
    // the quote lacks one of the five price columns (once the reads before that check succeed)
    ensures QuoteObject(doc).Some? && !HasPriceColumns(QuoteObject(doc).value)
            && Contains(FirstChartResult(doc).value, "timestamp")
            && Contains(FirstChartResult(doc).value, seriesKey)
            && (Contains(Indicators(doc).value, "adjclose") ==> AdjcloseEntries(doc).Some?)
            ==> r == Done(None)
    // a document that passes every check reaches the loop
    ensures DocumentedChart(doc, seriesKey) ==> r.Done? && r.value.Some?
    // and the columns are the arrays at their documented places
    ensures r.Done? && r.value.Some? ==>
              var c := r.value.value;
              && FirstChartResult(doc).Some?
              && Contains(FirstChartResult(doc).value, "timestamp")
              && Get(FirstChartResult(doc).value, seriesKey) == Some(c.timestamps)
              && QuoteObject(doc).Some?
              && Get(QuoteObject(doc).value, "open") == Some(c.open)
              && Get(QuoteObject(doc).value, "high") == Some(c.high)
              && Get(QuoteObject(doc).value, "low") == Some(c.low)
              && Get(QuoteObject(doc).value, "close") == Some(c.close)
              && Get(QuoteObject(doc).value, "volume") == Some(c.volume)
              && (if Contains(Indicators(doc).value, "adjclose")
                  then AdjcloseEntries(doc) == Some(c.adjclose)
                  else c.adjclose == JArr([]))
  {
    if !Contains(doc, "chart") then Done(None)
    else
      var chart :- AtKey(doc, "chart");
      if !Contains(chart, "result") then Done(None)
      else
        var results :- AtKey(chart, "result");
        if Empty(results) then Done(None)
        else
          var first :- AtIndex(results, 0);
          if !Contains(first, "timestamp") || !Contains(first, "indicators") then Done(None)
          else
            var timestamps :- AtKey(first, seriesKey);
            var indicators :- AtKey(first, "indicators");
            var quotes :- AtKey(indicators, "quote");
            var quote :- AtIndex(quotes, 0);
            var adjclose :- AdjcloseColumn(indicators);
            if !HasPriceColumns(quote) then Done(None)
            else
              var open :- AtKey(quote, "open");
              var high :- AtKey(quote, "high");
              var low :- AtKey(quote, "low");
              var close :- AtKey(quote, "close");
              var volume :- AtKey(quote, "volume");
              Done(Some(Columns(timestamps, open, high, low, close, volume, adjclose)))
  }

  /** Entry i of the column is an explicit null. */
  predicate NullAt(col: Json, i: nat)
  {
    col.JArr? && i < |col.items| && col.items[i].JNull?
  }

  /** Entry i of the column exists and is not null. */
  predicate Present(col: Json, i: nat)
  {
    col.JArr? && i < |col.items| && !col.items[i].JNull?
  }

  /** Index i is a gap: one of the five price columns holds null there. */
  predicate Skipped(c: Columns, i: nat)
  {
    NullAt(c.open, i) || NullAt(c.high, i) || NullAt(c.low, i) || NullAt(c.close, i) || NullAt(c.volume, i)
  }

  /** Bar b is the one index i describes: every field converted from entry i of
      its own column, the adjusted close taken from entry i of the adjclose
      array when that entry exists and is not null, and the close otherwise. */
  predicate BarFrom(c: Columns, i: nat, stamp: int -> string, b: StockPrice)
  {
    && Present(c.open, i) && ToDouble(c.open.items[i]) == Done(b.open)
    && Present(c.high, i) && ToDouble(c.high.items[i]) == Done(b.high)
    && Present(c.low, i) && ToDouble(c.low.items[i]) == Done(b.low)
    && Present(c.close, i) && ToDouble(c.close.items[i]) == Done(b.close)
    && Present(c.volume, i) && ToLong(c.volume.items[i]) == Done(b.volume)
    && Entry(c.timestamps, i).Some? && ToLong(c.timestamps.items[i]).Done?
    && b.timestamp == stamp(ToLong(c.timestamps.items[i]).value)
    && (if Present(c.adjclose, i)
        then ToDouble(c.adjclose.items[i]) == Done(b.adjclose)
        else b.adjclose == b.close)
  }

  /** The indices below n that are not gaps, in increasing order. */
  function Kept(c: Columns, n: nat): seq<nat>
  {
    if n == 0 then []
    else Kept(c, n - 1) + (if Skipped(c, n - 1) then [] else [n - 1])
  }

  /** Kept(c, n) lists every index below n that is not a gap, each once, in
      increasing order, and nothing else. */
  lemma {:induction false} KeptIndices(c: Columns, n: nat)
    ensures |Kept(c, n)| <= n
    ensures forall k :: 0 <= k < |Kept(c, n)| ==> Kept(c, n)[k] < n && !Skipped(c, Kept(c, n)[k])
    ensures forall k, l :: 0 <= k < l < |Kept(c, n)| ==> Kept(c, n)[k] < Kept(c, n)[l]
    ensures forall i :: 0 <= i < n && !Skipped(c, i) ==> i in Kept(c, n)
  {
    if n > 0 {
      KeptIndices(c, n - 1);
    }
  }

  /** No index after the last kept one is kept. */
  lemma {:induction false} LastKeptIsLast(c: Columns, n: nat)
    requires |Kept(c, n)| > 0
    ensures forall j :: Kept(c, n)[|Kept(c, n)| - 1] < j < n ==> Skipped(c, j)
  {
    if Skipped(c, n - 1) {
      assert Kept(c, n) == Kept(c, n - 1);
      LastKeptIsLast(c, n - 1);
    }
  }

  /** The adjusted close of index i (the conditional expression at :147-148). */
  function AdjustedClose(adjclose: Json, i: nat, close: real): (r: Outcome<real>)
    ensures r.Done? ==> (if Present(adjclose, i) then ToDouble(adjclose.items[i]) == r else r.value == close)
  {
    if i < Size(adjclose) then
      var entry :- AtIndex(adjclose, i);
      if entry.JNull? then Done(close) else ToDouble(entry)
    else
      Done(close)
  }

  /** One iteration of the loop: None when the index is skipped. */
  function BarAt(c: Columns, i: nat, stamp: int -> string): (r: Outcome<Option<StockPrice>>)
    ensures r.Done? ==> (r.value.None? <==> Skipped(c, i))
    ensures r.Done? && r.value.Some? ==> BarFrom(c, i, stamp, r.value.value)
  {
    var o :- AtIndex(c.open, i);
    if o.JNull? then Done(None)
    else
      var h :- AtIndex(c.high, i);
      if h.JNull? then Done(None)
      else
        var l :- AtIndex(c.low, i);
        if l.JNull? then Done(None)
        else
          var cl :- AtIndex(c.close, i);
          if cl.JNull? then Done(None)
          else
            var v :- AtIndex(c.volume, i);
            if v.JNull? then Done(None)
            else
              var t :- AtIndex(c.timestamps, i);
              var epoch :- ToLong(t);
              var open :- ToDouble(o);
              var high :- ToDouble(h);
              var low :- ToDouble(l);
              var close :- ToDouble(cl);
              var volume :- ToLong(v);
              var adjclose :- AdjustedClose(c.adjclose, i, close);
              Done(Some(StockPrice(stamp(epoch), open, high, low, close, volume, adjclose)))
  }

  /** The first n iterations of the loop. */
  function Collect(c: Columns, n: nat, stamp: int -> string): Outcome<Series>
  {
    if n == 0 then Done([])
    else
      var bars :- Collect(c, n - 1, stamp);
      var bar :- BarAt(c, n - 1, stamp);
      Done(if bar.Some? then bars + [bar.value] else bars)
  }

  /** When the first n iterations complete, they have emitted exactly the bars
      of the complete indices below n, in index order. */
  lemma {:induction false} CollectBars(c: Columns, n: nat, stamp: int -> string)
    requires Collect(c, n, stamp).Done?
    ensures |Collect(c, n, stamp).value| == |Kept(c, n)|
    ensures forall k :: 0 <= k < |Collect(c, n, stamp).value| ==>
              BarFrom(c, Kept(c, n)[k], stamp, Collect(c, n, stamp).value[k])
  {
    if n > 0 {
      CollectBars(c, n - 1, stamp);
      var bars := Collect(c, n - 1, stamp).value;
      var step := BarAt(c, n - 1, stamp);
      if step.value.Some? {
        assert Collect(c, n, stamp).value == bars + [step.value.value];
        assert Kept(c, n) == Kept(c, n - 1) + [n - 1];
      } else {
        assert Collect(c, n, stamp).value == bars;
        assert Kept(c, n) == Kept(c, n - 1);
      }
    }
  }

  /** parseHistoricalData, parameterised by the key the timestamps are read from. */
  function Parse(doc: Json, stamp: int -> string, seriesKey: string): (r: Outcome<Series>)
    ensures Locate(doc, seriesKey) == Done(None) ==> r == Done([])
    ensures !Locate(doc, seriesKey).Done? ==> r == Locate(doc, seriesKey).PropagateFailure()
  {
    var located :- Locate(doc, seriesKey);
    match located
    case None => Done([])
    case Some(c) => Collect(c, Size(c.timestamps), stamp)
  }

  /** parseHistoricalData with the timestamp array read from the key it is
      checked under (the corrected reading, used by the rest of the model). */
  function ParseHistorical(doc: Json, stamp: int -> string): (r: Outcome<Series>)
    // the early returns of the empty series
    ensures ChartResults(doc).None? ==> r == Done([])
    ensures ChartResults(doc).Some? && Empty(ChartResults(doc).value) ==> r == Done([])
    ensures FirstChartResult(doc).Some?
            && !(Contains(FirstChartResult(doc).value, "timestamp") && Contains(FirstChartResult(doc).value, "indicators"))
            ==> r == Done([])
    // a documented chart is decided by the loop over its columns
    ensures DocumentedChart(doc, SeriesKey) ==>
              var c := Locate(doc, SeriesKey).value.value;
              r == Collect(c, Size(c.timestamps), stamp)
  {
    Parse(doc, stamp, SeriesKey)
  }

  /** parseHistoricalData as written: presence is checked for "timestamp" but
      the array is read from "timestamps". */
  function ParseHistoricalAsWritten(doc: Json, stamp: int -> string): (r: Outcome<Series>)
    // the misspelt key is the only difference: where both keys read the
    // same value, or no first result is reached, both readings agree
    ensures FirstChartResult(doc).None?
            || Get(FirstChartResult(doc).value, AsWrittenSeriesKey) == Get(FirstChartResult(doc).value, SeriesKey)
            ==> r == ParseHistorical(doc, stamp)
  {
    Parse(doc, stamp, AsWrittenSeriesKey)
  }

  /** A parsed series is the bars of the complete indices of the located
      columns, in index order; so it is never longer than the timestamp array. */
  lemma ParsedBars(doc: Json, stamp: int -> string)
    requires ParseHistorical(doc, stamp).Done?
    ensures Locate(doc, SeriesKey).Done?
    ensures Locate(doc, SeriesKey).value.None? ==> ParseHistorical(doc, stamp).value == []
    ensures Locate(doc, SeriesKey).value.Some? ==>
              var c := Locate(doc, SeriesKey).value.value;
              var bars := ParseHistorical(doc, stamp).value;
              && |bars| == |Kept(c, Size(c.timestamps))| <= Size(c.timestamps)
              && forall k :: 0 <= k < |bars| ==> BarFrom(c, Kept(c, Size(c.timestamps))[k], stamp, bars[k])
  {
    var located := Locate(doc, SeriesKey);
    if located.value.Some? {
      var c := located.value.value;
      CollectBars(c, Size(c.timestamps), stamp);
      KeptIndices(c, Size(c.timestamps));
    }
  }

  /** Bar b comes from the last index of the columns that is not a gap. */
  ghost predicate FromLastComplete(c: Columns, stamp: int -> string, b: StockPrice)
  {
    exists i :: 0 <= i < Size(c.timestamps) && BarFrom(c, i, stamp, b)
      && forall j :: i < j < Size(c.timestamps) ==> Skipped(c, j)
  }

  /** The last bar of a non-empty series comes from the last complete index:
      every later index of the response is a gap. */
  lemma LastBarIsLastComplete(doc: Json, stamp: int -> string)
    requires ParseHistorical(doc, stamp).Done? && ParseHistorical(doc, stamp).value != []
    ensures Locate(doc, SeriesKey).Done? && Locate(doc, SeriesKey).value.Some?
    ensures FromLastComplete(Locate(doc, SeriesKey).value.value, stamp,
                             ParseHistorical(doc, stamp).value[|ParseHistorical(doc, stamp).value| - 1])
  {
    ParsedBars(doc, stamp);
    var bars := ParseHistorical(doc, stamp).value;
    var c := Locate(doc, SeriesKey).value.value;
    var n := Size(c.timestamps);
    var idx := Kept(c, n);
    KeptIndices(c, n);
    LastKeptIsLast(c, n);
    assert BarFrom(c, idx[|idx| - 1], stamp, bars[|bars| - 1]);
  }

  /** One more iteration of the loop after the first i completed. */
  lemma CollectNext(c: Columns, i: nat, stamp: int -> string, bars: Series)
    requires Collect(c, i, stamp) == Done(bars)
    ensures Collect(c, i + 1, stamp)
            == (var step := BarAt(c, i, stamp);
                if !step.Done? then step.PropagateFailure()
                else Done(if step.value.Some? then bars + [step.value.value] else bars))
  {
  }

  /** Once an iteration fails, the loop's outcome is that failure. */
  lemma {:induction false} FailureStops(c: Columns, m: nat, n: nat, stamp: int -> string)
    requires m <= n
    requires !Collect(c, m, stamp).Done?
    ensures Collect(c, n, stamp) == Collect(c, m, stamp)
    decreases n
  {
    if m < n {
      FailureStops(c, m, n - 1, stamp);
    }
  }

  /** The loop of parseHistoricalData (:130-151): push_back of the bar of
      every complete index, in index order. */
  method CollectColumns(c: Columns, stamp: int -> string) returns (r: Outcome<Series>)
    ensures r == Collect(c, Size(c.timestamps), stamp)
  {
    var n := Size(c.timestamps);
    var bars: Series := [];
    var i := 0;
    while i < n
      invariant 0 <= i <= n
      invariant Collect(c, i, stamp) == Done(bars)
    {
      var step := BarAt(c, i, stamp);
      CollectNext(c, i, stamp, bars);
      if !step.Done? {
        FailureStops(c, i + 1, n, stamp);
        return step.PropagateFailure();
      }
      if step.value.Some? {
        bars := bars + [step.value.value];
      }
      i := i + 1;
    }
    return Done(bars);
  }

  /** parseHistoricalData: the container checks, then the loop. */
  method ParseHistoricalData(doc: Json, stamp: int -> string) returns (r: Outcome<Series>)
    ensures r == ParseHistorical(doc, stamp)
  {
    var located := Locate(doc, SeriesKey);
    if !located.Done? {
      return located.PropagateFailure();
    }
    if located.value.None? {
      return Done([]);
    }
    r := CollectColumns(located.value.value, stamp);
  }

  /** Columns as a well-formed chart response has them: every array at least
      as long as the timestamp array, every entry a number (or null in the
      price columns and the adjusted closes). */
  predicate Aligned(c: Columns)
  {
    && c.timestamps.JArr?
    && (forall i :: 0 <= i < |c.timestamps.items| ==> Numeric(c.timestamps.items[i]))
    && AlignedColumn(c.open, |c.timestamps.items|)
    && AlignedColumn(c.high, |c.timestamps.items|)
    && AlignedColumn(c.low, |c.timestamps.items|)
    && AlignedColumn(c.close, |c.timestamps.items|)
    && AlignedColumn(c.volume, |c.timestamps.items|)
    && c.adjclose.JArr?
    && (forall i :: 0 <= i < |c.adjclose.items| ==> c.adjclose.items[i].JNull? || Numeric(c.adjclose.items[i]))
  }

  predicate AlignedColumn(col: Json, n: nat)
  {
    col.JArr? && n <= |col.items| && forall i :: 0 <= i < |col.items| ==> col.items[i].JNull? || Numeric(col.items[i])
  }

  /** On aligned columns the loop neither throws nor reads out of range. */
  lemma {:induction false} AlignedColumnsParse(c: Columns, n: nat, stamp: int -> string)
    requires Aligned(c)
    requires n <= Size(c.timestamps)
    ensures Collect(c, n, stamp).Done?
  {
    if n > 0 {
      AlignedColumnsParse(c, n - 1, stamp);
      var i := n - 1;
      assert AtIndex(c.open, i).Done? && AtIndex(c.high, i).Done? && AtIndex(c.low, i).Done?;
      assert AtIndex(c.close, i).Done? && AtIndex(c.volume, i).Done? && AtIndex(c.timestamps, i).Done?;
      assert AdjustedClose(c.adjclose, i, 0.0).Done?;
      assert BarAt(c, i, stamp).Done?;
    }
  }

  /** A documented chart response whose columns are aligned always parses,
      into at most one bar per timestamp. */
  lemma DocumentedChartParses(doc: Json, stamp: int -> string)
    requires DocumentedChart(doc, SeriesKey) && Aligned(Locate(doc, SeriesKey).value.value)
    ensures ParseHistorical(doc, stamp).Done?
    ensures |ParseHistorical(doc, stamp).value| <= Size(Locate(doc, SeriesKey).value.value.timestamps)
  {
    var c := Locate(doc, SeriesKey).value.value;
    AlignedColumnsParse(c, Size(c.timestamps), stamp);
    ParsedBars(doc, stamp);
  }

  /** Without an adjclose indicator every bar's adjusted close is its close. */
  lemma NoAdjcloseMeansClose(doc: Json, stamp: int -> string)
    requires ParseHistorical(doc, stamp).Done?
    requires Indicators(doc).Some? && !Contains(Indicators(doc).value, "adjclose")
    ensures forall b :: b in ParseHistorical(doc, stamp).value ==> b.adjclose == b.close
  {
    ParsedBars(doc, stamp);
    var bars := ParseHistorical(doc, stamp).value;
    var located := Locate(doc, SeriesKey);
    if located.value.Some? {
      var c := located.value.value;
      assert c.adjclose == JArr([]);
      forall b | b in bars ensures b.adjclose == b.close {
        var k :| 0 <= k < |bars| && bars[k] == b;
        assert BarFrom(c, Kept(c, Size(c.timestamps))[k], stamp, b);
      }
    }
  }

  /** Finding: the check at :109 asks for "timestamp", the read at :113 takes
      "timestamps"; on a document that has the first and not the second (the
      shape of every chart response) the const lookup of a missing key is
      undefined behaviour, before a single bar is read. */
  lemma AsWrittenReadsMissingKey(doc: Json, stamp: int -> string)
    requires FirstChartResult(doc).Some?
    requires Contains(FirstChartResult(doc).value, "timestamp")
    requires Contains(FirstChartResult(doc).value, "indicators")
    requires !Contains(FirstChartResult(doc).value, AsWrittenSeriesKey)
    ensures ParseHistoricalAsWritten(doc, stamp) == Undefined
  {
  }

  /** A one-day chart response, members in the decoder's key order. */
  const OneDayChart: Json :=
    JObj([Member("chart", JObj([Member("result", JArr([
      JObj([
        Member("indicators", JObj([Member("quote", JArr([JObj([
          Member("close", JArr([JNum(105.0)])),
          Member("high", JArr([JNum(110.0)])),
          Member("low", JArr([JNum(95.0)])),
          Member("open", JArr([JNum(100.0)])),
          Member("volume", JArr([JNum(5000.0)]))])]))])),
        Member("timestamp", JArr([JNum(1740614400.0)]))])]))]))])

  /** On the one-day response the parser as written is undefined, while the
      corrected one returns the day's bar, its adjusted close falling back to
      the close. */
  lemma OneDayChartParses(stamp: int -> string)
    ensures ParseHistoricalAsWritten(OneDayChart, stamp) == Undefined
    ensures ParseHistorical(OneDayChart, stamp)
            == Done([StockPrice(stamp(1740614400), 100.0, 110.0, 95.0, 105.0, 5000, 105.0)])
  {
    var first := FirstChartResult(OneDayChart).value;
    assert !Contains(first, AsWrittenSeriesKey);
    AsWrittenReadsMissingKey(OneDayChart, stamp);
    var c := Columns(JArr([JNum(1740614400.0)]), JArr([JNum(100.0)]), JArr([JNum(110.0)]),
                     JArr([JNum(95.0)]), JArr([JNum(105.0)]), JArr([JNum(5000.0)]), JArr([]));
    OneDayChartColumns(c);
    OneDayChartBar(c, stamp);
  }

  lemma OneDayChartBar(c: Columns, stamp: int -> string)
    requires c == Columns(JArr([JNum(1740614400.0)]), JArr([JNum(100.0)]), JArr([JNum(110.0)]),
                          JArr([JNum(95.0)]), JArr([JNum(105.0)]), JArr([JNum(5000.0)]), JArr([]))
    ensures Collect(c, Size(c.timestamps), stamp)
            == Done([StockPrice(stamp(1740614400), 100.0, 110.0, 95.0, 105.0, 5000, 105.0)])
  {
    var bar := StockPrice(stamp(1740614400), 100.0, 110.0, 95.0, 105.0, 5000, 105.0);
    assert Truncate(1740614400.0) == 1740614400;
    assert Truncate(5000.0) == 5000;
    assert BarAt(c, 0, stamp) == Done(Some(bar));
    assert Collect(c, 0, stamp) == Done([]);
    CollectNext(c, 0, stamp, []);
    assert Collect(c, 1, stamp) == Done([] + [bar]);
    assert [] + [bar] == [bar];
    assert Size(c.timestamps) == 1;
  }

  lemma OneDayChartColumns(c: Columns)
    requires c == Columns(JArr([JNum(1740614400.0)]), JArr([JNum(100.0)]), JArr([JNum(110.0)]),
                          JArr([JNum(95.0)]), JArr([JNum(105.0)]), JArr([JNum(5000.0)]), JArr([]))
    ensures Locate(OneDayChart, SeriesKey) == Done(Some(c))
  {
    var first := FirstChartResult(OneDayChart).value;
    assert Contains(first, "timestamp") && Contains(first, "indicators");
    var quote := QuoteObject(OneDayChart).value;
    assert HasPriceColumns(quote);
    assert !Contains(Indicators(OneDayChart).value, "adjclose");
  }
}
