/** parseTrendingStocks (financial-engine-cpp/src/yahoo_finance_api.cpp): the
    ticker symbols of a decoded trending-tickers document, in source order. */
module TrendingParser {
  import opened Outcomes
  import opened JsonValues

  /** finance.result, by safe navigation. */
  function FinanceResults(doc: Json): Option<Json>
  {
    var finance :- Get(doc, "finance");
    Get(finance, "result")
  }

  /** The guard at :203-207 with the emptiness test the right way round:
      Done(None) is an early return of the empty list, Done(Some(q)) hands
      finance.result[0].quotes to the loop. */
  function QuotesOf(doc: Json): (r: Outcome<Option<Json>>)
    ensures FinanceResults(doc).None? ==> r == Done(None)
    ensures FinanceResults(doc).Some? && Empty(FinanceResults(doc).value) ==> r == Done(None)
    ensures FinanceResults(doc).Some? && !Empty(FinanceResults(doc).value) && !FinanceResults(doc).value.JArr?
            ==> r == Thrown
    // the first result lacks quotes
    ensures FinanceResults(doc).Some? && Entry(FinanceResults(doc).value, 0).Some?
              && !Contains(Entry(FinanceResults(doc).value, 0).value, "quotes")
            ==> r == Done(None)
    // a first result with quotes hands them to the loop
    ensures FinanceResults(doc).Some? && Entry(FinanceResults(doc).value, 0).Some?
              && Contains(Entry(FinanceResults(doc).value, 0).value, "quotes")
            ==> r == Done(Get(Entry(FinanceResults(doc).value, 0).value, "quotes"))
    ensures !r.Undefined?
    ensures r.Done? && r.value.Some? ==>
              && FinanceResults(doc).Some?
              && Entry(FinanceResults(doc).value, 0).Some?
              && Get(Entry(FinanceResults(doc).value, 0).value, "quotes") == Some(r.value.value)
  {
    if !Contains(doc, "finance") then Done(None)
    else
      var finance :- AtKey(doc, "finance");
      if !Contains(finance, "result") then Done(None)
      else
        var results :- AtKey(finance, "result");
        if Empty(results) then Done(None)
        else
          var first :- AtIndex(results, 0);
          if !Contains(first, "quotes") then Done(None)
          else
            var quotes :- AtKey(first, "quotes");
            Done(Some(quotes))
  }

  /** The guard at :203-207 as written: it returns early when finance.result
      is NOT empty, and indexes finance.result[0] only when it is empty. */
  function QuotesOfAsWritten(doc: Json): (r: Outcome<Option<Json>>)
    ensures FinanceResults(doc).Some? && !Empty(FinanceResults(doc).value) ==> r == Done(None)
  {
    if !Contains(doc, "finance") then Done(None)
    else
      var finance :- AtKey(doc, "finance");
      if !Contains(finance, "result") then Done(None)
      else
        var results :- AtKey(finance, "result");
        if !Empty(results) then Done(None)
        else
          match AtIndex(results, 0)
          case Thrown => Thrown
          case Undefined => Undefined
          case Done(first) =>
            if !Contains(first, "quotes") then Done(None)
            else
              match AtKey(first, "quotes")
              case Thrown => Thrown
              case Undefined => Undefined
              case Done(quotes) => Done(Some(quotes))
  }

  /** The quotes that carry a symbol member, in source order. */
  function Tagged(quotes: seq<Json>): (r: seq<Json>)
    ensures |r| <= |quotes|
    ensures forall q :: q in r ==> q in quotes && Contains(q, "symbol")
    ensures forall q :: q in quotes && Contains(q, "symbol") ==> q in r
  {
    if quotes == [] then []
    else
      var last := quotes[|quotes| - 1];
      Tagged(quotes[..|quotes| - 1]) + (if Contains(last, "symbol") then [last] else [])
  }

  /** The loop at :211-215 over its first |quotes| elements. */
  function SymbolsOf(quotes: seq<Json>): Outcome<seq<string>>
  {
    if quotes == [] then Done([])
    else
      var symbols :- SymbolsOf(quotes[..|quotes| - 1]);
      var last := quotes[|quotes| - 1];
      if Contains(last, "symbol") then
        var field :- AtKey(last, "symbol");
        var symbol :- ToText(field);
        Done(symbols + [symbol])
      else
        Done(symbols)
  }

  /** The loop never reaches undefined behaviour; it completes exactly when
      every symbol member is a string, and then lists those strings in the
      order of their quotes. */
  lemma {:induction false} SymbolsOfTagged(quotes: seq<Json>)
    ensures !SymbolsOf(quotes).Undefined?
    ensures SymbolsOf(quotes).Done? <==> forall q :: q in Tagged(quotes) ==> Get(q, "symbol").value.JStr?
    ensures SymbolsOf(quotes).Done? ==>
              && |SymbolsOf(quotes).value| == |Tagged(quotes)|
              && forall k :: 0 <= k < |Tagged(quotes)| ==>
                   Get(Tagged(quotes)[k], "symbol") == Some(JStr(SymbolsOf(quotes).value[k]))
  {
    if quotes != [] {
      var init := quotes[..|quotes| - 1];
      SymbolsOfTagged(init);
      var last := quotes[|quotes| - 1];
      assert quotes == init + [last];
      assert forall q :: q in Tagged(quotes) <==> q in Tagged(init) || (q == last && Contains(last, "symbol"));
    }
  }

  /** parseTrendingStocks with the corrected guard (used by the rest of the model). */
  function ParseTrending(doc: Json): (r: Outcome<seq<string>>)
    // the early returns of the empty list
    ensures FinanceResults(doc).None? ==> r == Done([])
    ensures FinanceResults(doc).Some? && Empty(FinanceResults(doc).value) ==> r == Done([])
    // a first result with quotes is decided by the loop over them
    ensures FinanceResults(doc).Some? && Entry(FinanceResults(doc).value, 0).Some?
              && Contains(Entry(FinanceResults(doc).value, 0).value, "quotes")
            ==> r == SymbolsOf(Elements(Get(Entry(FinanceResults(doc).value, 0).value, "quotes").value))
  {
    var quotes :- QuotesOf(doc);
    match quotes
    case None => Done([])
    case Some(q) => SymbolsOf(Elements(q))
  }

  /** parseTrendingStocks as written. */
  function ParseTrendingAsWritten(doc: Json): (r: Outcome<seq<string>>)
    // the inverted guard: a missing or non-empty result list yields nothing
    ensures FinanceResults(doc).None? ==> r == Done([])
    ensures FinanceResults(doc).Some? && !Empty(FinanceResults(doc).value) ==> r == Done([])
  {
    var quotes :- QuotesOfAsWritten(doc);
    match quotes
    case None => Done([])
    case Some(q) => SymbolsOf(Elements(q))
  }

  /** Finding: with the inverted guard the loop is never reached. Whenever
      parseTrendingStocks as written returns, it returns the empty list; when
      finance.result is empty it indexes it: past the end of an empty array,
      which is undefined, or into null or an empty object, which throws. */
  lemma AsWrittenNeverListsASymbol(doc: Json)
    ensures ParseTrendingAsWritten(doc).Done? ==> ParseTrendingAsWritten(doc).value == []
    ensures FinanceResults(doc) == Some(JArr([])) ==> ParseTrendingAsWritten(doc) == Undefined
    ensures FinanceResults(doc) == Some(JNull) ==> ParseTrendingAsWritten(doc) == Thrown
    ensures FinanceResults(doc) == Some(JObj([])) ==> ParseTrendingAsWritten(doc) == Thrown
  {
  }

  /** One iteration more of the loop. */
  lemma SymbolsOfNext(quotes: seq<Json>, i: nat, symbols: seq<string>)
    requires i < |quotes|
    requires SymbolsOf(quotes[..i]) == Done(symbols)
    ensures SymbolsOf(quotes[..i + 1])
            == (var q := quotes[i];
                if !Contains(q, "symbol") then Done(symbols)
                else if AtKey(q, "symbol").Done? && ToText(AtKey(q, "symbol").value).Done?
                then Done(symbols + [ToText(AtKey(q, "symbol").value).value])
                else Thrown)
  {
    assert quotes[..i + 1][..i] == quotes[..i];
  }

  /** Once an iteration throws, the loop's outcome is that exception. */
  lemma {:induction false} ThrowStops(quotes: seq<Json>, m: nat, n: nat)
    requires m <= n <= |quotes|
    requires SymbolsOf(quotes[..m]).Thrown?
    ensures SymbolsOf(quotes[..n]).Thrown?
    decreases n
  {
    if m < n {
      ThrowStops(quotes, m, n - 1);
      assert quotes[..n][..n - 1] == quotes[..n - 1];
    }
  }

  /** The loop of parseTrendingStocks (:211-215): push_back of every symbol. */
  method CollectSymbols(quotes: seq<Json>) returns (r: Outcome<seq<string>>)
    ensures r == SymbolsOf(quotes)
  {
    var symbols: seq<string> := [];
    var i := 0;
    while i < |quotes|
      invariant 0 <= i <= |quotes|
      invariant SymbolsOf(quotes[..i]) == Done(symbols)
    {
      var quote := quotes[i];
      SymbolsOfNext(quotes, i, symbols);
      if Contains(quote, "symbol") {
        var field := AtKey(quote, "symbol");
        var symbol := ToText(field.value);
        if !symbol.Done? {
          ThrowStops(quotes, i + 1, |quotes|);
          assert quotes[..|quotes|] == quotes;
          return Thrown;
        }
        symbols := symbols + [symbol.value];
      }
      i := i + 1;
    }
    assert quotes[..i] == quotes;
    return Done(symbols);
  }

  /** parseTrendingStocks: the guard, then the loop over the quotes. */
  method ParseTrendingStocks(doc: Json) returns (r: Outcome<seq<string>>)
    ensures r == ParseTrending(doc)
  {
    var quotes := QuotesOf(doc);
    if !quotes.Done? {
      return quotes.PropagateFailure();
    }
    if quotes.value.None? {
      return Done([]);
    }
    r := CollectSymbols(Elements(quotes.value.value));
  }

  /** A trending response with three quotes, the middle one without a symbol. */
  const ThreeQuotes: Json :=
    JObj([Member("finance", JObj([Member("result", JArr([
      JObj([Member("quotes", JArr([
        JObj([Member("symbol", JStr("AAA"))]),
        JObj([Member("exchange", JStr("NMS"))]),
        JObj([Member("symbol", JStr("BBB"))])]))])]))]))])

  /** The corrected parser lists AAA then BBB and skips the quote without a
      symbol; the parser as written lists nothing. */
  lemma ThreeQuotesParse()
    ensures ParseTrending(ThreeQuotes) == Done(["AAA", "BBB"])
    ensures ParseTrendingAsWritten(ThreeQuotes) == Done([])
  {
    var quotes := [
      JObj([Member("symbol", JStr("AAA"))]),
      JObj([Member("exchange", JStr("NMS"))]),
      JObj([Member("symbol", JStr("BBB"))])];
    assert QuotesOf(ThreeQuotes) == Done(Some(JArr(quotes)));
    assert quotes[..0] == [];
    SymbolsOfNext(quotes, 0, []);
    assert Contains(quotes[0], "symbol") && ToText(AtKey(quotes[0], "symbol").value) == Done("AAA");
    assert [] + ["AAA"] == ["AAA"];
    SymbolsOfNext(quotes, 1, ["AAA"]);
    assert !Contains(quotes[1], "symbol");
    SymbolsOfNext(quotes, 2, ["AAA"]);
    assert Contains(quotes[2], "symbol") && ToText(AtKey(quotes[2], "symbol").value) == Done("BBB");
    assert ["AAA"] + ["BBB"] == ["AAA", "BBB"];
    assert quotes[..3] == quotes;
    assert SymbolsOf(quotes) == Done(["AAA", "BBB"]);
  }
}
