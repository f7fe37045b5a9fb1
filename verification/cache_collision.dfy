/** The two market-data routes share one collection. The chart route writes documents that carry
    a "symbol" field, and the quote route looks documents up, and upserts them, by "symbol"
    alone; so the quote route can find a chart document. As written, a fresh chart document
    makes the quote route fail (it has no price), and a stale one gets quote fields written into
    it. Restricted to quote documents, the quote route is unaffected by chart writes. */
module CacheCollision {
  import opened Outcomes
  import opened Text
  import opened Seqs
  import opened Calendar
  import opened Store
  import StockChart
  import opened StockSearch

  /** As written: after the first chart of a symbol is cached, a quote request for that symbol
      whose UTC clock is less than 5 minutes past the chart's local timestamp (in any zone at or
      east of UTC that is every request within 5 minutes, and east of UTC for hours longer) finds
      the chart document, takes it as fresh, and fails with a 500 without asking the upstream. */
  lemma ChartDocumentBreaksQuote(docs: seq<Document>, chartSymbolIn: string, period: string, now: Instant,
                                 chartReply: StockChart.ChartReply, oid: nat, apiKey: Option<string>,
                                 quoteSymbolIn: string, utcNow: Instant, quoteReply: QuoteReply,
                                 fromIso: string -> Option<Instant>, toFloat: string -> Option<real>)
    requires ReadsIsoFormat(fromIso)
    requires !KeyMissing(apiKey)
    requires Normalize(quoteSymbolIn) == Upper(chartSymbolIn)
    requires forall d :: d in docs ==>
      d.symbol != Upper(chartSymbolIn) && d.id != Named(StockChart.CacheKey(Upper(chartSymbolIn), period))
    requires StockChart.ChartRun(docs, chartSymbolIn, period, now, chartReply, fromIso, toFloat).after != docs
    requires Micros(utcNow) - Micros(now) < QuoteFreshMinutes * 60000000
    ensures var chart := StockChart.ChartRun(docs, chartSymbolIn, period, now, chartReply, fromIso, toFloat);
      QuoteRun(AnySymbol, chart.after, oid, apiKey, quoteSymbolIn, utcNow, quoteReply, fromIso, toFloat) ==
      QuoteRunResult(None, Crash(), chart.after, oid)
  {
    var chart := StockChart.ChartRun(docs, chartSymbolIn, period, now, chartReply, fromIso, toFloat);
    var symbol := Upper(chartSymbolIn);
    var key := StockChart.CacheKey(symbol, period);
    var stamp := IsoString(IsoFormat(now));
    StockChart.ChartWritten(docs, chartSymbolIn, period, now, chartReply, fromIso, toFloat);
    var f := StockChart.BuildChart(symbol, period, chartReply.series[StockChart.PeriodParams(period).seriesKey],
                                   now, toFloat).value;
    assert FirstIndex(docs, HasId(key)).None?;
    var written := Document(Named(key), symbol, Some(f), None, stamp);
    assert chart.after == docs + [written];
    var p := SymbolFilter(AnySymbol, symbol);
    FindFirstAppend(docs, [written], p);
    assert FindFirst([written], p) == Some(written) by {
      FirstIndexAt([written], p, 0);
    }
    FreshAfterWrite(now, utcNow, QuoteFreshMinutes, fromIso);
  }

  /** As written: when the first document of a symbol is a stale chart document, a successful
      quote fetch for it writes the quote fields into that chart document. */
  lemma QuoteWritesIntoChartDocument(docs: seq<Document>, oid: nat, apiKey: Option<string>, symbolIn: string,
                                     utcNow: Instant, reply: QuoteReply,
                                     fromIso: string -> Option<Instant>, toFloat: string -> Option<real>)
    requires !KeyMissing(apiKey)
    requires var cached := FindFirst(docs, SymbolFilter(AnySymbol, Normalize(symbolIn)));
      cached.Some? && cached.value.chart.Some? && !FreshWithin(cached.value.lastUpdated, utcNow, QuoteFreshMinutes, fromIso)
    requires var answer := FetchAnswer(Normalize(symbolIn), utcNow, reply, toFloat);
      answer.Ok? && answer.value.symbol == Normalize(symbolIn)
    ensures var run := QuoteRun(AnySymbol, docs, oid, apiKey, symbolIn, utcNow, reply, fromIso, toFloat);
      var cached := FindFirst(docs, SymbolFilter(AnySymbol, Normalize(symbolIn)));
      run.outcome.Ok? && |run.after| == |docs| && !Segregated(run.after) &&
      exists i :: 0 <= i < |docs| && docs[i] == cached.value && run.after[i].id == docs[i].id &&
                  run.after[i].chart == docs[i].chart && run.after[i].quote.Some?
  {
    var symbol := Normalize(symbolIn);
    var i := FirstIndex(docs, SymbolFilter(AnySymbol, symbol)).value;
    var run := QuoteRun(AnySymbol, docs, oid, apiKey, symbolIn, utcNow, reply, fromIso, toFloat);
    assert run.after[i].chart.Some? && run.after[i].quote.Some?;
  }

  /** Corrected: a chart request never changes what the quote route answers or whether it asks
      the upstream, and the two kinds of document stay apart. */
  lemma ChartDocumentInvisibleToQuote(docs: seq<Document>, chartSymbolIn: string, period: string, now: Instant,
                                      chartReply: StockChart.ChartReply, oid: nat, oid2: nat, apiKey: Option<string>,
                                      quoteSymbolIn: string, utcNow: Instant, quoteReply: QuoteReply,
                                      fromIso: string -> Option<Instant>, toFloat: string -> Option<real>)
    requires Segregated(docs)
    ensures var chart := StockChart.ChartRun(docs, chartSymbolIn, period, now, chartReply, fromIso, toFloat);
      var before := QuoteRun(QuoteDocsOnly, docs, oid, apiKey, quoteSymbolIn, utcNow, quoteReply, fromIso, toFloat);
      var after := QuoteRun(QuoteDocsOnly, chart.after, oid2, apiKey, quoteSymbolIn, utcNow, quoteReply, fromIso, toFloat);
      Segregated(chart.after) && after.outcome == before.outcome && after.request == before.request
  {
    var chart := StockChart.ChartRun(docs, chartSymbolIn, period, now, chartReply, fromIso, toFloat);
    if chart.after != docs {
      var symbol := Upper(chartSymbolIn);
      var key := StockChart.CacheKey(symbol, period);
      StockChart.ChartWritten(docs, chartSymbolIn, period, now, chartReply, fromIso, toFloat);
      var f := StockChart.BuildChart(symbol, period, chartReply.series[StockChart.PeriodParams(period).seriesKey],
                                     now, toFloat).value;
      SetChartSegregated(docs, key, symbol, f, IsoString(IsoFormat(now)));
    }
    QuoteIgnoresChartDocuments(docs, chart.after, oid, oid2, apiKey, quoteSymbolIn, utcNow, quoteReply, fromIso, toFloat);
  }
}
