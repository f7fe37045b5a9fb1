/** `get_stock_data` (backend/routes/stock_search.py, path `/{symbol}`): the latest quote of a symbol, served
    from the cache while it is under 5 minutes old, otherwise fetched from the upstream's
    GLOBAL_QUOTE, cached under its symbol and returned. */
module StockSearch {
  import opened Outcomes
  import opened Text
  import opened Seqs
  import opened Calendar
  import opened Store

  const QuoteFreshMinutes: nat := 5

  /** The upstream's answer as far as the route reads it: a transport failure (a connection
      error, a timeout, an HTTP error status or a body that is not JSON), or a JSON object with
      its "Global Quote" object, if it has one. */
  datatype QuoteReply = QuoteUnreachable | QuoteBody(globalQuote: Option<map<string, string>>)

  /** Which documents a lookup by symbol may find: as written, `{"symbol": symbol}`, which chart
      documents match too; corrected, quote documents only. */
  datatype LookupRule = AnySymbol | QuoteDocsOnly

  function SymbolFilter(rule: LookupRule, symbol: string): (r: Document -> bool)
    ensures forall d: Document :: r(d) ==> d.symbol == symbol
    ensures forall d: Document :: d.symbol == symbol && IsQuoteDoc(d) ==> r(d)
    ensures rule == AnySymbol ==> forall d: Document :: d.symbol == symbol ==> r(d)
    ensures rule == QuoteDocsOnly ==> forall d: Document :: r(d) ==> IsQuoteDoc(d)
  {
    match rule
    case AnySymbol => (d: Document) => d.symbol == symbol
    case QuoteDocsOnly => (d: Document) => d.symbol == symbol && IsQuoteDoc(d)
  }

  datatype Source = MongoDBCache | AlphaVantageApi

  /** The route's answer. */
  datatype QuoteView = QuoteView(symbol: string, price: real, change: real, percentChange: string,
                                 lastUpdated: Stamp, source: Source)

  /** `float(global_quote.get(field, 0))`: 0 when the field is absent, None where float() raises. */
  function NumberField(q: map<string, string>, field: string, toFloat: string -> Option<real>): (r: Option<real>)
    ensures field !in q ==> r == Some(0.0)
    ensures field in q ==> r == toFloat(q[field])
  {
    if field in q then toFloat(q[field]) else Some(0.0)
  }

  /** The symbol and quote fields the route builds from a non-empty Global Quote: the quote's own
      symbol if it has one, else the one asked for; price and change 0 and change percent "0%"
      when absent. None exactly when a price or change that is present does not read as a
      number. */
  function QuoteData(q: map<string, string>, symbol: string, toFloat: string -> Option<real>)
    : (r: Option<(string, QuoteFields)>)
    ensures r.None? <==> ("05. price" in q && toFloat(q["05. price"]).None?) ||
                         ("09. change" in q && toFloat(q["09. change"]).None?)
    ensures r.Some? ==>
      r.value.0 == (if "01. symbol" in q then q["01. symbol"] else symbol) &&
      r.value.1.price == (if "05. price" in q then toFloat(q["05. price"]).value else 0.0) &&
      r.value.1.change == (if "09. change" in q then toFloat(q["09. change"]).value else 0.0) &&
      r.value.1.percentChange == (if "10. change percent" in q then q["10. change percent"] else "0%")
  {
    var sym := if "01. symbol" in q then q["01. symbol"] else symbol;
    var percent := if "10. change percent" in q then q["10. change percent"] else "0%";
    match (NumberField(q, "05. price", toFloat), NumberField(q, "09. change", toFloat))
    case (Some(price), Some(change)) => Some((sym, QuoteFields(price, change, percent)))
    case _ => None
  }

  /** `not ALPHA_VANTAGE_API_KEY`. */
  predicate KeyMissing(apiKey: Option<string>)
    ensures apiKey.None? ==> KeyMissing(apiKey)
    ensures apiKey.Some? ==> (KeyMissing(apiKey) <==> |apiKey.value| == 0)
  {
    apiKey.None? || apiKey.value == ""
  }

  /** The cached answer: the document's own fields, or a crash (KeyError) when it has no quote
      fields. */
  function CachedQuote(d: Document): (r: Outcome<QuoteView>)
    ensures r.Ok? <==> d.quote.Some?
    ensures r.Fail? ==> r == Crash()
    ensures r.Ok? ==> r.value == QuoteView(d.symbol, d.quote.value.price, d.quote.value.change,
                                           d.quote.value.percentChange, d.lastUpdated, MongoDBCache)
  {
    match d.quote
    case Some(q) => Ok(QuoteView(d.symbol, q.price, q.change, q.percentChange, d.lastUpdated, MongoDBCache))
    case None => Crash()
  }

  /** One request's effects: the symbol it asks the upstream about (if it asks), what it
      returns, and the documents and the next generated id afterwards. */
  datatype QuoteRunResult = QuoteRunResult(request: Option<string>, outcome: Outcome<QuoteView>,
                                           after: seq<Document>, nextOid: nat)

  /** What the route answers once it has asked the upstream about `symbol`; it does not depend
      on the cache. */
  function FetchAnswer(symbol: string, utcNow: Instant, reply: QuoteReply, toFloat: string -> Option<real>)
    : (r: Outcome<QuoteView>)
    ensures r.Ok? <==> reply.QuoteBody? && reply.globalQuote.Some? && reply.globalQuote.value != map[] &&
                       QuoteData(reply.globalQuote.value, symbol, toFloat).Some?
    ensures r.Ok? ==> r.value.source == AlphaVantageApi && r.value.lastUpdated == IsoString(IsoFormat(utcNow))
    ensures r.Ok? ==> var data := QuoteData(reply.globalQuote.value, symbol, toFloat).value;
      r.value.symbol == data.0 && r.value.price == data.1.price && r.value.change == data.1.change &&
      r.value.percentChange == data.1.percentChange
    ensures r.Fail? ==> r.code == 500 || r == Fail(404, "Stock symbol '" + symbol + "' not found or invalid")
  {
    match reply
    case QuoteUnreachable => Fail(500, "Failed to fetch stock data from Alpha Vantage")
    case QuoteBody(globalQuote) =>
      if globalQuote.None? || globalQuote.value == map[] then
        Fail(404, "Stock symbol '" + symbol + "' not found or invalid")
      else
        match QuoteData(globalQuote.value, symbol, toFloat)
        case None => Fail(500, "Invalid response from Alpha Vantage")
        case Some(data) =>
          Ok(QuoteView(data.0, data.1.price, data.1.change, data.1.percentChange, IsoString(IsoFormat(utcNow)),
                       AlphaVantageApi))
  }

  /** The upsert of a fetched answer under its symbol. */
  function StoreAnswer(rule: LookupRule, docs: seq<Document>, oid: nat, v: QuoteView): (r: (seq<Document>, nat))
    ensures |r.0| >= |docs|
    ensures forall i :: 0 <= i < |docs| && docs[i].symbol != v.symbol ==> r.0[i] == docs[i]
  {
    SetQuote(docs, oid, SymbolFilter(rule, v.symbol), v.symbol, QuoteFields(v.price, v.change, v.percentChange),
             v.lastUpdated)
  }

  /** `get_stock_data(symbol)` against `docs`, with the api key, the UTC clock reading `utcNow`,
      the upstream's reply, and readers standing for datetime.fromisoformat and float(). */
  ghost function QuoteRun(rule: LookupRule, docs: seq<Document>, oid: nat, apiKey: Option<string>, symbolIn: string,
                          utcNow: Instant, reply: QuoteReply, fromIso: string -> Option<Instant>,
                          toFloat: string -> Option<real>): (r: QuoteRunResult)
    ensures r.outcome.Fail? ==> r.after == docs && r.nextOid == oid
    ensures r.request.Some? ==> !KeyMissing(apiKey) && r.request.value == Normalize(symbolIn)
    ensures r.outcome.Ok? ==> (r.outcome.value.source == AlphaVantageApi <==> r.request.Some?)
  {
    if KeyMissing(apiKey) then QuoteRunResult(None, Fail(500, "Alpha Vantage API key is missing"), docs, oid)
    else
      var symbol := Normalize(symbolIn);
      var cached := FindFirst(docs, SymbolFilter(rule, symbol));
      if cached.Some? && FreshWithin(cached.value.lastUpdated, utcNow, QuoteFreshMinutes, fromIso) then
        QuoteRunResult(None, CachedQuote(cached.value), docs, oid)
      else
        var answer := FetchAnswer(symbol, utcNow, reply, toFloat);
        var written := if answer.Ok? then StoreAnswer(rule, docs, oid, answer.value) else (docs, oid);
        QuoteRunResult(Some(symbol), answer, written.0, written.1)
  }

  /** The route. `rule` chooses the lookup: `AnySymbol` is the filter as written, `QuoteDocsOnly`
      the corrected one that only quote documents match. */
  method GetStockData(rule: LookupRule, store: StocksCollection, apiKey: Option<string>, symbolIn: string, utcNow: Instant,
                      reply: QuoteReply, fromIso: string -> Option<Instant>, toFloat: string -> Option<real>)
    returns (outcome: Outcome<QuoteView>, request: Option<string>)
    requires store.Valid()
    modifies store
    ensures store.Valid()
    ensures var run := QuoteRun(rule, old(store.docs), old(store.nextOid), apiKey, symbolIn, utcNow,
                                reply, fromIso, toFloat);
      outcome == run.outcome && request == run.request && store.docs == run.after && store.nextOid == run.nextOid
  {
    if KeyMissing(apiKey) {
      return Fail(500, "Alpha Vantage API key is missing"), None;
    }
    var symbol := Normalize(symbolIn);
    var cached := store.Find(SymbolFilter(rule, symbol));
    if cached.Some? && FreshWithin(cached.value.lastUpdated, utcNow, QuoteFreshMinutes, fromIso) {
      return CachedQuote(cached.value), None;
    }
    request := Some(symbol);
    if reply.QuoteUnreachable? {
      return Fail(500, "Failed to fetch stock data from Alpha Vantage"), request;
    }
    var globalQuote := reply.globalQuote;
    if globalQuote.None? || globalQuote.value == map[] {
      return Fail(404, "Stock symbol '" + symbol + "' not found or invalid"), request;
    }
    var data := QuoteData(globalQuote.value, symbol, toFloat);
    if data.None? {
      return Fail(500, "Invalid response from Alpha Vantage"), request;
    }
    var stockSymbol := data.value.0;
    var fields := data.value.1;
    var stamp := IsoString(IsoFormat(utcNow));
    store.UpsertQuote(SymbolFilter(rule, stockSymbol), stockSymbol, fields, stamp);
    outcome := Ok(QuoteView(stockSymbol, fields.price, fields.change, fields.percentChange, stamp, AlphaVantageApi));
  }

  // ---- what the route promises --------------------------------------------------------------

  /** Without an api key nothing else happens; every failure leaves the cache as it was; a request
      goes out exactly when the key is set and no fresh document is found, and then asks about the
      stripped, upper-cased symbol. */
  lemma QuoteFailuresLeaveCache(rule: LookupRule, docs: seq<Document>, oid: nat, apiKey: Option<string>,
                                symbolIn: string, utcNow: Instant, reply: QuoteReply,
                                fromIso: string -> Option<Instant>, toFloat: string -> Option<real>)
    ensures var run := QuoteRun(rule, docs, oid, apiKey, symbolIn, utcNow, reply, fromIso, toFloat);
      (KeyMissing(apiKey) ==> run == QuoteRunResult(None, Fail(500, "Alpha Vantage API key is missing"), docs, oid)) &&
      (run.outcome.Fail? ==> run.after == docs && run.nextOid == oid) &&
      (run.request.Some? <==>
         !KeyMissing(apiKey) &&
         var cached := FindFirst(docs, SymbolFilter(rule, Normalize(symbolIn)));
         !(cached.Some? && FreshWithin(cached.value.lastUpdated, utcNow, QuoteFreshMinutes, fromIso))) &&
      (run.request.Some? ==> run.request.value == Normalize(symbolIn))
  {
  }

  /** With the upstream asked: a transport failure is a 500, a missing or empty Global Quote a 404
      naming the symbol, a price or change that is not a number a 500. */
  lemma QuoteUpstreamErrors(rule: LookupRule, docs: seq<Document>, oid: nat, apiKey: Option<string>,
                            symbolIn: string, utcNow: Instant, reply: QuoteReply,
                            fromIso: string -> Option<Instant>, toFloat: string -> Option<real>)
    ensures var run := QuoteRun(rule, docs, oid, apiKey, symbolIn, utcNow, reply, fromIso, toFloat);
      var symbol := Normalize(symbolIn);
      run.request.Some? ==>
        (reply.QuoteUnreachable? ==> run.outcome == Fail(500, "Failed to fetch stock data from Alpha Vantage")) &&
        (reply.QuoteBody? && (reply.globalQuote.None? || reply.globalQuote.value == map[]) ==>
           run.outcome == Fail(404, "Stock symbol '" + symbol + "' not found or invalid")) &&
        (reply.QuoteBody? && reply.globalQuote.Some? && reply.globalQuote.value != map[] &&
         QuoteData(reply.globalQuote.value, symbol, toFloat).None? ==>
           run.outcome == Fail(500, "Invalid response from Alpha Vantage"))
  {
  }

  /** A request that asked the upstream and succeeded returns the fetched answer, stamped with
      the clock, and upserts it under its symbol. */
  lemma QuoteFetched(rule: LookupRule, docs: seq<Document>, oid: nat, apiKey: Option<string>, symbolIn: string,
                     utcNow: Instant, reply: QuoteReply, fromIso: string -> Option<Instant>,
                     toFloat: string -> Option<real>)
    requires var run := QuoteRun(rule, docs, oid, apiKey, symbolIn, utcNow, reply, fromIso, toFloat);
      run.request.Some? && run.outcome.Ok?
    ensures var run := QuoteRun(rule, docs, oid, apiKey, symbolIn, utcNow, reply, fromIso, toFloat);
      var v := run.outcome.value;
      run.outcome == FetchAnswer(Normalize(symbolIn), utcNow, reply, toFloat) &&
      v.lastUpdated == IsoString(IsoFormat(utcNow)) && v.source == AlphaVantageApi &&
      (run.after, run.nextOid) == StoreAnswer(rule, docs, oid, v)
  {
  }

  /** A fresh document found by the lookup is served as it is, without a request or a write. */
  lemma QuoteHit(rule: LookupRule, docs: seq<Document>, oid: nat, apiKey: Option<string>, symbolIn: string,
                 utcNow: Instant, reply: QuoteReply, fromIso: string -> Option<Instant>,
                 toFloat: string -> Option<real>, d: Document)
    requires !KeyMissing(apiKey)
    requires FindFirst(docs, SymbolFilter(rule, Normalize(symbolIn))) == Some(d)
    requires FreshWithin(d.lastUpdated, utcNow, QuoteFreshMinutes, fromIso)
    ensures QuoteRun(rule, docs, oid, apiKey, symbolIn, utcNow, reply, fromIso, toFloat) ==
            QuoteRunResult(None, CachedQuote(d), docs, oid)
  {
  }

  /** Under either lookup, the answer a fetch returns is served back from the cache, with no
      request, to a request for the same symbol less than 5 minutes later. */
  lemma QuoteFetchThenHit(rule: LookupRule, docs: seq<Document>, oid: nat, apiKey: Option<string>, symbolIn: string,
                          utcNow: Instant, reply: QuoteReply, symbolIn2: string, later: Instant, reply2: QuoteReply,
                          fromIso: string -> Option<Instant>, toFloat: string -> Option<real>)
    requires ReadsIsoFormat(fromIso)
    requires var run := QuoteRun(rule, docs, oid, apiKey, symbolIn, utcNow, reply, fromIso, toFloat);
      run.request.Some? && run.outcome.Ok? && run.outcome.value.symbol == Normalize(symbolIn2)
    requires Micros(later) - Micros(utcNow) < QuoteFreshMinutes * 60000000
    ensures var run := QuoteRun(rule, docs, oid, apiKey, symbolIn, utcNow, reply, fromIso, toFloat);
      var again := QuoteRun(rule, run.after, run.nextOid, apiKey, symbolIn2, later, reply2, fromIso, toFloat);
      again.request.None? && again.after == run.after &&
      again.outcome == Ok(run.outcome.value.(source := MongoDBCache))
  {
    var run := QuoteRun(rule, docs, oid, apiKey, symbolIn, utcNow, reply, fromIso, toFloat);
    var v := run.outcome.value;
    QuoteFetched(rule, docs, oid, apiKey, symbolIn, utcNow, reply, fromIso, toFloat);
    var p := SymbolFilter(rule, v.symbol);
    var q := QuoteFields(v.price, v.change, v.percentChange);
    SetQuoteFound(docs, oid, p, v.symbol, q, v.lastUpdated);
    var d := FindFirst(run.after, p).value;
    FreshAfterWrite(utcNow, later, QuoteFreshMinutes, fromIso);
    QuoteHit(rule, run.after, run.nextOid, apiKey, symbolIn2, later, reply2, fromIso, toFloat, d);
  }

  /** Under the corrected lookup the answer depends on the quote documents only: two collections
      with the same quote documents, in the same order, get the same answer and the same
      request. */
  lemma QuoteIgnoresChartDocuments(docs: seq<Document>, docs2: seq<Document>, oid: nat, oid2: nat,
                                   apiKey: Option<string>, symbolIn: string, utcNow: Instant, reply: QuoteReply,
                                   fromIso: string -> Option<Instant>, toFloat: string -> Option<real>)
    requires Filter(docs, IsQuoteDoc) == Filter(docs2, IsQuoteDoc)
    ensures var run := QuoteRun(QuoteDocsOnly, docs, oid, apiKey, symbolIn, utcNow, reply, fromIso, toFloat);
      var run2 := QuoteRun(QuoteDocsOnly, docs2, oid2, apiKey, symbolIn, utcNow, reply, fromIso, toFloat);
      run.outcome == run2.outcome && run.request == run2.request
  {
    var p := SymbolFilter(QuoteDocsOnly, Normalize(symbolIn));
    FindFirstFilter(docs, p, IsQuoteDoc);
    FindFirstFilter(docs2, p, IsQuoteDoc);
    QuoteAnswerFromLookup(QuoteDocsOnly, docs, docs2, oid, oid2, apiKey, symbolIn, utcNow, reply, fromIso, toFloat);
  }

  /** The answer and the request depend on the collection only through what the lookup finds. */
  lemma QuoteAnswerFromLookup(rule: LookupRule, docs: seq<Document>, docs2: seq<Document>, oid: nat, oid2: nat,
                              apiKey: Option<string>, symbolIn: string, utcNow: Instant, reply: QuoteReply,
                              fromIso: string -> Option<Instant>, toFloat: string -> Option<real>)
    requires var p := SymbolFilter(rule, Normalize(symbolIn)); FindFirst(docs, p) == FindFirst(docs2, p)
    ensures var run := QuoteRun(rule, docs, oid, apiKey, symbolIn, utcNow, reply, fromIso, toFloat);
      var run2 := QuoteRun(rule, docs2, oid2, apiKey, symbolIn, utcNow, reply, fromIso, toFloat);
      run.outcome == run2.outcome && run.request == run2.request
  {
  }

  /** Under the corrected lookup a quote write keeps chart and quote documents apart and leaves
      every chart document as it was. */
  lemma QuoteKeepsSegregation(docs: seq<Document>, oid: nat, apiKey: Option<string>, symbolIn: string,
                              utcNow: Instant, reply: QuoteReply,
                              fromIso: string -> Option<Instant>, toFloat: string -> Option<real>)
    requires Segregated(docs)
    ensures var run := QuoteRun(QuoteDocsOnly, docs, oid, apiKey, symbolIn, utcNow, reply, fromIso, toFloat);
      Segregated(run.after) && |run.after| >= |docs| &&
      forall i :: 0 <= i < |docs| && docs[i].chart.Some? ==> run.after[i] == docs[i]
  {
    var run := QuoteRun(QuoteDocsOnly, docs, oid, apiKey, symbolIn, utcNow, reply, fromIso, toFloat);
    if run.after != docs {
      var v := run.outcome.value;
      SetQuoteSegregated(docs, oid, SymbolFilter(QuoteDocsOnly, v.symbol), v.symbol,
                         QuoteFields(v.price, v.change, v.percentChange), v.lastUpdated);
    }
  }
}
