/** `get_chart_data` (backend/routes/stock_chart.py, path `/{symbol}?period=...`): serve a cached chart
    while it is under 30 minutes old, otherwise ask the upstream for a daily or 5-minute intraday
    time series, keep the keys that parse as dates not in the future, cut the window the period
    asks for, and cache and return its dates, closing prices and trend. */
module StockChart {
  import opened Outcomes
  import opened Text
  import opened Seqs
  import opened Calendar
  import opened Store
  import opened KeyOrder

  // ---- the upstream request -----------------------------------------------------------------

  datatype SeriesFunction = TimeSeriesIntraday | TimeSeriesDaily
  datatype OutputSize = Compact | Full

  /** The query parameters that depend on the period, and the key the series arrives under. */
  datatype SeriesParams = SeriesParams(series: SeriesFunction, interval: Option<string>,
                                       outputSize: OutputSize, seriesKey: string)

  /** The request the route sends (the api key and the cache-busting timestamp are left out). */
  datatype SeriesRequest = SeriesRequest(params: SeriesParams, symbol: string)

  /** "1d" asks for 5-minute intraday bars in full; "1w" and "1m" for the compact daily series;
      every other period for the full daily series. */
  function PeriodParams(period: string): (p: SeriesParams)
    ensures p.series == TimeSeriesIntraday <==> period == "1d"
    ensures p.series == TimeSeriesIntraday <==> p.interval.Some?
    ensures p.interval.Some? ==> p.interval.value == "5min" && p.seriesKey == "Time Series (5min)"
    ensures p.interval.None? ==> p.seriesKey == "Time Series (Daily)"
    ensures p.outputSize == Compact <==> period == "1w" || period == "1m"
  {
    if period == "1d" then
      var interval := "5min";
      SeriesParams(TimeSeriesIntraday, Some(interval), Full, "Time Series (" + interval + ")")
    else if period in ["1w", "1m"] then
      SeriesParams(TimeSeriesDaily, None, Compact, "Time Series (Daily)")
    else
      SeriesParams(TimeSeriesDaily, None, Full, "Time Series (Daily)")
  }

  /** The upstream's answer as far as the route reads it: a transport failure (a connection
      error, an HTTP error status or a body that is not JSON), or a JSON object with its
      "Information" text, whether it has an "Error Message", and its time series objects. */
  datatype ChartReply =
    | ChartUnreachable
    | ChartBody(information: Option<string>, hasErrorMessage: bool,
                series: map<string, map<string, map<string, string>>>)

  type TimeSeries = map<string, map<string, string>>

  // ---- the cache ----------------------------------------------------------------------------

  const ChartFreshMinutes: nat := 30

  /** `chart_{SYMBOL}_{period}`. */
  function CacheKey(symbol: string, period: string): (r: string)
    ensures |r| == 7 + |symbol| + |period|
    ensures r[..6] == "chart_" && r[6..6 + |symbol|] == symbol
    ensures r[6 + |symbol|] == '_' && r[7 + |symbol|..] == period
  {
    "chart_" + symbol + "_" + period
  }

  /** Within a period, two symbols share a cache key only when they are the same symbol. */
  lemma CacheKeyInjective(symbol1: string, symbol2: string, period: string)
    requires CacheKey(symbol1, period) == CacheKey(symbol2, period)
    ensures symbol1 == symbol2
  {
    var k := CacheKey(symbol1, period);
    assert |symbol1| == |symbol2|;
    assert k[6..6 + |symbol1|] == symbol1;
    assert CacheKey(symbol2, period)[6..6 + |symbol2|] == symbol2;
  }

  /** What the route returns: a cached document without its _id, with the rate-limit notice when
      it is served because of one, or the freshly built result. */
  datatype ChartView = ChartView(symbol: string, chart: Option<ChartFields>, quote: Option<QuoteFields>,
                                 lastUpdated: Stamp, rateLimitMessage: Option<string>)

  function CachedView(d: Document, rateLimitMessage: Option<string>): ChartView
  {
    ChartView(d.symbol, d.chart, d.quote, d.lastUpdated, rateLimitMessage)
  }

  /** `"rate limit" in information.lower()`. */
  predicate RateLimited(information: Option<string>)
    ensures information.None? ==> !RateLimited(information)
    ensures information.Some? && Contains(information.value, "rate limit") ==> RateLimited(information)
  {
    information.Some? &&
    (LowerKeepsContains(information.value, "rate limit"); Contains(Lower(information.value), "rate limit"))
  }

  // ---- dates --------------------------------------------------------------------------------

  /** A key survives the date filter when it parses in the period's format and is not later
      than now (intraday: the datetime; daily: the date). */
  predicate KeepKey(key: string, intraday: bool, now: Instant)
    ensures KeepKey(key, intraday, now) ==> |key| > 0 && IsDigit(key[0])
  {
    if intraday then
      match ParseMomentKey(key)
      case Some(t) => DateTimeLeq(t, now)
      case None => false
    else
      match ParseDayKey(key)
      case Some(d) => DateLeq(d, DateOf(now))
      case None => false
  }

  function KeepFor(intraday: bool, now: Instant): string -> bool
  {
    (k: string) => KeepKey(k, intraday, now)
  }

  function StartingWith(prefix: string): string -> bool
  {
    (d: string) => StartsWith(d, prefix)
  }

  /** The sorted keys of the series that survive the date filter. */
  ghost function ValidKeys(ts: TimeSeries, intraday: bool, now: Instant): seq<string>
  {
    Filter(SortedKeys(ts.Keys), KeepFor(intraday, now))
  }

  /** The valid keys are the keys of the series that parse and are not in the future, each once,
      in ascending order. */
  lemma ValidKeysSpec(ts: TimeSeries, intraday: bool, now: Instant)
    ensures StrictlySorted(ValidKeys(ts, intraday, now))
    ensures forall k :: k in ValidKeys(ts, intraday, now) <==> k in ts && KeepKey(k, intraday, now)
  {
    var sorted := SortedKeys(ts.Keys);
    SortedKeysSpec(ts.Keys);
    FilterSorted(sorted, KeepFor(intraday, now));
    forall k | k in ts && KeepKey(k, intraday, now)
      ensures k in ValidKeys(ts, intraday, now)
    {
      FilterComplete(sorted, KeepFor(intraday, now), k);
    }
  }

  /** The date filter loop over the sorted keys. */
  method FilterValidDates(sorted: seq<string>, intraday: bool, now: Instant) returns (valid: seq<string>)
    ensures valid == Filter(sorted, KeepFor(intraday, now))
  {
    valid := [];
    for i := 0 to |sorted|
      invariant valid == Filter(sorted[..i], KeepFor(intraday, now))
    {
      assert sorted[..i + 1][..i] == sorted[..i];
      if KeepKey(sorted[i], intraday, now) {
        valid := valid + [sorted[i]];
      }
    }
    assert sorted[..|sorted|] == sorted;
  }

  // ---- the window ---------------------------------------------------------------------------

  /** How many trailing daily points each period keeps; 21 for a period it does not know. */
  function WindowSize(period: string): (r: nat)
    ensures 5 <= r <= 1260
    ensures r == 21 <==> period !in {"1w", "3m", "6m", "1y", "5y"}
  {
    if period == "1w" then 5
    else if period == "1m" then 21
    else if period == "3m" then 63
    else if period == "6m" then 126
    else if period == "1y" then 252
    else if period == "5y" then 1260
    else 21
  }

  /** `[d.split()[0] for d in ds]`. */
  function FirstWords(ds: seq<string>): (r: seq<string>)
    requires forall i :: 0 <= i < |ds| ==> HasWord(ds[i])
    ensures |r| == |ds|
  {
    seq(|ds|, i requires 0 <= i < |ds| && HasWord(ds[i]) => FirstWord(ds[i]))
  }

  /** The intraday window: the keys of `today` if there are any; otherwise every key of the day
      of the latest key. None where some key has no word, so that `split()[0]` raises. */
  function IntradayWindow(sorted: seq<string>, today: string): (r: Option<seq<string>>)
    ensures r.None? ==> exists k :: 0 <= k < |sorted| && !HasWord(sorted[k])
    ensures r.Some? ==> |r.value| <= |sorted| && forall i :: 0 <= i < |r.value| ==> r.value[i] in sorted
    ensures r.Some? && (exists k :: 0 <= k < |sorted| && StartsWith(sorted[k], today)) ==>
      forall i :: 0 <= i < |r.value| ==> StartsWith(r.value[i], today)
  {
    var todays := Filter(sorted, StartingWith(today));
    FilterEmpty(sorted, StartingWith(today));
    if todays != [] then Some(todays)
    else
      assert forall k :: 0 <= k < |sorted| ==> !StartsWith(sorted[k], today) by {
        forall k | 0 <= k < |sorted|
          ensures !StartsWith(sorted[k], today)
        {
          assert sorted[k] in sorted;
        }
      }
      if exists k :: 0 <= k < |sorted| && !HasWord(sorted[k]) then None
      else if sorted == [] then Some([])
      else Some(Filter(sorted, StartingWith(FirstWord(sorted[|sorted| - 1]))))
  }

  /** The window of keys the period selects (None where selecting it raises). */
  function Window(valid: seq<string>, period: string, now: Instant): (r: Option<seq<string>>)
    ensures r.Some? ==> |r.value| <= |valid| && forall i :: 0 <= i < |r.value| ==> r.value[i] in valid
    ensures period != "1d" ==> r.Some? && |r.value| == (if WindowSize(period) < |valid| then WindowSize(period) else |valid|)
  {
    if period == "1d" then IntradayWindow(valid, DayText(DateOf(now)))
    else Some(LastN(valid, WindowSize(period)))
  }

  /** `[d for d in sorted if d.startswith(prefix)]`, as the loop that collects today's keys. */
  method KeysStartingWith(sorted: seq<string>, prefix: string) returns (r: seq<string>)
    ensures r == Filter(sorted, StartingWith(prefix))
  {
    r := [];
    for i := 0 to |sorted|
      invariant r == Filter(sorted[..i], StartingWith(prefix))
    {
      assert sorted[..i + 1][..i] == sorted[..i];
      if StartsWith(sorted[i], prefix) {
        r := r + [sorted[i]];
      }
    }
    assert sorted[..|sorted|] == sorted;
  }

  /** The walk from the latest key back that keeps the latest key of each day; None where a key
      has no word. Only its first element is used afterwards: the latest key. */
  method LatestKeyPerDay(sorted: seq<string>) returns (r: Option<seq<string>>)
    ensures r.None? <==> exists k :: 0 <= k < |sorted| && !HasWord(sorted[k])
    ensures r.Some? ==> (r.value == [] <==> sorted == []) &&
                        (r.value != [] ==> r.value[0] == sorted[|sorted| - 1])
  {
    var filtered := [];
    var i := |sorted|;
    while i > 0
      invariant 0 <= i <= |sorted|
      invariant forall k :: i <= k < |sorted| ==> HasWord(sorted[k])
      invariant forall k :: 0 <= k < |filtered| ==> HasWord(filtered[k])
      invariant filtered == [] <==> i == |sorted|
      invariant filtered != [] ==> filtered[0] == sorted[|sorted| - 1]
    {
      i := i - 1;
      if !HasWord(sorted[i]) {
        return None;
      }
      var day := FirstWord(sorted[i]);
      if day !in FirstWords(filtered) {
        filtered := filtered + [sorted[i]];
      }
    }
    r := Some(filtered);
  }

  /** The intraday selection as the route runs it: today's keys; failing those, every key of the
      day of the latest key. */
  method SelectIntraday(sorted: seq<string>, today: string) returns (r: Option<seq<string>>)
    ensures r == IntradayWindow(sorted, today)
  {
    var filtered := KeysStartingWith(sorted, today);
    if filtered == [] {
      var perDay := LatestKeyPerDay(sorted);
      if perDay.None? {
        return None;
      }
      filtered := perDay.value;
      if filtered != [] {
        var mostRecentDay := FirstWord(filtered[0]);
        filtered := Filter(sorted, StartingWith(mostRecentDay));
      }
    }
    r := Some(filtered);
  }

  /** A key that does not start with whitespace starts with its first word. */
  lemma FirstWordIsPrefix(k: string)
    requires |k| > 0 && !IsSpace(k[0])
    ensures HasWord(k) && StartsWith(k, FirstWord(k))
  {
    assert !IsSpace(k[0]);
  }

  /** A key that parses as a date starts with a digit. */
  lemma ParsedKeyStartsWithDigit(k: string)
    requires ParseMomentKey(k).Some? || ParseDayKey(k).Some?
    ensures |k| > 0 && IsDigit(k[0]) && !IsSpace(k[0])
  {
  }

  /** An intraday window over the valid keys: non-empty, ascending, drawn from the keys, and
      holding exactly the keys of today when there are any, otherwise exactly the keys of the day
      of the latest key. */
  ghost predicate IntradayShape(valid: seq<string>, today: string, w: seq<string>)
  {
    w != [] && StrictlySorted(w) && (forall x :: x in w ==> x in valid) &&
    ((exists k :: k in valid && StartsWith(k, today)) ==>
       forall k :: k in valid ==> (k in w <==> StartsWith(k, today))) &&
    ((forall k :: k in valid ==> !StartsWith(k, today)) ==>
       valid != [] && HasWord(valid[|valid| - 1]) && valid[|valid| - 1] in w &&
       forall k :: k in valid ==> (k in w <==> StartsWith(k, FirstWord(valid[|valid| - 1]))))
  }

  /** A daily window over the valid keys: non-empty, ascending, and the last WindowSize(period)
      of them (all of them when there are fewer). */
  ghost predicate DailyShape(valid: seq<string>, period: string, w: seq<string>)
  {
    w != [] && StrictlySorted(w) && (forall x :: x in w ==> x in valid) &&
    |w| == (if WindowSize(period) < |valid| then WindowSize(period) else |valid|) &&
    w == valid[|valid| - |w|..]
  }

  /** A daily key written as strftime("%Y-%m-%d") writes it survives the filter exactly when its
      date is not after today. */
  lemma KeepDayKey(d: Date, now: Instant)
    requires ValidDate(d)
    ensures KeepKey(DayText(d), false, now) <==> DateLeq(d, DateOf(now))
  {
    ParseDayKeyRoundTrip(d);
  }

  /** An intraday key written as "%Y-%m-%d %H:%M:%S" survives the filter exactly when it is not
      after now. */
  lemma KeepMomentKey(t: Instant, now: Instant)
    requires t.micro == 0
    ensures KeepKey(MomentText(t), true, now) <==> DateTimeLeq(t, now)
  {
    ParseMomentKeyRoundTrip(t);
  }

  /** Keys that parse as dates all have a first word, of which they are made up at the start. */
  lemma ParsedKeysHaveWords(valid: seq<string>, now: Instant)
    requires forall k :: k in valid ==> KeepKey(k, true, now)
    ensures forall k :: 0 <= k < |valid| ==> HasWord(valid[k]) && StartsWith(valid[k], FirstWord(valid[k]))
  {
    forall k | 0 <= k < |valid|
      ensures HasWord(valid[k]) && StartsWith(valid[k], FirstWord(valid[k]))
    {
      assert valid[k] in valid;
      ParsedKeyStartsWithDigit(valid[k]);
      FirstWordIsPrefix(valid[k]);
    }
  }

  /** Over ascending keys that all parse, the intraday window never raises and has its shape. */
  lemma {:induction false} IntradayWindowSpec(valid: seq<string>, today: string, now: Instant)
    requires StrictlySorted(valid) && valid != []
    requires forall k :: k in valid ==> KeepKey(k, true, now)
    ensures IntradayWindow(valid, today).Some?
    ensures IntradayShape(valid, today, IntradayWindow(valid, today).value)
  {
    var todays := Filter(valid, StartingWith(today));
    FilterEmpty(valid, StartingWith(today));
    ParsedKeysHaveWords(valid, now);
    if todays != [] {
      FilterSorted(valid, StartingWith(today));
      FilterExact(valid, StartingWith(today));
    } else {
      var last := valid[|valid| - 1];
      var day := FirstWord(last);
      FilterSorted(valid, StartingWith(day));
      FilterExact(valid, StartingWith(day));
      assert last in valid;
    }
  }

  /** Over ascending keys, a daily window has its shape. */
  lemma {:induction false} DailyWindowSpec(valid: seq<string>, period: string, now: Instant)
    requires StrictlySorted(valid) && valid != [] && period != "1d"
    ensures Window(valid, period, now).Some?
    ensures DailyShape(valid, period, Window(valid, period, now).value)
  {
    var n := WindowSize(period);
    var w := LastN(valid, n);
    assert Window(valid, period, now) == Some(w);
    LastNSorted(valid, n);
    forall k | k in w
      ensures k in valid
    {
      var i :| 0 <= i < |w| && w[i] == k;
      assert k == valid[|valid| - |w| + i];
    }
  }

  // ---- points -------------------------------------------------------------------------------

  /** `f"{p[0]}:{p[1]}"` for `p = key.split()[1].split(":")`; None where the indexing raises. */
  function ClockLabel(key: string): (r: Option<string>)
    ensures r.Some? ==> |r.value| >= 1 && ':' in r.value
  {
    var words := SplitWs(key);
    if |words| < 2 then None
    else
      var parts := SplitOn(words[1], ':');
      if |parts| < 2 then None
      else
        var hhmm := parts[0] + ":" + parts[1];
        assert hhmm[|parts[0]|] == ':';
        Some(hhmm)
  }

  /** A key made of a date, a space and a clock "HH:MM:SS" (as the upstream writes its intraday
      keys) is labelled with its HH:MM. */
  lemma ClockLabelOf(date: string, hh: string, mm: string, ss: string)
    requires date != [] && NoSpace(date) && NoSpace(hh) && NoSpace(mm) && NoSpace(ss)
    requires ':' !in hh && ':' !in mm
    ensures ClockLabel(date + " " + hh + ":" + mm + ":" + ss) == Some(hh + ":" + mm)
  {
    var rest := mm + ":" + ss;
    var clock := hh + ":" + rest;
    ClockNoSpace(hh, mm, ss);
    assert date + " " + hh + ":" + mm + ":" + ss == date + " " + clock;
    SplitWsPair(date, clock);
    SplitOnPrefix(hh, ':', rest);
    SplitOnPrefix(mm, ':', ss);
  }

  lemma ClockNoSpace(hh: string, mm: string, ss: string)
    requires NoSpace(hh) && NoSpace(mm) && NoSpace(ss)
    ensures NoSpace(hh + ":" + (mm + ":" + ss))
  {
    assert NoSpace(":");
    NoSpaceConcat(mm, ":");
    NoSpaceConcat(mm + ":", ss);
    NoSpaceConcat(hh, ":");
    NoSpaceConcat(hh + ":", mm + ":" + ss);
  }

  /** The label a key gets: HH:MM for intraday keys, the key itself for daily ones. */
  function Label(key: string, intraday: bool): (r: Option<string>)
    ensures !intraday ==> r == Some(key)
    ensures intraday && r.Some? ==> ':' in r.value
  {
    if intraday then ClockLabel(key) else Some(key)
  }

  /** `float(time_series[key]["4. close"])`; None where a key is missing or float() raises. */
  function ClosePrice(ts: TimeSeries, key: string, toFloat: string -> Option<real>): (r: Option<real>)
    ensures key !in ts || "4. close" !in ts[key] ==> r.None?
    ensures key in ts && "4. close" in ts[key] ==> r == toFloat(ts[key]["4. close"])
  {
    if key in ts && "4. close" in ts[key] then toFloat(ts[key]["4. close"]) else None
  }

  predicate PointOk(ts: TimeSeries, key: string, intraday: bool, toFloat: string -> Option<real>)
  {
    Label(key, intraday).Some? && ClosePrice(ts, key, toFloat).Some?
  }

  /** The labels and closing prices of the window, one of each per key and in the window's
      order; None exactly when some key cannot be labelled or priced. */
  function Points(keys: seq<string>, ts: TimeSeries, intraday: bool, toFloat: string -> Option<real>)
    : (r: Option<(seq<string>, seq<real>)>)
    ensures r.Some? <==> forall i :: 0 <= i < |keys| ==> PointOk(ts, keys[i], intraday, toFloat)
    ensures r.Some? ==>
      |r.value.0| == |keys| && |r.value.1| == |keys| &&
      forall i :: 0 <= i < |keys| ==>
        Label(keys[i], intraday) == Some(r.value.0[i]) && ClosePrice(ts, keys[i], toFloat) == Some(r.value.1[i])
    decreases |keys|
  {
    if keys == [] then Some(([], []))
    else
      var k := keys[|keys| - 1];
      match Points(keys[..|keys| - 1], ts, intraday, toFloat)
      case None => None
      case Some(acc) =>
        match (Label(k, intraday), ClosePrice(ts, k, toFloat))
        case (Some(l), Some(p)) => Some((acc.0 + [l], acc.1 + [p]))
        case _ => None
  }

  /** The loop that collects the labels and prices. */
  method CollectPoints(keys: seq<string>, ts: TimeSeries, intraday: bool, toFloat: string -> Option<real>)
    returns (r: Option<(seq<string>, seq<real>)>)
    ensures r == Points(keys, ts, intraday, toFloat)
  {
    var dates: seq<string> := [];
    var prices: seq<real> := [];
    for i := 0 to |keys|
      invariant Points(keys[..i], ts, intraday, toFloat) == Some((dates, prices))
    {
      assert keys[..i + 1][..i] == keys[..i];
      var shown := Label(keys[i], intraday);
      if shown.None? {
        assert !PointOk(ts, keys[i], intraday, toFloat);
        return None;
      }
      var price := ClosePrice(ts, keys[i], toFloat);
      if price.None? {
        assert !PointOk(ts, keys[i], intraday, toFloat);
        return None;
      }
      dates := dates + [shown.value];
      prices := prices + [price.value];
    }
    assert keys[..|keys|] == keys;
    r := Some((dates, prices));
  }

  // ---- trend --------------------------------------------------------------------------------

  /** "up" when the last price is above the first, "down" when below, "neutral" otherwise and for
      fewer than two prices. */
  function TrendOf(prices: seq<real>): (t: Trend)
    ensures t == Up <==> |prices| > 1 && prices[0] < prices[|prices| - 1]
    ensures t == Down <==> |prices| > 1 && prices[|prices| - 1] < prices[0]
  {
    if |prices| > 1 then
      var first := prices[0];
      var last := prices[|prices| - 1];
      if last > first then Up else if last < first then Down else Neutral
    else Neutral
  }

  function Opposite(t: Trend): Trend
  {
    match t
    case Up => Down
    case Down => Up
    case Neutral => Neutral
  }

  /** Read backwards, a series has the opposite trend; the trend depends on the endpoints only. */
  lemma TrendReversed(prices: seq<real>)
    ensures TrendOf(Reverse(prices)) == Opposite(TrendOf(prices))
    ensures |prices| > 1 ==> TrendOf(prices) == TrendOf([prices[0], prices[|prices| - 1]])
  {
    var r := Reverse(prices);
    if |prices| > 1 {
      assert r[0] == prices[|prices| - 1] && r[|r| - 1] == prices[0];
    }
  }

  // ---- the route ----------------------------------------------------------------------------

  /** From a time series to the chart fields: 404 when no key survives the date filter, 500 when
      selecting or reading the window raises. */
  ghost function BuildChart(symbol: string, period: string, ts: TimeSeries, now: Instant,
                            toFloat: string -> Option<real>): (r: Outcome<ChartFields>)
    ensures r.Fail? ==> r.code == 404 || r == Crash()
    ensures r.Ok? ==> r.value.period == period && |r.value.dates| == |r.value.prices| &&
                      r.value.trend == TrendOf(r.value.prices)
  {
    var intraday := period == "1d";
    var valid := ValidKeys(ts, intraday, now);
    if valid == [] then Fail(404, "No valid historical data available for " + symbol)
    else match Window(valid, period, now)
      case None => Crash()
      case Some(w) =>
        match Points(w, ts, intraday, toFloat)
        case None => Crash()
        case Some(pts) => Ok(ChartFields(period, pts.0, pts.1, TrendOf(pts.1)))
  }

  /** One request's effects: the upstream request it sends (if any), what it returns, and the
      documents afterwards. */
  datatype ChartRunResult = ChartRunResult(request: Option<SeriesRequest>, outcome: Outcome<ChartView>,
                                           after: seq<Document>)

  /** The route after it has decided to ask the upstream, given the cached document if any. */
  ghost function AfterRequest(docs: seq<Document>, symbol: string, period: string, cached: Option<Document>,
                              now: Instant, reply: ChartReply, toFloat: string -> Option<real>)
    : (r: (Outcome<ChartView>, seq<Document>))
    ensures r.0.Fail? ==> r.1 == docs
    ensures r.0.Ok? ==>
      (cached.Some? && r.0.value.symbol == cached.value.symbol && r.0.value.chart == cached.value.chart &&
       r.0.value.lastUpdated == cached.value.lastUpdated) ||
      (r.0.value.symbol == symbol && r.0.value.chart.Some? && r.0.value.lastUpdated == IsoString(IsoFormat(now)))
    ensures r.1 == docs || (r.0.Ok? && r.0.value.chart.Some? && r.1 == SetChart(docs, CacheKey(symbol, period), symbol, r.0.value.chart.value,
                                                       IsoString(IsoFormat(now))))
  {
    var params := PeriodParams(period);
    match reply
    case ChartUnreachable => (Fail(503, "Error fetching data from provider"), docs)
    case ChartBody(information, hasErrorMessage, series) =>
      if RateLimited(information) then
        if cached.Some? then (Ok(CachedView(cached.value, information)), docs)
        else (Fail(429, "API rate limit reached. Please try again later."), docs)
      else if hasErrorMessage then (Fail(404, "Symbol not found: " + symbol), docs)
      else if params.seriesKey !in series then
        if cached.Some? then (Ok(CachedView(cached.value, None)), docs)
        else (Fail(500, "Unexpected API response format"), docs)
      else
        match BuildChart(symbol, period, series[params.seriesKey], now, toFloat)
        case Fail(code, detail) => (Fail(code, detail), docs)
        case Ok(f) =>
          var stamp := IsoString(IsoFormat(now));
          (Ok(ChartView(symbol, Some(f), None, stamp, None)), SetChart(docs, CacheKey(symbol, period), symbol, f, stamp))
  }

  /** `get_chart_data(symbol, period)` against the documents `docs`, with the clock reading
      `now`, the upstream's reply, and the readers standing for datetime.fromisoformat and
      float(). */
  ghost function ChartRun(docs: seq<Document>, symbolIn: string, period: string, now: Instant, reply: ChartReply,
                          fromIso: string -> Option<Instant>, toFloat: string -> Option<real>): (r: ChartRunResult)
    ensures r.outcome.Fail? ==> r.after == docs
    ensures r.request.None? ==> r.outcome.Ok? && r.after == docs
    ensures r.request.Some? ==> r.request.value == SeriesRequest(PeriodParams(period), Upper(symbolIn))
  {
    var symbol := Upper(symbolIn);
    var cached := FindFirst(docs, HasId(CacheKey(symbol, period)));
    if cached.Some? && FreshWithin(cached.value.lastUpdated, now, ChartFreshMinutes, fromIso) then
      ChartRunResult(None, Ok(CachedView(cached.value, None)), docs)
    else
      var r := AfterRequest(docs, symbol, period, cached, now, reply, toFloat);
      ChartRunResult(Some(SeriesRequest(PeriodParams(period), symbol)), r.0, r.1)
  }

  /** The sort, filter, window and points steps of the route on the series it received. */
  method BuildFromSeries(symbol: string, period: string, ts: TimeSeries, now: Instant,
                         toFloat: string -> Option<real>) returns (b: Outcome<ChartFields>)
    ensures b == BuildChart(symbol, period, ts, now, toFloat)
  {
    var intraday := period == "1d";
    var sortedDates := SortKeys(ts.Keys);
    var valid := FilterValidDates(sortedDates, intraday, now);
    if valid == [] {
      return Fail(404, "No valid historical data available for " + symbol);
    }
    var window: Option<seq<string>>;
    if intraday {
      window := SelectIntraday(valid, DayText(DateOf(now)));
    } else {
      window := Some(LastN(valid, WindowSize(period)));
    }
    if window.None? {
      return Crash();
    }
    var points := CollectPoints(window.value, ts, intraday, toFloat);
    if points.None? {
      return Crash();
    }
    b := Ok(ChartFields(period, points.value.0, points.value.1, TrendOf(points.value.1)));
  }

  method GetChartData(store: StocksCollection, symbolIn: string, period: string, now: Instant, reply: ChartReply,
                      fromIso: string -> Option<Instant>, toFloat: string -> Option<real>)
    returns (outcome: Outcome<ChartView>, request: Option<SeriesRequest>)
    requires store.Valid()
    modifies store
    ensures store.Valid()
    ensures var run := ChartRun(old(store.docs), symbolIn, period, now, reply, fromIso, toFloat);
      outcome == run.outcome && request == run.request && store.docs == run.after
    ensures store.nextOid == old(store.nextOid)
  {
    var symbol := Upper(symbolIn);
    var cacheKey := CacheKey(symbol, period);
    var cached := store.Find(HasId(cacheKey));
    var params := PeriodParams(period);
    if cached.Some? && FreshWithin(cached.value.lastUpdated, now, ChartFreshMinutes, fromIso) {
      return Ok(CachedView(cached.value, None)), None;
    }
    request := Some(SeriesRequest(params, symbol));
    if reply.ChartUnreachable? {
      return Fail(503, "Error fetching data from provider"), request;
    }
    if RateLimited(reply.information) {
      if cached.Some? {
        return Ok(CachedView(cached.value, reply.information)), request;
      }
      return Fail(429, "API rate limit reached. Please try again later."), request;
    }
    if reply.hasErrorMessage {
      return Fail(404, "Symbol not found: " + symbol), request;
    }
    if params.seriesKey !in reply.series {
      if cached.Some? {
        return Ok(CachedView(cached.value, None)), request;
      }
      return Fail(500, "Unexpected API response format"), request;
    }
    var built := BuildFromSeries(symbol, period, reply.series[params.seriesKey], now, toFloat);
    if built.Fail? {
      return Fail(built.code, built.detail), request;
    }
    var fields := built.value;
    var stamp := IsoString(IsoFormat(now));
    store.UpsertChart(cacheKey, symbol, fields, stamp);
    outcome := Ok(ChartView(symbol, Some(fields), None, stamp, None));
  }

  // ---- what the route promises --------------------------------------------------------------

  /** The window of keys a period selects from a series. */
  ghost function ChartWindow(ts: TimeSeries, period: string, now: Instant): Option<seq<string>>
  {
    Window(ValidKeys(ts, period == "1d", now), period, now)
  }

  /** The window of a chart is made of keys of the series that parse and are not in the future,
      and has the intraday shape for "1d" and the daily shape otherwise. */
  ghost predicate WindowShape(ts: TimeSeries, period: string, now: Instant, w: seq<string>)
  {
    var intraday := period == "1d";
    var valid := ValidKeys(ts, intraday, now);
    (forall k :: k in w ==> k in ts && KeepKey(k, intraday, now)) &&
    (if intraday then IntradayShape(valid, DayText(DateOf(now)), w) else DailyShape(valid, period, w))
  }

  /** The points of a chart: one date and one closing price per key of the window, in its order,
      the dates being the HH:MM of the keys for "1d" and the keys themselves otherwise, and the
      trend of those prices. */
  ghost predicate PointsShape(f: ChartFields, ts: TimeSeries, period: string, w: seq<string>,
                              toFloat: string -> Option<real>)
  {
    f.period == period && |f.dates| == |w| && |f.prices| == |w| &&
    (forall i :: 0 <= i < |w| ==>
       ClosePrice(ts, w[i], toFloat) == Some(f.prices[i]) &&
       (if period == "1d" then ClockLabel(w[i]) == Some(f.dates[i]) else f.dates[i] == w[i])) &&
    f.trend == TrendOf(f.prices)
  }

  /** Whenever some key survives the date filter, the period's window has the shape above. */
  lemma ChartWindowSpec(ts: TimeSeries, period: string, now: Instant)
    requires ValidKeys(ts, period == "1d", now) != []
    ensures ChartWindow(ts, period, now).Some?
    ensures WindowShape(ts, period, now, ChartWindow(ts, period, now).value)
  {
    var intraday := period == "1d";
    var valid := ValidKeys(ts, intraday, now);
    ValidKeysSpec(ts, intraday, now);
    if intraday {
      IntradayWindowSpec(valid, DayText(DateOf(now)), now);
    } else {
      DailyWindowSpec(valid, period, now);
    }
  }

  /** Building a chart answers 404 exactly when no key of the series survives the date filter,
      and fails otherwise only with a 500, for a key that cannot be read. */
  lemma BuildChartFailures(symbol: string, period: string, ts: TimeSeries, now: Instant, toFloat: string -> Option<real>)
    ensures var b := BuildChart(symbol, period, ts, now, toFloat);
      (b == Fail(404, "No valid historical data available for " + symbol) <==>
         forall k :: k in ts ==> !KeepKey(k, period == "1d", now)) &&
      (b.Fail? ==> b == Fail(404, "No valid historical data available for " + symbol) || b == Crash())
  {
    var intraday := period == "1d";
    var valid := ValidKeys(ts, intraday, now);
    ValidKeysSpec(ts, intraday, now);
    if valid != [] {
      assert valid[0] in ts && KeepKey(valid[0], intraday, now);
    }
  }

  /** A series holding one well-formed key of the period's format that is not in the future never
      gets the "no valid historical data" 404. */
  lemma WellFormedKeyAvoids404(symbol: string, period: string, ts: TimeSeries, now: Instant,
                               toFloat: string -> Option<real>, t: Instant)
    requires t.micro == 0
    requires if period == "1d" then MomentText(t) in ts && DateTimeLeq(t, now)
             else DayText(DateOf(t)) in ts && DateLeq(DateOf(t), DateOf(now))
    ensures BuildChart(symbol, period, ts, now, toFloat) != Fail(404, "No valid historical data available for " + symbol)
  {
    BuildChartFailures(symbol, period, ts, now, toFloat);
    if period == "1d" {
      KeepMomentKey(t, now);
    } else {
      KeepDayKey(DateOf(t), now);
    }
  }

  /** A chart that is built holds the points of the period's window, which has the shape above. */
  lemma BuildChartShape(symbol: string, period: string, ts: TimeSeries, now: Instant, toFloat: string -> Option<real>)
    requires BuildChart(symbol, period, ts, now, toFloat).Ok?
    ensures ChartWindow(ts, period, now).Some?
    ensures WindowShape(ts, period, now, ChartWindow(ts, period, now).value)
    ensures PointsShape(BuildChart(symbol, period, ts, now, toFloat).value, ts, period,
                        ChartWindow(ts, period, now).value, toFloat)
  {
    ChartWindowSpec(ts, period, now);
  }

  /** A fresh cached chart is returned as stored, without a request and without a write. */
  lemma ChartCacheHit(docs: seq<Document>, symbolIn: string, period: string, now: Instant, reply: ChartReply,
                      fromIso: string -> Option<Instant>, toFloat: string -> Option<real>)
    requires var cached := FindFirst(docs, HasId(CacheKey(Upper(symbolIn), period)));
      cached.Some? && FreshWithin(cached.value.lastUpdated, now, ChartFreshMinutes, fromIso)
    ensures var run := ChartRun(docs, symbolIn, period, now, reply, fromIso, toFloat);
      var cached := FindFirst(docs, HasId(CacheKey(Upper(symbolIn), period)));
      run.request.None? && run.after == docs && run.outcome == Ok(CachedView(cached.value, None))
  {
  }

  /** Otherwise the route asks for the period's series of the upper-cased symbol. A transport
      failure is a 503; a rate-limit notice or a reply without the series falls back to the cached
      chart however old (noting the notice), and without one is a 429 or a 500; an error message
      is a 404. None of these writes. */
  lemma ChartUpstreamOutcomes(docs: seq<Document>, symbolIn: string, period: string, now: Instant, reply: ChartReply,
                              fromIso: string -> Option<Instant>, toFloat: string -> Option<real>)
    ensures var run := ChartRun(docs, symbolIn, period, now, reply, fromIso, toFloat);
      var symbol := Upper(symbolIn);
      var cached := FindFirst(docs, HasId(CacheKey(symbol, period)));
      var key := PeriodParams(period).seriesKey;
      run.request.Some? ==>
        run.request.value == SeriesRequest(PeriodParams(period), symbol) &&
        (reply.ChartUnreachable? ==> run.outcome == Fail(503, "Error fetching data from provider")) &&
        (reply.ChartBody? && RateLimited(reply.information) ==>
           run.outcome == (if cached.Some? then Ok(CachedView(cached.value, reply.information))
                           else Fail(429, "API rate limit reached. Please try again later."))) &&
        (reply.ChartBody? && !RateLimited(reply.information) && reply.hasErrorMessage ==>
           run.outcome == Fail(404, "Symbol not found: " + symbol)) &&
        (reply.ChartBody? && !RateLimited(reply.information) && !reply.hasErrorMessage && key !in reply.series ==>
           run.outcome == (if cached.Some? then Ok(CachedView(cached.value, None))
                           else Fail(500, "Unexpected API response format"))) &&
        (reply.ChartUnreachable? || RateLimited(reply.information) || reply.hasErrorMessage || key !in reply.series ==>
           run.after == docs)
    ensures var run := ChartRun(docs, symbolIn, period, now, reply, fromIso, toFloat);
      run.request.None? <==>
        var cached := FindFirst(docs, HasId(CacheKey(Upper(symbolIn), period)));
        cached.Some? && FreshWithin(cached.value.lastUpdated, now, ChartFreshMinutes, fromIso)
  {
  }

  /** A request that changed the documents built a chart from the series it received, returned
      it stamped with the clock, and wrote it under the request's cache key. */
  lemma ChartWritten(docs: seq<Document>, symbolIn: string, period: string, now: Instant, reply: ChartReply,
                     fromIso: string -> Option<Instant>, toFloat: string -> Option<real>)
    requires ChartRun(docs, symbolIn, period, now, reply, fromIso, toFloat).after != docs
    ensures var run := ChartRun(docs, symbolIn, period, now, reply, fromIso, toFloat);
      var symbol := Upper(symbolIn);
      var stamp := IsoString(IsoFormat(now));
      reply.ChartBody? && PeriodParams(period).seriesKey in reply.series &&
      var built := BuildChart(symbol, period, reply.series[PeriodParams(period).seriesKey], now, toFloat);
      built.Ok? && run.outcome == Ok(ChartView(symbol, Some(built.value), None, stamp, None)) &&
      run.after == SetChart(docs, CacheKey(symbol, period), symbol, built.value, stamp)
  {
  }

  /** A failed request changes nothing; a built chart is returned and written under
      `chart_{SYMBOL}_{period}` with the isoformat() of the clock, leaving every other document
      where it was. */
  lemma ChartFetchWrites(docs: seq<Document>, symbolIn: string, period: string, now: Instant, reply: ChartReply,
                         fromIso: string -> Option<Instant>, toFloat: string -> Option<real>)
    ensures var run := ChartRun(docs, symbolIn, period, now, reply, fromIso, toFloat);
      run.outcome.Fail? ==> run.after == docs
    ensures var run := ChartRun(docs, symbolIn, period, now, reply, fromIso, toFloat);
      var symbol := Upper(symbolIn);
      var key := CacheKey(symbol, period);
      run.after != docs ==>
        run.outcome.Ok? && run.outcome.value.chart.Some? &&
        run.outcome.value == ChartView(symbol, run.outcome.value.chart, None, IsoString(IsoFormat(now)), None) &&
        (var found := FindFirst(run.after, HasId(key));
         found.Some? && found.value.symbol == symbol && found.value.chart == run.outcome.value.chart &&
         found.value.lastUpdated == IsoString(IsoFormat(now))) &&
        (forall i :: 0 <= i < |docs| && docs[i].id != Named(key) ==> run.after[i] == docs[i])
  {
    var run := ChartRun(docs, symbolIn, period, now, reply, fromIso, toFloat);
    var symbol := Upper(symbolIn);
    if run.after != docs {
      ChartWritten(docs, symbolIn, period, now, reply, fromIso, toFloat);
      var f := BuildChart(symbol, period, reply.series[PeriodParams(period).seriesKey], now, toFloat).value;
      SetChartSpec(docs, CacheKey(symbol, period), symbol, f, IsoString(IsoFormat(now)));
    }
  }

  /** Whatever a request answers with success is what the documents afterwards hold under the
      request's cache key: the document it was served from, or the one it wrote. */
  lemma ChartAnswerIsStored(docs: seq<Document>, symbolIn: string, period: string, now: Instant, reply: ChartReply,
                            fromIso: string -> Option<Instant>, toFloat: string -> Option<real>)
    requires ChartRun(docs, symbolIn, period, now, reply, fromIso, toFloat).outcome.Ok?
    ensures var run := ChartRun(docs, symbolIn, period, now, reply, fromIso, toFloat);
      var found := FindFirst(run.after, HasId(CacheKey(Upper(symbolIn), period)));
      found.Some? && found.value.symbol == run.outcome.value.symbol &&
      found.value.chart == run.outcome.value.chart && found.value.lastUpdated == run.outcome.value.lastUpdated
  {
    var run := ChartRun(docs, symbolIn, period, now, reply, fromIso, toFloat);
    var symbol := Upper(symbolIn);
    var key := CacheKey(symbol, period);
    var cached := FindFirst(docs, HasId(key));
    if run.after != docs {
      ChartFetchWrites(docs, symbolIn, period, now, reply, fromIso, toFloat);
    } else if cached.None? {
      var f := BuildChart(symbol, period, reply.series[PeriodParams(period).seriesKey], now, toFloat).value;
      SetChartSpec(docs, key, symbol, f, IsoString(IsoFormat(now)));
      assert false;
    }
  }

  /** Whatever a request returned as a chart stamped at w, a request for the same symbol (up to
      case) and period less than 30 minutes after w is served from the cache without asking the
      upstream, with the same symbol, chart and stamp. */
  lemma ChartRefetchServedFromCache(docs: seq<Document>, symbolIn: string, period: string, now: Instant,
                                    reply: ChartReply, symbolIn2: string, later: Instant, reply2: ChartReply,
                                    w: Instant, fromIso: string -> Option<Instant>, toFloat: string -> Option<real>)
    requires ReadsIsoFormat(fromIso)
    requires Upper(symbolIn2) == Upper(symbolIn)
    requires var run := ChartRun(docs, symbolIn, period, now, reply, fromIso, toFloat);
      run.outcome.Ok? && run.outcome.value.chart.Some? && run.outcome.value.lastUpdated == IsoString(IsoFormat(w))
    requires Micros(later) - Micros(w) < ChartFreshMinutes * 60000000
    ensures var run := ChartRun(docs, symbolIn, period, now, reply, fromIso, toFloat);
      var again := ChartRun(run.after, symbolIn2, period, later, reply2, fromIso, toFloat);
      again.request.None? && again.after == run.after && again.outcome.Ok? &&
      again.outcome.value.symbol == run.outcome.value.symbol &&
      again.outcome.value.chart == run.outcome.value.chart &&
      again.outcome.value.lastUpdated == run.outcome.value.lastUpdated
  {
    ChartAnswerIsStored(docs, symbolIn, period, now, reply, fromIso, toFloat);
    FreshAfterWrite(w, later, ChartFreshMinutes, fromIso);
  }
}
