# Stocks backend: chart, quote and watchlist routes

This project models the three route modules of a FastAPI stocks backend and proves what they
promise.

Both market-data routers declare the path `/{symbol}` (backend/routes/stock_chart.py:109,
backend/routes/stock_search.py:55). backend/main.py mounts the quote router and the watchlist
router without a prefix and does not mount the chart router at all. The chart tests
(backend/routes/test_stock_chart.py:109) request `/chart/{symbol}` from that app, which assumes a
mount backend/main.py does not make; the quote tests mount the quote router under `/stock`. The model is about the route
functions, not the paths they are mounted at.

- `get_chart_data(symbol, period)`. The route serves a cached chart while
  it is under 30 minutes old. Otherwise it asks the upstream (Alpha Vantage) for a daily or a
  5-minute intraday series. It keeps the keys that parse as dates and are not in the future, cuts
  the window the period asks for, and returns the dates, closing prices and trend. It caches the
  result under `chart_{SYMBOL}_{period}`. When the upstream is rate-limited, or answers without
  the series, it falls back to a cached chart of any age.
- `get_stock_data(symbol)`. The route checks the API key and normalises the
  symbol (strip, then upper-case). It serves a cached quote while it is under 5 minutes old.
  Otherwise it fetches the Global Quote, applies the field defaults, writes the result through
  to the cache and returns it with a `source` tag.
- `POST/GET/DELETE /watchlist[/{symbol}]`. These add, list and remove symbols in a collection
  that never lists a symbol twice.

The modules are:

- `Outcomes` holds the answer of a route: `Ok(value)` or `Fail(code, detail)`. An exception
  the route does not catch (a KeyError, an IndexError, a ValueError outside the `except`) is
  `Crash()`, FastAPI's 500 "Internal Server Error".
- `Text`, `Seqs`, `Calendar` and `KeyOrder` model the Python operations the routes rely on.
  They cover `str.strip/upper/lower/split/startswith`, `in` on strings, list comprehensions and
  slices, `strptime` with the two formats the route uses, `isoformat`, `strftime("%Y-%m-%d")`,
  and `sorted` on the keys of a JSON object.
- `Store` models `stocks_collection`, which holds chart and quote documents together. It has
  `find_one`, the two upserts, and the stamp check of both `_is_cache_valid`. The class
  `StocksCollection` holds the documents in a `seq` field that its upsert methods reassign.
- `StockChart` and `StockSearch` model the routes. For each route, a ghost function
  (`ChartRun`, `QuoteRun`) gives one request's whole effect: the upstream request, the answer,
  and the documents afterwards. An imperative method (`GetChartData`, `GetStockData`) follows
  the route's loops and is proved equal to that function. Lemmas state what the route promises.
- `CacheCollision` relates the two market-data routes, which share the collection (see
  Findings).
- `Watchlist` models the watchlist routes. The class `WatchlistCollection` has a `seq` of
  symbols and an invariant that no symbol appears twice.

The clock, the upstream reply and two Python readers are parameters of each request:

- The upstream reply is a datatype: a transport failure, or the parts of the JSON body that the
  route reads.
- `fromIso` stands for `datetime.fromisoformat` and `toFloat` for `float()`. Each is a partial
  function returning an `Option`.
- Properties that read a stamp back assume `ReadsIsoFormat(fromIso)`, which says that
  `fromisoformat` inverts `isoformat`, as Python documents.

## Model

| member | source | states |
|---|---|---|
| Outcomes.Crash | backend/routes/stock_search.py:72-79 | an exception the route does not catch, such as the KeyError of a cached document without a price, is a failure with status 500 |
| Text.IsSpace | backend/routes/stock_search.py:67 | `str.isspace`: space, tab, newline, carriage return and no-break space are whitespace; digits, ASCII letters, `:` and `-` are not |
| Text.TrimStart | backend/routes/stock_search.py:67 | the result is a suffix of s, everything dropped is whitespace, and the result does not start with whitespace |
| Text.TrimEnd | backend/routes/stock_search.py:67 | the result is a prefix of s, everything dropped is whitespace, and the result does not end with whitespace |
| Text.Strip | backend/routes/stock_search.py:67 | `strip()` leaves a string that neither starts nor ends with whitespace |
| Text.StripStripped | backend/routes/stock_search.py:67 | strip leaves a string without surrounding whitespace unchanged |
| Text.Upper | backend/routes/stock_search.py:67 | `upper()` keeps the length and maps each character through the ASCII case mapping |
| Text.Lower | backend/routes/stock_chart.py:173 | `lower()` keeps the length and maps each character through the ASCII case mapping |
| Text.StartsWith | backend/routes/stock_chart.py:264 | `s.startswith(prefix)` holds exactly when s is the prefix followed by the rest of s |
| Text.Contains | backend/routes/stock_chart.py:173 | `needle in hay` needs a needle no longer than hay, and the empty needle is in every string |
| Text.ContainsAt | backend/routes/stock_chart.py:173 | `needle in hay` holds exactly when hay starts with the needle at some position |
| Text.LowerKeepsContains | backend/routes/stock_chart.py:173 | a lower-case needle found in a string is still found after the string is lower-cased |

| Text.UpperIdempotent | backend/routes/stock_chart.py:121 | upper-casing twice is upper-casing once |
| Text.UpperStripped | backend/routes/stock_search.py:67 | upper-casing a stripped string leaves it stripped |
| Text.Normalize | backend/routes/stock_search.py:67 | `strip().upper()` never lengthens the symbol, leaves no surrounding whitespace and no lower-case ASCII letter |
| Text.NormalizeIdempotent | backend/routes/stock_search.py:67 | normalising a normalised symbol changes nothing, so one input always gives one cache key |
| Text.Word | backend/routes/stock_chart.py:278 | the first word is the longest whitespace-free prefix |
| Text.WordOf | backend/routes/stock_chart.py:278 | a whitespace-free prefix that is followed by whitespace or the end is the first word |
| Text.SplitWs | backend/routes/stock_chart.py:278 | `split()` never yields an empty word |
| Text.SplitWsPair | backend/routes/stock_chart.py:317 | two whitespace-free words joined by one space split back into exactly those two words |
| Text.FirstWord | backend/routes/stock_chart.py:278 | for a string that holds some non-whitespace, `split()` is not empty and this is its first element |
| Text.SplitOn | backend/routes/stock_chart.py:317 | `split(":")` yields at least one part, and no part holds the separator |
| Text.SplitOnPrefix | backend/routes/stock_chart.py:317 | text without the separator, then the separator, splits into that text followed by the split of the rest |
| Text.StrLess | backend/routes/stock_chart.py:216 | `a < b` on str: two strings in order are different, and a proper prefix comes first |
| Text.StrLessIrreflexive | backend/routes/stock_chart.py:216 | no string sorts before itself |
| Text.StrLessAsymmetric | backend/routes/stock_chart.py:216 | two strings never sort before each other |
| Text.StrLessTransitive | backend/routes/stock_chart.py:216 | the string order is transitive |
| Text.StrLessTotal | backend/routes/stock_chart.py:216 | of two different strings, one sorts before the other |
| Seqs.Filter | backend/routes/stock_chart.py:223-237 | a comprehension with `if` keeps only qualifying elements of the input |
| Seqs.FilterComplete | backend/routes/stock_chart.py:263-267 | no qualifying element is dropped |
| Seqs.FilterExact | backend/routes/stock_chart.py:285 | an element of the input is kept exactly when it qualifies |
| Seqs.FilterKeepsAll | backend/routes/watchlist.py:32 | filtering keeps everything when everything passes |
| Seqs.FilterConcat | backend/routes/watchlist.py:32 | filtering distributes over concatenation |
| Seqs.FilterEmpty | backend/routes/stock_chart.py:247 | nothing is kept exactly when nothing qualifies |
| Seqs.FilterSorted | backend/routes/stock_chart.py:221-237 | selecting from ascending keys gives ascending keys |
| Seqs.LastN | backend/routes/stock_chart.py:288-306 | `s[-n:]`, for n >= 1, is the suffix of length min(n, len(s)) |
| Seqs.LastNSorted | backend/routes/stock_chart.py:288-306 | a suffix of ascending keys is ascending |
| Seqs.Reverse | backend/routes/stock_chart.py:334-341 | reversing puts element i at position len-1-i; it serves the trend property TrendReversed |
| Calendar.ValidDate | backend/routes/stock_chart.py:228-234 | what datetime accepts as a date: a day of at most 31, February 29 only in leap years, never February 30 or April 31 |
| Calendar.DaysBeforeYearStep | backend/routes/stock_chart.py:104-106 | a year has 365 days, 366 in a leap year, in the ordinal count |
| Calendar.DaysBeforeMonthStep | backend/routes/stock_chart.py:104-106 | each month starts in the ordinal count the day after the previous month ends |
| Calendar.Ordinal | backend/routes/stock_chart.py:104-106 | `date.toordinal()`: 0001-01-01 is day 1, and no valid date is below it |
| Calendar.OrdinalIncreasing | backend/routes/stock_chart.py:104-106 | a date before another has a smaller ordinal |
| Calendar.Micros | backend/routes/stock_search.py:52 | the microsecond count behind naive datetime subtraction lies within the microseconds of its own day |
| Calendar.MicrosOrder | backend/routes/stock_chart.py:104-106 | `a <= b` on naive datetimes is the order of their microsecond counts, so an age is negative only for a later stamp |
| Calendar.Digits | backend/routes/stock_chart.py:260 | a zero-padded number has exactly its width, all in decimal digits |
| Calendar.DayText | backend/routes/stock_chart.py:260 | `strftime("%Y-%m-%d")` is ten characters with dashes at 4 and 7 |
| Calendar.ClockText | backend/routes/stock_chart.py:228 | the clock part `%H:%M:%S` is eight characters with colons at 2 and 5 |
| Calendar.MomentText | backend/routes/stock_chart.py:228 | an intraday key `%Y-%m-%d %H:%M:%S` is nineteen characters: the day text, a space and the clock |
| Calendar.IsoFormat | backend/routes/stock_chart.py:350 | `isoformat()` is 19 characters, or 26 with microseconds, and starts with the day text and a `T` |
| Calendar.SpaceRunEnd | backend/routes/stock_chart.py:228 | a space in the format consumes a maximal run of whitespace |
| Calendar.DigitsValue | backend/routes/stock_chart.py:228-234 | reading a zero-padded number back gives the number, when it fits the width |
| Calendar.TwoDigits | backend/routes/stock_chart.py:228-234 | a two-digit field reads back as its number |
| Calendar.FourDigits | backend/routes/stock_chart.py:228-234 | a four-digit year reads back as its number |
| Calendar.DatePrefixOf | backend/routes/stock_chart.py:228-234 | the date directives read a written day text back as that date, ending at position 10 |
| Calendar.ParseDayKey | backend/routes/stock_chart.py:234 | what `strptime(..., "%Y-%m-%d")` accepts is a real calendar date |
| Calendar.ParseMomentKey | backend/routes/stock_chart.py:228 | what `strptime(..., "%Y-%m-%d %H:%M:%S")` accepts is a real date and time, without microseconds |
| Calendar.ParseDayKeyRoundTrip | backend/routes/stock_chart.py:234 | `strptime(..., "%Y-%m-%d")` accepts the text `strftime` writes for any real date, and reads back that date |
| Calendar.ParseMomentKeyRoundTrip | backend/routes/stock_chart.py:228 | `strptime(..., "%Y-%m-%d %H:%M:%S")` accepts the text written for any date and time without microseconds, and reads back that moment |
| Store.FreshWithin | backend/routes/stock_chart.py:93-106 | a missing or empty stamp, or one `fromisoformat` rejects, is never fresh; a readable stamp is fresh exactly when it is less than the window older than now; the quote route's copy (backend/routes/stock_search.py:41-52) is the same check with its five-minute window and the UTC clock |
| Store.StampTime | backend/routes/stock_chart.py:95-103 | a missing or empty `last_updated` is never compared with the clock, and a stored datetime is compared as it is |
| Store.FreshAfterWrite | backend/routes/stock_search.py:41-52 | a stamp written as `isoformat()` at w is fresh at now exactly when now - w is under the window, and it is fresh at w itself |
| Store.FirstIndex | backend/routes/stock_chart.py:126 | `find_one` picks the first matching document, and finds none only when none matches |
| Store.FindFirst | backend/routes/stock_search.py:70 | the document found matches the filter and is in the collection; none is found exactly when none matches |
| Store.FirstIndexAt | backend/routes/stock_chart.py:126 | a match with no match before it is what `find_one` picks |
| Store.FindFirstAppend | backend/routes/stock_search.py:70 | appending documents does not change what an earlier match finds, and otherwise the search goes on into the appended ones |
| Store.FindFirstFilter | backend/routes/stock_search.py:70 | a lookup that only matches documents of one kind finds the same document in the documents of that kind |
| Store.SetChart | backend/routes/stock_chart.py:358-362 | the chart upsert appends at most one document, leaves every document with another id unchanged, and an appended document carries the key as its id |
| Store.SetChartSpec | backend/routes/stock_chart.py:358-362 | after the chart upsert, looking the key up finds the written chart, symbol and stamp, with the old quote fields kept |
| Store.FilterUpdate | backend/routes/stock_chart.py:358-362 | replacing a document by another of the same kind leaves the documents of the other kind unchanged |
| Store.SetChartSegregated | backend/routes/stock_chart.py:358-362 | a chart upsert keeps chart and quote documents apart and leaves the quote documents unchanged |
| Store.SetQuote | backend/routes/stock_search.py:123-127 | the quote upsert inserts, with a new id, exactly when no document matches the filter; it leaves non-matching documents unchanged, and an inserted document holds the symbol, quote and stamp |
| Store.SetQuoteUpdatesFirstMatch | backend/routes/stock_search.py:123-127 | when some document matches, only the first match changes: it keeps its id and chart fields and takes the symbol, quote and stamp, later matches stay as they were and no id is used; otherwise one document with the generated id is appended |
| Store.SetQuoteFound | backend/routes/stock_search.py:123-127 | after the quote upsert, looking up through the same filter finds the written symbol, quote and stamp |
| Store.SetQuoteSegregated | backend/routes/stock_search.py:123-127 | a quote upsert through a filter that only matches quote documents keeps the kinds apart and leaves every chart document where it was |
| Store.StocksCollection.Find | backend/routes/stock_chart.py:126 | `find_one` on the current documents returns a matching document, or none when none matches |
| Store.StocksCollection.UpsertChart | backend/routes/stock_chart.py:358-362 | the chart upsert, keeping the ids unique |
| Store.StocksCollection.UpsertQuote | backend/routes/stock_search.py:123-127 | the quote upsert, keeping the ids unique and generating a new id when it inserts |
| KeyOrder.LeastExists | backend/routes/stock_chart.py:216 | every non-empty set of keys has a least key |
| KeyOrder.LeastUnique | backend/routes/stock_chart.py:216 | the least key is unique |
| KeyOrder.Least | backend/routes/stock_chart.py:216 | the key chosen is the least one |
| KeyOrder.SortedKeysSpec | backend/routes/stock_chart.py:216 | `sorted(keys)` lists every key exactly once, in strictly ascending order |
| KeyOrder.MinKey | backend/routes/stock_chart.py:216 | one pass over the keys finds the least key |
| KeyOrder.SortKeys | backend/routes/stock_chart.py:216 | repeatedly taking the least remaining key gives `sorted(keys)`: ascending, with the same members |
| StockChart.PeriodParams | backend/routes/stock_chart.py:129-142 | "1d" asks for intraday 5min bars in full, under "Time Series (5min)"; "1w" and "1m" ask for the compact daily series; every other period asks for the full daily series, under "Time Series (Daily)" |
| StockChart.CacheKey | backend/routes/stock_chart.py:125 | the key is `chart_`, the symbol, `_` and the period, in that order |
| StockChart.CacheKeyInjective | backend/routes/stock_chart.py:125 | within one period, two symbols share a cache key only when they are equal |
| StockChart.RateLimited | backend/routes/stock_chart.py:173 | no "Information" is no rate limit; an "Information" that mentions "rate limit" is one |
| StockChart.KeepKey | backend/routes/stock_chart.py:223-241 | a kept key is non-empty and starts with a digit |
| StockChart.KeepDayKey | backend/routes/stock_chart.py:232-237 | a daily key as the upstream writes it is kept exactly when its date is not after today |
| StockChart.KeepMomentKey | backend/routes/stock_chart.py:225-231 | an intraday key as the upstream writes it is kept exactly when it is not after now |
| StockChart.ValidKeysSpec | backend/routes/stock_chart.py:216-244 | the kept keys are ascending, each once, and are exactly the keys of the series that parse and are not later than now |
| StockChart.FilterValidDates | backend/routes/stock_chart.py:221-241 | the date-filter loop keeps, in order, exactly the keys that pass the filter |
| StockChart.FirstWords | backend/routes/stock_chart.py:279 | the first words of a list of keys, one per key |
| StockChart.KeysStartingWith | backend/routes/stock_chart.py:261-270 | the loop collecting today's keys keeps, in order, exactly the keys that start with today |
| StockChart.LatestKeyPerDay | backend/routes/stock_chart.py:274-280 | the reverse walk raises exactly when some key has no word, and otherwise starts with the latest key (empty only for no keys) |
| StockChart.SelectIntraday | backend/routes/stock_chart.py:258-285 | the intraday selection gives the keys of today, failing that those of the latest key's day, and raises where `split()[0]` raises |
| StockChart.WindowSize | backend/routes/stock_chart.py:286-306 | the daily window is between 5 and 1260 keys, and it is 21 exactly for "1m" and the periods the route does not name |
| StockChart.IntradayWindow | backend/routes/stock_chart.py:258-285 | the 1d window raises only when some key has no word; otherwise it is drawn from the sorted keys, and holds only today's keys when there are some |
| StockChart.Window | backend/routes/stock_chart.py:258-306 | a window is drawn from the kept keys; for a period other than 1d it always exists and has min(N, len) keys |
| StockChart.FirstWordIsPrefix | backend/routes/stock_chart.py:284-285 | a key that starts with a non-space character starts with its first word |
| StockChart.ParsedKeyStartsWithDigit | backend/routes/stock_chart.py:228-234 | a key that parses as a date starts with a digit |
| StockChart.ParsedKeysHaveWords | backend/routes/stock_chart.py:277-285 | keys that parse all have a first word, which they start with, so `split()[0]` cannot raise on them |
| StockChart.IntradayWindowSpec | backend/routes/stock_chart.py:258-285 | over ascending parsed keys, the 1d window never raises; it is non-empty and ascending, and it holds exactly today's keys when there are some, otherwise exactly the keys of the latest key's day |
| StockChart.DailyWindowSpec | backend/routes/stock_chart.py:286-306 | any other period's window is the last min(N, len) kept keys, ascending, with N = 5/21/63/126/252/1260 and 21 for an unknown period |
| StockChart.ClockLabel | backend/routes/stock_chart.py:317-318 | the label, when the indexing does not raise, holds a colon |
| StockChart.ClockLabelOf | backend/routes/stock_chart.py:317-318 | a key "date HH:MM:SS" is labelled "HH:MM" |
| StockChart.ClockNoSpace | backend/routes/stock_chart.py:317 | a clock made of whitespace-free parts holds no whitespace |
| StockChart.Label | backend/routes/stock_chart.py:313-321 | a daily key is its own label; an intraday label holds a colon |
| StockChart.ClosePrice | backend/routes/stock_chart.py:324-329 | a key without "4. close" has no price, where the route raises; otherwise the price is `float()` of that field |
| StockChart.Points | backend/routes/stock_chart.py:311-329 | there is one label and one closing price per window key, in order, and it fails exactly when some key cannot be labelled or priced |
| StockChart.CollectPoints | backend/routes/stock_chart.py:311-329 | the loop appending to `dates` and `prices` computes the points |
| StockChart.TrendOf | backend/routes/stock_chart.py:334-341 | up exactly when there are two or more prices and the last is above the first, down exactly when it is below; neutral otherwise |
| StockChart.TrendReversed | backend/routes/stock_chart.py:334-341 | the trend depends only on the endpoints, and reversing the prices reverses it |
| StockChart.BuildChart | backend/routes/stock_chart.py:216-341 | building fails only with a 404 or a crash; a built chart holds the period, as many labels as prices, and the trend of those prices |
| StockChart.BuildFromSeries | backend/routes/stock_chart.py:216-341 | the sort, filter, window and points steps compute the chart specified by BuildChart |
| StockChart.AfterRequest | backend/routes/stock_chart.py:155-364 | a failure leaves the documents as they were; an answer is either the cached chart or the upper-cased symbol's built chart stamped with the clock, and the documents either stay or get that chart upserted under the cache key |
| StockChart.ChartRun | backend/routes/stock_chart.py:109-371 | a failure writes nothing; without a request the answer is served and nothing is written; a request asks for the period's series of the upper-cased symbol |
| StockChart.GetChartData | backend/routes/stock_chart.py:109-371 | the route's answer, upstream request and documents afterwards are those of ChartRun, and the collection stays valid |
| StockChart.ChartWindowSpec | backend/routes/stock_chart.py:247-306 | when some key survives the filter, the window exists and is made of kept keys of the series, in the period's shape |
| StockChart.BuildChartFailures | backend/routes/stock_chart.py:247-252 | building fails with 404 "No valid historical data available for SYMBOL" exactly when no key survives the filter, and otherwise fails only as a crash |
| StockChart.WellFormedKeyAvoids404 | backend/routes/stock_chart.py:247-252 | a series holding one well-formed key of the period's format that is not in the future never gets the "no valid historical data" 404 |
| StockChart.BuildChartShape | backend/routes/stock_chart.py:311-351 | a built chart holds the period, one label and one closing price per window key, and the trend of those prices |
| StockChart.ChartCacheHit | backend/routes/stock_chart.py:146-152 | a fresh cached chart is returned as stored, without a request and without a write |
| StockChart.ChartUpstreamOutcomes | backend/routes/stock_chart.py:155-209 | a request goes out exactly when there is no fresh cached chart, and it asks for the period's series of the upper-cased symbol; a transport failure gives 503; a rate-limit notice gives the cached chart with the notice, or 429 without one; "Error Message" gives 404; a missing series gives the cached chart, or 500 without one; none of these writes |
| StockChart.ChartWritten | backend/routes/stock_chart.py:344-362 | a request that changes the documents built a chart, returned it stamped with the clock, and upserted it under its cache key |
| StockChart.ChartFetchWrites | backend/routes/stock_chart.py:344-364 | a failure writes nothing; a write returns the upper-cased symbol, the chart and the stamp, which a lookup of the cache key then finds; every other document stays where it was |
| StockChart.ChartAnswerIsStored | backend/routes/stock_chart.py:146-204 | any successful answer is what the documents afterwards hold under the request's cache key |
| StockChart.ChartRefetchServedFromCache | backend/routes/stock_chart.py:93-106 | a request for the same symbol (up to case) and period, under 30 minutes after the stamp of a returned chart, is served from the cache with that symbol, chart and stamp, with no request and no write |
| StockSearch.SymbolFilter | backend/routes/stock_search.py:70 | a lookup matches only documents of the symbol, and always matches its quote documents; as written it matches every document of the symbol, corrected only quote documents |
| StockSearch.KeyMissing | backend/routes/stock_search.py:60 | an unset or empty API key is missing, any other is not |
| StockSearch.CachedQuote | backend/routes/stock_search.py:71-79 | a cached document is served exactly when it holds quote fields, as that quote tagged with the cache source; otherwise reading it crashes |
| StockSearch.NumberField | backend/routes/stock_search.py:107-120 | an absent field defaults to 0, a present one is `float()` of its text |
| StockSearch.QuoteData | backend/routes/stock_search.py:107-120 | the fields take their defaults (input symbol, 0, 0, "0%"), and the result fails exactly when a present price or change is not a number |
| StockSearch.FetchAnswer | backend/routes/stock_search.py:87-120 | a fetch answers exactly when the reply holds a non-empty Global Quote with numeric fields; the answer has the symbol, price, change and percent change of QuoteData (so its defaults), the API source and the UTC clock's stamp; otherwise 500, or 404 naming the symbol |
| StockSearch.StoreAnswer | backend/routes/stock_search.py:123-127 | writing the answer never removes a document and leaves every document of another symbol unchanged |
| StockSearch.QuoteRun | backend/routes/stock_search.py:55-129 | a failure writes nothing and keeps the next id; a request asks about the normalised symbol and needs the key; an answer comes from the API exactly when a request went out |
| StockSearch.GetStockData | backend/routes/stock_search.py:55-129 | the route, under the lookup rule it is given (`AnySymbol` as written, `QuoteDocsOnly` corrected), gives the answer, request, documents and next id of QuoteRun, and the collection stays valid |
| StockSearch.QuoteFailuresLeaveCache | backend/routes/stock_search.py:60-105 | without an API key the answer is 500 and nothing else happens; a failure writes nothing; a request goes out exactly when the key is set and no fresh document is found, and it asks about the stripped, upper-cased symbol |
| StockSearch.QuoteUpstreamErrors | backend/routes/stock_search.py:87-120 | a transport failure gives 500; a missing or empty Global Quote gives 404 naming the symbol; a non-numeric price or change gives 500 "Invalid response from Alpha Vantage" |
| StockSearch.QuoteFetched | backend/routes/stock_search.py:107-129 | a successful fetch returns FetchAnswer of the normalised symbol, stamped with the UTC clock and tagged with the API source, and upserts it under its symbol |
| StockSearch.QuoteHit | backend/routes/stock_search.py:70-79 | a fresh document is served with its own symbol, price, change, percent change and stamp, tagged with the cache source, with no request and no write |
| StockSearch.QuoteFetchThenHit | backend/routes/stock_search.py:123-129 | under either lookup rule, a fetched answer is served back from the cache, with only the source tag changed, to a request for its symbol under 5 minutes later |
| StockSearch.QuoteIgnoresChartDocuments | backend/routes/stock_search.py:70 | with the corrected lookup, collections holding the same quote documents get the same answer and request |
| StockSearch.QuoteAnswerFromLookup | backend/routes/stock_search.py:60-120 | the answer and the request depend on the collection only through the document the lookup finds |
| StockSearch.QuoteKeepsSegregation | backend/routes/stock_search.py:123-127 | with the corrected lookup, a quote write keeps chart and quote documents apart and leaves every chart document as it was |
| CacheCollision.ChartDocumentBreaksQuote | backend/routes/stock_search.py:70-79 | as written, a quote request soon after the first chart of the symbol is cached answers 500 without asking the upstream |
| CacheCollision.QuoteWritesIntoChartDocument | backend/routes/stock_search.py:123-127 | as written, a fetch for a symbol whose first document is a stale chart writes the quote fields into that chart document |
| CacheCollision.ChartDocumentInvisibleToQuote | backend/routes/stock_chart.py:358-362 | with the corrected lookup, a chart request keeps the kinds apart and never changes what the quote route answers or whether it asks the upstream |
| Watchlist.AddStep | backend/routes/watchlist.py:11-17 | adding fails with 400 "Stock already in watchlist", changing nothing, exactly when the symbol is listed; otherwise it confirms and appends the symbol after the old entries |
| Watchlist.RemoveFirst | backend/routes/watchlist.py:32 | deleting leaves the entries when the symbol is absent, and otherwise removes one entry, keeping only old entries |
| Watchlist.RemoveStep | backend/routes/watchlist.py:32-37 | removing fails with 404, changing nothing, exactly when the symbol is absent; otherwise it confirms and shortens the list by one |
| Watchlist.IndexOf | backend/routes/watchlist.py:32 | `delete_one` deletes the first exact match, and finds none exactly when the symbol is not listed |
| Watchlist.WatchlistCollection.Add | backend/routes/watchlist.py:11-17 | adding gives 400 and no change when the symbol is listed, and otherwise appends it and confirms; no symbol is listed twice |
| Watchlist.WatchlistCollection.List | backend/routes/watchlist.py:24-25 | listing returns every entry, in insertion order |
| Watchlist.WatchlistCollection.Remove | backend/routes/watchlist.py:32-37 | removing gives 404 and no change when the symbol is not listed, and otherwise deletes its entry and confirms; no symbol is listed twice |
| Watchlist.AddSpec | backend/routes/watchlist.py:11-17 | adding fails, changing nothing, exactly when the symbol is listed; otherwise it appends the symbol; either way the symbol is listed and nothing is listed twice |
| Watchlist.RemoveFirstSpec | backend/routes/watchlist.py:32 | removing takes away one occurrence of the symbol and nothing else (as multisets), and shortens the list by one when the symbol is listed |
| Watchlist.RemoveUnique | backend/routes/watchlist.py:32 | on a list without duplicates, removing a symbol keeps every other entry, in order |
| Watchlist.FilterDropsOne | backend/routes/watchlist.py:32 | dropping one entry that fails the filter, between entries that pass it, leaves the others in order |
| Watchlist.RemoveKeepsUnique | backend/routes/watchlist.py:32-35 | after a removal the symbol is no longer listed, and nothing is listed twice |
| Watchlist.AddThenRemove | backend/routes/watchlist.py:11-37 | removing a newly added symbol succeeds and gives back the list as it was |
| Watchlist.IndexOfAt | backend/routes/watchlist.py:32 | a match with no match before it is what `delete_one` deletes |
| Watchlist.ReplayNoDuplicates | backend/routes/watchlist.py:11-16 | under any series of adds and removes, starting from a list without duplicates, no symbol is listed twice |

## Left out

- The clock is read once per request. The chart route reads `datetime.now()` several times
  (lines 104, 160, 219-220, 255, 350). The model uses one reading for all of them, so a request
  that straddles midnight is not modelled.
- `float()` and `datetime.fromisoformat` are parameters (`toFloat`, `fromIso`). Their parsing
  rules are not modelled. Where a property needs a stamp to be read back, it assumes only
  that `fromisoformat` inverts `isoformat`.
- The model does not cover a `last_updated` string that `fromisoformat` reads as a
  timezone-aware datetime. Subtracting it from the naive clock raises TypeError. It also does
  not cover a stored value of another JSON type.
- Case mapping (`upper`, `lower`) covers ASCII letters only. Python maps every Unicode letter.
- The `strptime` model accepts ASCII digits only. Python's `\d` also accepts other Unicode
  decimal digits.
- The model assumes the JSON shapes the route reads. The reply's "Information" is a string, the
  time series is an object of objects of strings, and "Global Quote" is an object of strings.
  Other shapes make the route raise TypeError or AttributeError.
- The upstream HTTP call is not modelled: the `requests` session and its retry adapter, the API
  key as a request parameter, the cache-busting `timestamp` parameter and the 10-second timeout.
  The reply is an input. The check that the API key is set is modelled (`KeyMissing`).
- The MongoDB client is not modelled. The collection is a sequence, and `find_one` takes the
  first match in that sequence. MongoDB documents no order for `find_one` without a sort; the
  model assumes insertion order.
- The cached document keeps a field order, which is not modelled. The returned view has a fixed
  set of fields, and the `rate_limited: True` flag is implied by the notice being present.
- Concurrent requests are not modelled. Each request runs alone against the documents it
  starts from.
- The debug endpoint (backend/routes/stock_chart.py:41-90) is not modelled. It only repeats the
  period mapping and passes the upstream reply through.
- Logging is not modelled.
- backend/db.py and backend/main.py (client set-up, ping, app wiring) are not part of this model.
- The client-side quote ticker, theme preference and per-entry expand and period state are
  frontend code outside these backend modules, and are not part of this model.
- Text.SplitWs: its contract states only that no word is empty, not that words hold no
  whitespace. The properties that need more use Word, FirstWord and SplitWsPair.
- StockChart.ClockLabel: its contract states only that a label holds a colon. The "HH:MM"
  rendering is proved by ClockLabelOf for keys of the form "date HH:MM:SS". strptime also
  accepts keys such as "2024-01- 5 09:30:00"; for those, `split()[1]` is not the clock, the
  label's indexing raises, and the model returns Crash.
- Calendar.DayText: it zero-pads the year to four digits, as `isoformat()` does. The C library's
  `%Y` may not pad a year below 1000, which only a clock set before that year would produce.
- Store.SetChart and StockSearch.StoreAnswer: their own contracts state the shape of the write
  (what is kept, what is appended); what a later lookup finds is stated by SetChartSpec and
  SetQuoteFound, and for the route by ChartFetchWrites and QuoteFetched.
- Watchlist.WatchlistCollection.List: `find({}, {"_id": 0})` returns the stored documents. The
  model returns their symbols in insertion order, so the contract is the stored state itself.

## Findings

| source | as written | input that shows it | evidently intended | confidence | as-written member | corrected member |
|---|---|---|---|---|---|---|
| backend/routes/stock_search.py:70-79, 123-127 | The quote route looks up `{"symbol": symbol}` and upserts through the same filter. Chart documents in the shared collection (backend/routes/stock_chart.py:344-362) carry a "symbol" field too, so both the lookup and the upsert match them. | This needs a deployment that mounts both routers on the same `stocks` collection, as backend/routes/test_stock_chart.py:109 assumes; backend/main.py:7-8 mounts only the quote router. In such a deployment, call `get_chart_data("AAPL", "1m")` (no AAPL document cached), which writes `chart_AAPL_1m` stamped with local time. Then call `get_stock_data("AAPL")` within 5 minutes in a zone at or east of UTC, or for hours longer east of UTC. The lookup finds the chart document, takes it as fresh, and `cached_stock["price"]` raises KeyError, giving 500. When that chart is stale instead, the fetched quote is written into the chart document. | The quote route should see and write quote documents only, so that charts do not change its answers. | not executed | CacheCollision.ChartDocumentBreaksQuote, CacheCollision.QuoteWritesIntoChartDocument | CacheCollision.ChartDocumentInvisibleToQuote, StockSearch.QuoteIgnoresChartDocuments |

`StockSearch.QuoteRun` and the route method `StockSearch.GetStockData` take the lookup rule as a
parameter. `LookupRule.AnySymbol` is the filter as written. `LookupRule.QuoteDocsOnly` is the
corrected one: it matches the symbol and requires the document to have no chart fields. The
segregation lemmas above are stated for the corrected rule.
