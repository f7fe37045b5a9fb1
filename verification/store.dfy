/** The `stocks_collection` both market-data routes cache into (backend/db.py): one collection
    holding chart documents, keyed by a `chart_{SYMBOL}_{period}` _id, and quote documents with a
    generated _id. Every document either route writes carries a "symbol" field. `find_one`
    returns the first document that matches, in the collection's order; `update_one(...,
    {"$set": ...}, upsert=True)` changes only the fields it sets on that document, or appends a
    new one. */
module Store {
  import opened Outcomes
  import opened Calendar
  import opened Seqs

  /** The stored `last_updated`: missing, a string (normally an isoformat() text), or a datetime
      as the database driver returns one. */
  datatype Stamp = Absent | IsoString(s: string) | Moment(t: Instant)

  /** What `_is_cache_valid` compares with the clock: the stored datetime, or the stored string
      as `fromIso` (datetime.fromisoformat, None where it raises ValueError) reads it. None where
      the check answers False without looking at the clock: no last_updated, an empty one, or a
      string that is not ISO text. */
  function StampTime(stamp: Stamp, fromIso: string -> Option<Instant>): (r: Option<Instant>)
    ensures stamp.Absent? || stamp == IsoString("") ==> r.None?
    ensures stamp.Moment? ==> r == Some(stamp.t)
  {
    match stamp
    case Absent => None
    case IsoString(s) => if s == "" then None else fromIso(s)
    case Moment(t) => Some(t)
  }

  /** `_is_cache_valid` with a window of `minutes`: the stamp is less than that old at `now`. */
  predicate FreshWithin(stamp: Stamp, now: Instant, minutes: nat, fromIso: string -> Option<Instant>)
    ensures stamp.Absent? || stamp == IsoString("") ==> !FreshWithin(stamp, now, minutes, fromIso)
    ensures stamp.IsoString? && stamp.s != "" && fromIso(stamp.s).None? ==> !FreshWithin(stamp, now, minutes, fromIso)
    ensures stamp.IsoString? && stamp.s != "" && fromIso(stamp.s).Some? ==>
      (FreshWithin(stamp, now, minutes, fromIso) <==>
       Micros(now) - Micros(fromIso(stamp.s).value) < minutes * 60000000)
    ensures stamp.Moment? ==>
      (FreshWithin(stamp, now, minutes, fromIso) <==> Micros(now) - Micros(stamp.t) < minutes * 60000000)
  {
    match StampTime(stamp, fromIso)
    case None => false
    case Some(t) => WithinMinutes(now, t, minutes)
  }

  /** fromIso reads back every text isoformat() writes, as datetime.fromisoformat does. */
  ghost predicate ReadsIsoFormat(fromIso: string -> Option<Instant>)
  {
    forall t: Instant :: fromIso(IsoFormat(t)) == Some(t)
  }

  /** A stamp written as `w.isoformat()` is fresh at `now` exactly when now - w is under the
      window; so it is fresh at the instant it was written for any positive window. */
  lemma FreshAfterWrite(w: Instant, now: Instant, minutes: nat, fromIso: string -> Option<Instant>)
    requires ReadsIsoFormat(fromIso)
    ensures FreshWithin(IsoString(IsoFormat(w)), now, minutes, fromIso) <==>
            Micros(now) - Micros(w) < minutes * 60000000
    ensures minutes > 0 ==> FreshWithin(IsoString(IsoFormat(w)), w, minutes, fromIso)
  {
    assert fromIso(IsoFormat(w)) == Some(w);
  }

  datatype Trend = Up | Down | Neutral

  /** The fields a chart write sets besides symbol and last_updated. */
  datatype ChartFields = ChartFields(period: string, dates: seq<string>, prices: seq<real>, trend: Trend)

  /** The fields a quote write sets besides symbol and last_updated. */
  datatype QuoteFields = QuoteFields(price: real, change: real, percentChange: string)

  datatype DocId = Named(key: string) | Generated(n: nat)

  datatype Document = Document(id: DocId, symbol: string, chart: Option<ChartFields>,
                               quote: Option<QuoteFields>, lastUpdated: Stamp)

  ghost predicate UniqueIds(docs: seq<Document>)
  {
    forall i, j :: 0 <= i < j < |docs| ==> docs[i].id != docs[j].id
  }

  /** The position of the first document satisfying p. */
  function FirstIndex(docs: seq<Document>, p: Document -> bool): (r: Option<nat>)
    ensures r.Some? ==> r.value < |docs| && p(docs[r.value]) && forall k :: 0 <= k < r.value ==> !p(docs[k])
    ensures r.None? ==> forall k :: 0 <= k < |docs| ==> !p(docs[k])
    decreases |docs|
  {
    if docs == [] then None
    else if p(docs[0]) then Some(0)
    else match FirstIndex(docs[1..], p)
      case None => None
      case Some(i) => Some(i + 1)
  }

  /** `find_one(filter)`. */
  function FindFirst(docs: seq<Document>, p: Document -> bool): (r: Option<Document>)
    ensures r.Some? ==> r.value in docs && p(r.value)
    ensures r.None? <==> forall d :: d in docs ==> !p(d)
  {
    match FirstIndex(docs, p)
    case None => None
    case Some(i) => Some(docs[i])
  }

  /** The filter `{"_id": key}`. */
  function HasId(key: string): Document -> bool
  {
    (d: Document) => d.id == Named(key)
  }

  /** `update_one({"_id": key}, {"$set": chart fields, symbol, last_updated}, upsert=True)`. */
  function SetChart(docs: seq<Document>, key: string, symbol: string, f: ChartFields, stamp: Stamp): (r: seq<Document>)
    ensures |r| == |docs| || |r| == |docs| + 1
    ensures forall i :: 0 <= i < |docs| && docs[i].id != Named(key) ==> r[i] == docs[i]
    ensures forall i :: |docs| <= i < |r| ==> r[i].id == Named(key)
  {
    match FirstIndex(docs, HasId(key))
    case Some(i) => docs[i := docs[i].(symbol := symbol, chart := Some(f), lastUpdated := stamp)]
    case None => docs + [Document(Named(key), symbol, Some(f), None, stamp)]
  }

  /** After a chart write, looking the key up finds a document carrying what was written, with
      the quote fields (if any) of the document it overwrote. */
  lemma SetChartSpec(docs: seq<Document>, key: string, symbol: string, f: ChartFields, stamp: Stamp)
    ensures var after := SetChart(docs, key, symbol, f, stamp);
      var before := FindFirst(docs, HasId(key));
      var found := FindFirst(after, HasId(key));
      found == Some(Document(Named(key), symbol, Some(f), if before.Some? then before.value.quote else None, stamp))
  {
    var after := SetChart(docs, key, symbol, f, stamp);
    match FirstIndex(docs, HasId(key))
    case Some(i) =>
      assert FirstIndex(after, HasId(key)) == Some(i) by {
        FirstIndexAt(after, HasId(key), i);
      }
    case None =>
      assert FirstIndex(after, HasId(key)) == Some(|docs|) by {
        FirstIndexAt(after, HasId(key), |docs|);
      }
  }

  /** An index where p holds and before which it does not is what FirstIndex finds. */
  lemma {:induction false} FirstIndexAt(docs: seq<Document>, p: Document -> bool, i: nat)
    requires i < |docs| && p(docs[i]) && forall k :: 0 <= k < i ==> !p(docs[k])
    ensures FirstIndex(docs, p) == Some(i)
    decreases i
  {
    if i > 0 {
      FirstIndexAt(docs[1..], p, i - 1);
    }
  }

  /** find_one over a concatenation looks in the second part only when the first has no match. */
  lemma {:induction false} FindFirstAppend(a: seq<Document>, b: seq<Document>, p: Document -> bool)
    ensures FindFirst(a + b, p) == if FindFirst(a, p).Some? then FindFirst(a, p) else FindFirst(b, p)
  {
    match FirstIndex(a, p)
    case Some(i) =>
      FirstIndexAt(a + b, p, i);
    case None =>
      match FirstIndex(b, p)
      case Some(j) =>
        FirstIndexAt(a + b, p, |a| + j);
      case None =>
        assert forall k :: 0 <= k < |a + b| ==> !p((a + b)[k]) by {
          forall k | 0 <= k < |a + b|
            ensures !p((a + b)[k])
          {
            if k >= |a| {
              assert (a + b)[k] == b[k - |a|];
            }
          }
        }
  }

  /** Looking for documents that all lie in a sub-collection gives the same answer on the
      sub-collection as on the whole. */
  lemma {:induction false} FindFirstFilter(docs: seq<Document>, p: Document -> bool, q: Document -> bool)
    requires forall d :: p(d) ==> q(d)
    ensures FindFirst(Filter(docs, q), p) == FindFirst(docs, p)
    decreases |docs|
  {
    if docs != [] {
      var init := docs[..|docs| - 1];
      var last := docs[|docs| - 1];
      assert docs == init + [last];
      FindFirstFilter(init, p, q);
      FindFirstAppend(init, [last], p);
      FindFirstAppend(Filter(init, q), if q(last) then [last] else [], p);
    }
  }

  /** Chart documents and quote documents: chart documents have a `chart_...` id and no quote
      fields; quote documents have a generated id and no chart fields. */
  predicate IsQuoteDoc(d: Document)
  {
    d.chart.None?
  }

  ghost predicate Segregated(docs: seq<Document>)
  {
    forall i :: 0 <= i < |docs| ==>
      (docs[i].id.Named? <==> docs[i].chart.Some?) && (docs[i].chart.Some? ==> docs[i].quote.None?)
  }

  /** Replacing a document that is outside a sub-collection by another one outside it leaves
      the sub-collection as it was. */
  lemma {:induction false} FilterUpdate(docs: seq<Document>, i: nat, x: Document, q: Document -> bool)
    requires i < |docs| && !q(docs[i]) && !q(x)
    ensures Filter(docs[i := x], q) == Filter(docs, q)
    decreases |docs|
  {
    var after := docs[i := x];
    if i < |docs| - 1 {
      assert after[..|after| - 1] == docs[..|docs| - 1][i := x];
      FilterUpdate(docs[..|docs| - 1], i, x, q);
    } else {
      assert after[..|after| - 1] == docs[..|docs| - 1];
    }
  }

  /** A chart write keeps chart and quote documents apart and leaves the quote documents as
      they were. */
  lemma SetChartSegregated(docs: seq<Document>, key: string, symbol: string, f: ChartFields, stamp: Stamp)
    requires Segregated(docs)
    ensures Segregated(SetChart(docs, key, symbol, f, stamp))
    ensures Filter(SetChart(docs, key, symbol, f, stamp), IsQuoteDoc) == Filter(docs, IsQuoteDoc)
  {
    match FirstIndex(docs, HasId(key))
    case Some(i) =>
      FilterUpdate(docs, i, docs[i].(symbol := symbol, chart := Some(f), lastUpdated := stamp), IsQuoteDoc);
    case None =>
  }

  /** `update_one(filter, {"$set": quote fields, symbol, last_updated}, upsert=True)` for a filter
      that matches `symbol`; a new document gets the generated id `oid`. */
  function SetQuote(docs: seq<Document>, oid: nat, filter: Document -> bool, symbol: string,
                    q: QuoteFields, stamp: Stamp): (r: (seq<Document>, nat))
    ensures r.1 == oid || r.1 == oid + 1
    ensures |r.0| == |docs| + (r.1 - oid)
    ensures r.1 == oid <==> exists i :: 0 <= i < |docs| && filter(docs[i])
    ensures forall i :: 0 <= i < |docs| && !filter(docs[i]) ==> r.0[i] == docs[i]
    ensures r.1 > oid ==> r.0[|docs|] == Document(Generated(oid), symbol, None, Some(q), stamp)
  {
    match FirstIndex(docs, filter)
    case Some(i) => (docs[i := docs[i].(symbol := symbol, quote := Some(q), lastUpdated := stamp)], oid)
    case None => (docs + [Document(Generated(oid), symbol, None, Some(q), stamp)], oid + 1)
  }

  /** `update_one` with `upsert=True`: when some document matches, only the first match changes;
      it keeps its id and chart fields and takes the symbol, quote and stamp, every other
      document (later matches included) stays as it was, and no id is used up. When none
      matches, one document with the generated id is appended. */
  lemma SetQuoteUpdatesFirstMatch(docs: seq<Document>, oid: nat, filter: Document -> bool, symbol: string,
                                  q: QuoteFields, stamp: Stamp)
    ensures var r := SetQuote(docs, oid, filter, symbol, q, stamp);
      match FirstIndex(docs, filter)
      case Some(i) =>
        r.1 == oid && |r.0| == |docs| &&
        r.0[i] == docs[i].(symbol := symbol, quote := Some(q), lastUpdated := stamp) &&
        r.0[i].id == docs[i].id && r.0[i].chart == docs[i].chart &&
        forall j :: 0 <= j < |docs| && j != i ==> r.0[j] == docs[j]
      case None =>
        r == (docs + [Document(Generated(oid), symbol, None, Some(q), stamp)], oid + 1)
  {
  }

  /** After a quote write through a filter that still matches what it writes, looking up through
      the filter finds the written document. */
  lemma SetQuoteFound(docs: seq<Document>, oid: nat, filter: Document -> bool, symbol: string,
                      q: QuoteFields, stamp: Stamp)
    requires forall d :: filter(d) ==> filter(d.(symbol := symbol, quote := Some(q), lastUpdated := stamp))
    requires filter(Document(Generated(oid), symbol, None, Some(q), stamp))
    ensures var found := FindFirst(SetQuote(docs, oid, filter, symbol, q, stamp).0, filter);
      found.Some? && found.value.symbol == symbol && found.value.quote == Some(q) && found.value.lastUpdated == stamp
  {
    var after := SetQuote(docs, oid, filter, symbol, q, stamp).0;
    match FirstIndex(docs, filter)
    case Some(i) =>
      FirstIndexAt(after, filter, i);
    case None =>
      FirstIndexAt(after, filter, |docs|);
  }

  /** A quote write through a filter that only matches quote documents keeps chart and quote
      documents apart and leaves every chart document where it was. */
  lemma SetQuoteSegregated(docs: seq<Document>, oid: nat, filter: Document -> bool, symbol: string,
                           q: QuoteFields, stamp: Stamp)
    requires Segregated(docs)
    requires forall d :: filter(d) ==> IsQuoteDoc(d)
    ensures var after := SetQuote(docs, oid, filter, symbol, q, stamp).0;
      Segregated(after) && |after| >= |docs| &&
      forall i :: 0 <= i < |docs| && docs[i].chart.Some? ==> after[i] == docs[i]
  {
  }

  class StocksCollection {
    var docs: seq<Document>
    var nextOid: nat

    /** Ids are unique and every generated id is below the next one to hand out. */
    ghost predicate Valid()
      reads this
    {
      UniqueIds(docs) &&
      forall i :: 0 <= i < |docs| && docs[i].id.Generated? ==> docs[i].id.n < nextOid
    }

    constructor ()
      ensures Valid() && docs == [] && nextOid == 0
    {
      docs := [];
      nextOid := 0;
    }

    /** `find_one(filter)` on the current documents. */
    function Find(p: Document -> bool): (r: Option<Document>)
      reads this
      ensures r.Some? ==> r.value in docs && p(r.value)
      ensures r.None? ==> forall d :: d in docs ==> !p(d)
    {
      FindFirst(docs, p)
    }

    method UpsertChart(key: string, symbol: string, f: ChartFields, stamp: Stamp)
      requires Valid()
      modifies this
      ensures Valid()
      ensures docs == SetChart(old(docs), key, symbol, f, stamp) && nextOid == old(nextOid)
    {
      var i := FirstIndex(docs, HasId(key));
      docs := SetChart(docs, key, symbol, f, stamp);
      if i.None? {
        assert forall k :: 0 <= k < |docs| - 1 ==> docs[k].id != Named(key);
      }
    }

    method UpsertQuote(filter: Document -> bool, symbol: string, q: QuoteFields, stamp: Stamp)
      requires Valid()
      modifies this
      ensures Valid()
      ensures (docs, nextOid) == SetQuote(old(docs), old(nextOid), filter, symbol, q, stamp)
    {
      var r := SetQuote(docs, nextOid, filter, symbol, q, stamp);
      docs, nextOid := r.0, r.1;
    }
  }
}
