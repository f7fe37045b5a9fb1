/** The watchlist routes (backend/routes/watchlist.py) over `watchlist_collection`, whose
    documents are `{"symbol": symbol}` in insertion order. Symbols are compared exactly as given:
    the routes neither strip nor upper-case them. */
module Watchlist {
  import opened Outcomes
  import opened Seqs

  ghost predicate NoDuplicates(entries: seq<string>)
  {
    forall i, j :: 0 <= i < j < |entries| ==> entries[i] != entries[j]
  }

  /** The position of the first entry equal to symbol: what `delete_one({"symbol": symbol})`
      deletes. */
  function IndexOf(entries: seq<string>, symbol: string): (r: Option<nat>)
    ensures r.Some? ==> r.value < |entries| && entries[r.value] == symbol &&
                        forall k :: 0 <= k < r.value ==> entries[k] != symbol
    ensures r.None? <==> symbol !in entries
    decreases |entries|
  {
    if entries == [] then None
    else if entries[0] == symbol then Some(0)
    else match IndexOf(entries[1..], symbol)
      case None => None
      case Some(i) => Some(i + 1)
  }

  /** POST /watchlist/{symbol}: 400 when the symbol is already listed, otherwise append it. */
  function AddStep(entries: seq<string>, symbol: string): (r: (Outcome<string>, seq<string>))
    ensures r.0.Fail? <==> symbol in entries
    ensures r.0.Fail? ==> r.0 == Fail(400, "Stock already in watchlist") && r.1 == entries
    ensures r.0.Ok? ==> r.0.value == symbol + " added to watchlist" &&
                        |r.1| == |entries| + 1 && r.1[..|entries|] == entries && r.1[|entries|] == symbol
  {
    if symbol in entries then (Fail(400, "Stock already in watchlist"), entries)
    else (Ok(symbol + " added to watchlist"), entries + [symbol])
  }

  /** The entries without the first occurrence of symbol. */
  function RemoveFirst(entries: seq<string>, symbol: string): (r: seq<string>)
    ensures symbol !in entries ==> r == entries
    ensures symbol in entries ==> |r| == |entries| - 1
    ensures forall x :: x in r ==> x in entries
  {
    match IndexOf(entries, symbol)
    case None => entries
    case Some(i) => entries[..i] + entries[i + 1..]
  }

  /** DELETE /watchlist/{symbol}: 404 when nothing was deleted. */
  function RemoveStep(entries: seq<string>, symbol: string): (r: (Outcome<string>, seq<string>))
    ensures r.0.Fail? <==> symbol !in entries
    ensures r.0.Fail? ==> r.0 == Fail(404, "Stock not found in watchlist") && r.1 == entries
    ensures r.0.Ok? ==> r.0.value == symbol + " removed from watchlist" && |r.1| == |entries| - 1
  {
    if IndexOf(entries, symbol).None? then (Fail(404, "Stock not found in watchlist"), entries)
    else (Ok(symbol + " removed from watchlist"), RemoveFirst(entries, symbol))
  }

  class WatchlistCollection {
    var entries: seq<string>

    /** Adding refuses a symbol that is already listed, so no symbol is listed twice. */
    ghost predicate Valid()
      reads this
    {
      NoDuplicates(entries)
    }

    constructor ()
      ensures Valid() && entries == []
    {
      entries := [];
    }

    method Add(symbol: string) returns (r: Outcome<string>)
      requires Valid()
      modifies this
      ensures Valid()
      ensures (r, entries) == AddStep(old(entries), symbol)
    {
      var existing := IndexOf(entries, symbol);
      if existing.Some? {
        return Fail(400, "Stock already in watchlist");
      }
      entries := entries + [symbol];
      r := Ok(symbol + " added to watchlist");
    }

    /** GET /watchlist: every listed symbol, in insertion order. */
    method List() returns (symbols: seq<string>)
      ensures symbols == entries
    {
      symbols := entries;
    }

    method Remove(symbol: string) returns (r: Outcome<string>)
      requires Valid()
      modifies this
      ensures Valid()
      ensures (r, entries) == RemoveStep(old(entries), symbol)
    {
      var found := IndexOf(entries, symbol);
      if found.None? {
        return Fail(404, "Stock not found in watchlist");
      }
      var i := found.value;
      entries := entries[..i] + entries[i + 1..];
      r := Ok(symbol + " removed from watchlist");
    }
  }

  // ---- what the routes promise --------------------------------------------------------------

  /** Adding lists the symbol and keeps the list free of duplicates; it fails, changing nothing,
      exactly when the symbol was listed already. */
  lemma AddSpec(entries: seq<string>, symbol: string)
    requires NoDuplicates(entries)
    ensures var (r, after) := AddStep(entries, symbol);
      NoDuplicates(after) && symbol in after &&
      (r.Fail? <==> symbol in entries) && (r.Fail? ==> after == entries) &&
      (r.Ok? ==> after == entries + [symbol])
  {
  }

  /** Removing an entry drops its first occurrence and keeps the others in their order. */
  lemma {:induction false} RemoveFirstSpec(entries: seq<string>, symbol: string)
    ensures var after := RemoveFirst(entries, symbol);
      (symbol in entries ==> |after| == |entries| - 1) &&
      multiset(after) == multiset(entries) - multiset{symbol}
  {
    match IndexOf(entries, symbol)
    case None =>
      assert multiset(entries)[symbol] == 0;
    case Some(i) =>
      assert entries == entries[..i] + [symbol] + entries[i + 1..];
      calc {
        multiset(entries);
        multiset(entries[..i]) + multiset{symbol} + multiset(entries[i + 1..]);
      }
  }

  function Except(symbol: string): string -> bool
  {
    (x: string) => x != symbol
  }

  /** On a list without duplicates, removing a symbol is keeping every other symbol, in order. */
  lemma {:induction false} RemoveUnique(entries: seq<string>, symbol: string)
    requires NoDuplicates(entries)
    ensures RemoveFirst(entries, symbol) == Filter(entries, Except(symbol))
  {
    match IndexOf(entries, symbol)
    case None =>
      FilterKeepsAll(entries, Except(symbol));
    case Some(i) =>
      assert entries == entries[..i] + [symbol] + entries[i + 1..];
      FilterDropsOne(entries[..i], symbol, entries[i + 1..], Except(symbol));
  }

  lemma {:induction false} FilterDropsOne(before: seq<string>, x: string, rest: seq<string>, keep: string -> bool)
    requires forall k :: 0 <= k < |before| ==> keep(before[k])
    requires forall k :: 0 <= k < |rest| ==> keep(rest[k])
    requires !keep(x)
    ensures Filter(before + [x] + rest, keep) == before + rest
  {
    assert [x][..0] == [];
    assert Filter([x], keep) == [];
    calc {
      Filter(before + [x] + rest, keep);
      { FilterConcat(before + [x], rest, keep); }
      Filter(before + [x], keep) + Filter(rest, keep);
      { FilterConcat(before, [x], keep); }
      Filter(before, keep) + Filter(rest, keep);
      { FilterKeepsAll(before, keep); FilterKeepsAll(rest, keep); }
      before + rest;
    }
  }

  /** On a list without duplicates, a removed symbol is no longer listed and the list stays
      free of duplicates. */
  lemma RemoveKeepsUnique(entries: seq<string>, symbol: string)
    requires NoDuplicates(entries)
    ensures symbol !in RemoveFirst(entries, symbol) && NoDuplicates(RemoveFirst(entries, symbol))
  {
    match IndexOf(entries, symbol)
    case None =>
    case Some(i) =>
      var after := RemoveFirst(entries, symbol);
      assert forall k :: 0 <= k < |after| ==> after[k] == (if k < i then entries[k] else entries[k + 1]);
  }

  /** Removing right after adding a new symbol gives back the list before. */
  lemma AddThenRemove(entries: seq<string>, symbol: string)
    requires symbol !in entries
    ensures var added := AddStep(entries, symbol);
      added.0.Ok? && RemoveStep(added.1, symbol) == (Ok(symbol + " removed from watchlist"), entries)
  {
    var after := entries + [symbol];
    assert IndexOf(after, symbol) == Some(|entries|) by {
      IndexOfAt(after, symbol, |entries|);
    }
    assert after[..|entries|] == entries && after[|entries| + 1..] == [];
    assert RemoveFirst(after, symbol) == entries;
  }

  lemma {:induction false} IndexOfAt(entries: seq<string>, symbol: string, i: nat)
    requires i < |entries| && entries[i] == symbol && forall k :: 0 <= k < i ==> entries[k] != symbol
    ensures IndexOf(entries, symbol) == Some(i)
    decreases i
  {
    if i > 0 {
      IndexOfAt(entries[1..], symbol, i - 1);
    }
  }

  /** A request to the watchlist routes. */
  datatype Request = AddRequest(symbol: string) | RemoveRequest(symbol: string)

  /** The list after a series of requests, each applied to the list the previous one left. */
  function Replay(entries: seq<string>, requests: seq<Request>): seq<string>
    decreases |requests|
  {
    if requests == [] then entries
    else
      var step := match requests[0]
        case AddRequest(s) => AddStep(entries, s).1
        case RemoveRequest(s) => RemoveStep(entries, s).1;
      Replay(step, requests[1..])
  }

  /** No series of requests lists a symbol twice, starting from an empty (or duplicate-free)
      list. */
  lemma {:induction false} ReplayNoDuplicates(entries: seq<string>, requests: seq<Request>)
    requires NoDuplicates(entries)
    ensures NoDuplicates(Replay(entries, requests))
    decreases |requests|
  {
    if requests != [] {
      match requests[0]
      case AddRequest(s) =>
        AddSpec(entries, s);
        ReplayNoDuplicates(AddStep(entries, s).1, requests[1..]);
      case RemoveRequest(s) =>
        RemoveKeepsUnique(entries, s);
        ReplayNoDuplicates(RemoveStep(entries, s).1, requests[1..]);
    }
  }
}
