/** Quiet refreshes of unchanging feeds: five hundred items at a time, until nothing is left to do. */
module FeedConvergence {
  import opened Basics
  import opened StableSort
  import opened FeedIndex
  import opened FeedIndexRuns

  /** Everything the feeds show, in the order in which it is scanned. */
  function AllItems(feeds: seq<Feed>): seq<FeedItem> {
    if feeds == [] then []
    else (if feeds[0].fetch.Fetched? then FirstItems(feeds[0].fetch.entries) else []) + AllItems(feeds[1..])
  }

  ghost predicate DistinctIds(items: seq<FeedItem>) {
    forall i, j :: 0 <= i < j < |items| ==> items[i].id != items[j].id
  }

  ghost predicate QuietFeeds(feeds: seq<Feed>) {
    forall f :: f in feeds ==> f.fetch.Fetched? && f.fetch.embedFailsAt.None?
  }

  /** A refresh in which nothing fails. */
  ghost predicate Quiet(w: World) {
    w.configured && w.readable && w.fault.NoFault? && w.write.Saves? && QuietFeeds(w.feeds)
  }

  /** The items that the catalog does not have in this form. */
  function Stale(existing: seq<Entry>, t: Tools, items: seq<FeedItem>): seq<FeedItem> {
    if items == [] then []
    else (if Known(existing, t, items[0]) then [] else [items[0]]) + Stale(existing, t, items[1..])
  }

  function PutAll(next: seq<Entry>, t: Tools, items: seq<FeedItem>, now: int): seq<Entry>
    decreases |items|
  {
    if items == [] then next else PutAll(Put(next, EntryFor(t, items[0], now)), t, items[1..], now)
  }

  function Least(a: nat, b: nat): nat {
    if a < b then a else b
  }

  lemma {:induction false} StaleConcat(existing: seq<Entry>, t: Tools, a: seq<FeedItem>, b: seq<FeedItem>)
    ensures Stale(existing, t, a + b) == Stale(existing, t, a) + Stale(existing, t, b)
  {
    hide Known;
    if a == [] {
      assert a + b == b;
    } else {
      assert (a + b)[1..] == a[1..] + b;
      StaleConcat(existing, t, a[1..], b);
    }
  }

  lemma {:induction false} PutAllConcat(next: seq<Entry>, t: Tools, a: seq<FeedItem>, b: seq<FeedItem>, now: int)
    ensures PutAll(next, t, a + b, now) == PutAll(PutAll(next, t, a, now), t, b, now)
    decreases |a|
  {
    hide Put, EntryFor;
    if a == [] {
      assert a + b == b;
    } else {
      assert (a + b)[1..] == a[1..] + b;
      PutAllConcat(Put(next, EntryFor(t, a[0], now)), t, a[1..], b, now);
    }
  }

  /** What a scan takes: the first stale items that still fit the limit of the run. */
  ghost predicate Takes(p: Pass, q: Pass, t: Tools, stale: seq<FeedItem>, now: int)
    requires |p.rows| <= MAX_CHANGED_PER_RUN
  {
    var k := Least(MAX_CHANGED_PER_RUN - |p.rows|, |stale|);
    |q.rows| == |p.rows| + k && q.failed == p.failed && q.next == PutAll(p.next, t, stale[..k], now)
  }

  lemma {:induction false} ScanItemsTakes(p: Pass, existing: seq<Entry>, t: Tools, source: Source,
                                          items: seq<FeedItem>, now: int)
    requires |p.rows| <= MAX_CHANGED_PER_RUN
    ensures Takes(p, ScanItems(p, existing, t, source, items, None, now), t, Stale(existing, t, items), now)
    decreases |items|
  {
    hide Known, Put, EntryFor, RowFor;
    if items != [] {
      var stale := Stale(existing, t, items);
      if Known(existing, t, items[0]) {
        ScanItemsTakes(p, existing, t, source, items[1..], now);
        assert stale == Stale(existing, t, items[1..]);
      } else if |p.rows| < MAX_CHANGED_PER_RUN {
        var q := Push(p, t, source, items[0], now);
        ScanItemsTakes(q, existing, t, source, items[1..], now);
        var rest := Stale(existing, t, items[1..]);
        var k := Least(MAX_CHANGED_PER_RUN - |q.rows|, |rest|);
        assert stale == [items[0]] + rest;
        assert stale[..k + 1][1..] == rest[..k];
      }
    }
  }

  lemma TakesMore(p: Pass, q: Pass, r: Pass, t: Tools, a: seq<FeedItem>, b: seq<FeedItem>, now: int)
    requires |p.rows| <= MAX_CHANGED_PER_RUN && Takes(p, q, t, a, now)
    requires if |q.rows| >= MAX_CHANGED_PER_RUN then r == q else Takes(q, r, t, b, now)
    ensures Takes(p, r, t, a + b, now)
  {
    var k := Least(MAX_CHANGED_PER_RUN - |p.rows|, |a|);
    if |q.rows| >= MAX_CHANGED_PER_RUN {
      assert (a + b)[..k] == a[..k];
    } else {
      var j := Least(MAX_CHANGED_PER_RUN - |q.rows|, |b|);
      assert a[..k] == a && (a + b)[..k + j] == a + b[..j];
      PutAllConcat(p.next, t, a, b[..j], now);
    }
  }

  lemma {:induction false} ScanFeedsTakes(p: Pass, existing: seq<Entry>, t: Tools, feeds: seq<Feed>, now: int)
    requires |p.rows| <= MAX_CHANGED_PER_RUN && QuietFeeds(feeds)
    ensures Takes(p, ScanFeeds(p, existing, t, feeds, now), t, Stale(existing, t, AllItems(feeds)), now)
    decreases |feeds|
  {
    hide ScanItems, FirstItems, Stale, PutAll;
    if feeds == [] {
      TakesNothing(p, t, existing, now);
    } else {
      var f := feeds[0];
      assert f in feeds;
      var items := FirstItems(f.fetch.entries);
      var q := ScanFeed(p, existing, t, f, now);
      ScanItemsTakes(p, existing, t, f.source, items, now);
      StaleConcat(existing, t, items, AllItems(feeds[1..]));
      if |q.rows| < MAX_CHANGED_PER_RUN { ScanFeedsTakes(q, existing, t, feeds[1..], now); }
      TakesMore(p, q, ScanFeeds(p, existing, t, feeds, now), t, Stale(existing, t, items),
        Stale(existing, t, AllItems(feeds[1..])), now);
    }
  }

  lemma TakesNothing(p: Pass, t: Tools, existing: seq<Entry>, now: int)
    requires |p.rows| <= MAX_CHANGED_PER_RUN
    ensures Takes(p, p, t, Stale(existing, t, []), now)
  {
  }

  // ------------------------------------------------------------------ what is stale afterwards

  lemma {:induction false} PutAllShape(next: seq<Entry>, t: Tools, items: seq<FeedItem>, now: int)
    requires UniqueIds(next)
    ensures UniqueIds(PutAll(next, t, items, now)) && |PutAll(next, t, items, now)| <= |next| + |items|
    decreases |items|
  {
    hide EntryFor;
    if items != [] {
      PutUnique(next, EntryFor(t, items[0], now));
      PutAllShape(Put(next, EntryFor(t, items[0], now)), t, items[1..], now);
    }
  }

  predicate HasId(items: seq<FeedItem>, id: string) {
    exists x :: x in items && x.id == id
  }

  /** After the entries are set, an id shows one of the items that carry it, or what it showed before. */
  lemma {:induction false} PutAllFinds(next: seq<Entry>, t: Tools, items: seq<FeedItem>, now: int, id: string)
    ensures !HasId(items, id) ==> Find(PutAll(next, t, items, now), id) == Find(next, id)
    ensures HasId(items, id) ==>
              exists y :: y in items && y.id == id && Find(PutAll(next, t, items, now), id) == Some(EntryFor(t, y, now))
    decreases |items|
  {
    hide Find, Put;
    if items != [] {
      var x, rest := items[0], items[1..];
      var after := Put(next, EntryFor(t, x, now));
      assert items == [x] + rest;
      FindPut(next, EntryFor(t, x, now), id);
      PutAllFinds(after, t, rest, now, id);
      if HasId(rest, id) {
        var y :| y in rest && y.id == id && Find(PutAll(after, t, rest, now), id) == Some(EntryFor(t, y, now));
        assert y in items;
      } else if x.id == id {
        assert x in items && Find(PutAll(next, t, items, now), id) == Some(EntryFor(t, x, now));
      }
    }
  }

  lemma {:induction false} StaleMembers(existing: seq<Entry>, t: Tools, items: seq<FeedItem>)
    requires DistinctIds(items)
    ensures DistinctIds(Stale(existing, t, items)) && |Stale(existing, t, items)| <= |items|
    ensures forall x :: x in Stale(existing, t, items) <==> x in items && !Known(existing, t, x)
  {
    hide Known;
    if items != [] {
      var rest, stale := items[1..], Stale(existing, t, items);
      StaleMembers(existing, t, rest);
      assert items == [items[0]] + rest;
      forall x | x in rest
        ensures x.id != items[0].id
      {
        var j :| 0 <= j < |rest| && rest[j] == x;
        assert items[j + 1] == x;
      }
      forall i, j | 0 <= i < j < |stale|
        ensures stale[i].id != stale[j].id
      {
        assert stale[j] in stale;
      }
    }
  }

  lemma {:induction false} StaleOfStale(before: seq<Entry>, after: seq<Entry>, t: Tools, items: seq<FeedItem>)
    requires forall x :: x in items && Known(before, t, x) ==> Known(after, t, x)
    ensures Stale(after, t, items) == Stale(after, t, Stale(before, t, items))
    decreases |items|
  {
    hide Known;
    if items != [] {
      var x, rest := items[0], items[1..];
      assert x in items && forall y :: y in rest ==> y in items;
      StaleOfStale(before, after, t, rest);
      if Known(before, t, x) {
        assert Known(after, t, x) && Stale(before, t, items) == Stale(before, t, rest);
      } else {
        var stale := [x] + Stale(before, t, rest);
        assert Stale(before, t, items) == stale && stale[1..] == Stale(before, t, rest);
      }
    }
  }

  lemma {:induction false} NothingStale(existing: seq<Entry>, t: Tools, items: seq<FeedItem>)
    requires forall x :: x in items ==> Known(existing, t, x)
    ensures Stale(existing, t, items) == []
    decreases |items|
  {
    hide Known;
    if items != [] {
      assert items[0] in items && forall y :: y in items[1..] ==> y in items;
      NothingStale(existing, t, items[1..]);
    }
  }

  lemma {:induction false} AllStale(existing: seq<Entry>, t: Tools, items: seq<FeedItem>)
    requires forall x :: x in items ==> !Known(existing, t, x)
    ensures Stale(existing, t, items) == items
    decreases |items|
  {
    hide Known;
    if items != [] {
      assert items[0] in items && forall y :: y in items[1..] ==> y in items;
      AllStale(existing, t, items[1..]);
      assert items == [items[0]] + items[1..];
    }
  }

  lemma SplitDistinct(items: seq<FeedItem>, k: nat)
    requires DistinctIds(items) && k <= |items|
    ensures forall x :: x in items[..k] ==> x in items
    ensures forall x :: x in items[k..] ==> x in items && x !in items[..k]
  {
    forall x | x in items[k..]
      ensures x in items && x !in items[..k]
    {
      var j :| 0 <= j < |items[k..]| && items[k..][j] == x;
      assert items[k + j] == x;
    }
  }

  /** If exactly the first `k` stale items became known, the others are what is stale. */
  lemma StaleAfter(before: seq<Entry>, after: seq<Entry>, t: Tools, items: seq<FeedItem>, k: nat)
    requires DistinctIds(items) && k <= |Stale(before, t, items)|
    requires forall x :: x in items ==> (Known(after, t, x) <==>
      Known(before, t, x) || x in Stale(before, t, items)[..k])
    ensures Stale(after, t, items) == Stale(before, t, items)[k..]
  {
    hide Known, Stale, DistinctIds;
    var stale := Stale(before, t, items);
    StaleOfStale(before, after, t, items);
    StaleMembers(before, t, items);
    SplitDistinct(stale, k);
    var taken, left := stale[..k], stale[k..];
    assert stale == taken + left;
    StaleConcat(after, t, taken, left);
    NothingStale(after, t, taken);
    AllStale(after, t, left);
  }

  // ------------------------------------------------------------------ feeds that show one form of each id

  /** No id is shown in two forms. */
  ghost predicate Consistent(t: Tools, items: seq<FeedItem>) {
    forall x, y :: x in items && y in items && x.id == y.id ==> t.hash(x) == t.hash(y)
  }

  lemma DistinctIsConsistent(t: Tools, items: seq<FeedItem>)
    requires DistinctIds(items)
    ensures Consistent(t, items)
  {
    forall x, y | x in items && y in items && x.id == y.id
      ensures x == y
    {
      var i :| 0 <= i < |items| && items[i] == x;
      var j :| 0 <= j < |items| && items[j] == y;
    }
  }

  lemma {:induction false} StaleIsPart(existing: seq<Entry>, t: Tools, items: seq<FeedItem>)
    ensures |Stale(existing, t, items)| <= |items|
    ensures forall x :: x in Stale(existing, t, items) <==> x in items && !Known(existing, t, x)
  {
    hide Known;
    if items != [] {
      StaleIsPart(existing, t, items[1..]);
      assert items == [items[0]] + items[1..];
    }
  }

  lemma {:induction false} StaleShrinks(before: seq<Entry>, after: seq<Entry>, t: Tools, items: seq<FeedItem>, k: nat)
    requires k <= |Stale(before, t, items)|
    requires forall x :: x in items && (Known(before, t, x) || x in Stale(before, t, items)[..k]) ==> Known(after, t, x)
    ensures |Stale(after, t, items)| <= |Stale(before, t, items)| - k
    decreases |items|
  {
    hide Known;
    if items != [] {
      var x, rest, stale := items[0], items[1..], Stale(before, t, items);
      var staleRest := Stale(before, t, rest);
      assert items == [x] + rest;
      if Known(before, t, x) {
        assert stale == staleRest;
        StaleShrinks(before, after, t, rest, k);
      } else {
        var j := if k == 0 then 0 else k - 1;
        assert stale == [x] + staleRest;
        assert k > 0 ==> stale[..k] == [x] + staleRest[..j];
        StaleShrinks(before, after, t, rest, j);
        assert k > 0 ==> x in stale[..k];
      }
    }
  }

  /** Taking stale items of consistent feeds makes them known and forgets nothing. */
  lemma TakenBecomeKnown(before: seq<Entry>, t: Tools, items: seq<FeedItem>, k: nat, now: int, x: FeedItem)
    requires Consistent(t, items) && k <= |Stale(before, t, items)| && x in items
    requires Known(before, t, x) || x in Stale(before, t, items)[..k]
    ensures Known(PutAll(before, t, Stale(before, t, items)[..k], now), t, x)
  {
    var taken := Stale(before, t, items)[..k];
    StaleIsPart(before, t, items);
    hide PutAll, Stale, Find;
    PutAllFinds(before, t, taken, now, x.id);
    if HasId(taken, x.id) {
      var y :| y in taken && y.id == x.id && Find(PutAll(before, t, taken, now), x.id) == Some(EntryFor(t, y, now));
      assert y in items;
    }
  }

  lemma OthersStayStale(before: seq<Entry>, t: Tools, items: seq<FeedItem>, k: nat, now: int, x: FeedItem)
    requires DistinctIds(items) && k <= |Stale(before, t, items)| && x in items
    requires !Known(before, t, x) && x !in Stale(before, t, items)[..k]
    ensures !Known(PutAll(before, t, Stale(before, t, items)[..k], now), t, x)
  {
    var taken := Stale(before, t, items)[..k];
    StaleIsPart(before, t, items);
    DistinctMeans(items);
    hide PutAll, Stale, Find, DistinctIds;
    PutAllFinds(before, t, taken, now, x.id);
    assert !HasId(taken, x.id);
  }

  lemma DistinctMeans(items: seq<FeedItem>)
    requires DistinctIds(items)
    ensures forall x, y :: x in items && y in items && x.id == y.id ==> x == y
  {
  }

  // ------------------------------------------------------------------ the file in between

  lemma {:induction false} InsertUnique(x: Entry, ys: seq<Entry>)
    requires UniqueIds(ys) && forall y :: y in ys ==> y.id != x.id
    ensures UniqueIds(Insert(x, ys, SortKey))
  {
    hide SortKey;
    InsertPermutes(x, ys, SortKey);
    if ys == [] || SortKey(x) <= SortKey(ys[0]) {
      assert forall i :: 0 <= i < |ys| ==> ys[i] in ys;
    } else {
      var rest := Insert(x, ys[1..], SortKey);
      assert ys == [ys[0]] + ys[1..];
      InsertUnique(x, ys[1..]);
      InsertPermutes(x, ys[1..], SortKey);
      forall j | 0 <= j < |rest|
        ensures ys[0].id != rest[j].id
      {
        assert rest[j] in rest;
        if rest[j] != x { var i :| 0 <= i < |ys[1..]| && ys[1..][i] == rest[j]; assert ys[i + 1] == rest[j]; }
      }
    }
  }

  lemma {:induction false} SortUnique(items: seq<Entry>)
    requires UniqueIds(items)
    ensures UniqueIds(Sort(items, SortKey))
  {
    hide SortKey, Insert;
    if items != [] {
      var rest := items[1..];
      SortUnique(rest);
      forall y | y in Sort(rest, SortKey)
        ensures y.id != items[0].id
      {
        SortMember(rest, SortKey, y);
        var i :| 0 <= i < |rest| && rest[i] == y;
        assert items[i + 1] == y;
      }
      InsertUnique(items[0], Sort(rest, SortKey));
    }
  }

  lemma {:induction false} SortSorted(items: seq<Entry>)
    requires forall i, j :: 0 <= i < j < |items| ==> SortKey(items[i]) <= SortKey(items[j])
    ensures Sort(items, SortKey) == items
  {
    hide SortKey;
    if items != [] {
      SortSorted(items[1..]);
      assert items == [items[0]] + items[1..];
    }
  }

  /** A catalog as the refresh leaves it: newest first, one entry per id, within the limit. */
  ghost predicate Tidy(items: seq<Entry>) {
    && UniqueIds(items) && |items| <= MAX_CATALOG_ITEMS
    && forall i, j :: 0 <= i < j < |items| ==> SortKey(items[i]) <= SortKey(items[j])
  }

  lemma PersistedKeepsAll(items: seq<Entry>)
    requires UniqueIds(items) && |items| <= MAX_CATALOG_ITEMS
    ensures Tidy(Persisted(items)) && |Persisted(items)| == |items|
    ensures forall id :: Find(Persisted(items), id) == Find(items, id)
  {
    hide Sort, SortKey, Find;
    SortBasics(items);
    SortUnique(items);
    var sorted := Sort(items, SortKey);
    assert Persisted(items) == sorted;
    forall id
      ensures Find(sorted, id) == Find(items, id)
    {
      var found := Find(items, id);
      if found.Some? {
        SortMember(items, SortKey, found.value);
        FindMember(sorted, found.value);
      } else if Find(sorted, id).Some? {
        var e := Find(sorted, id).value;
        SortMember(items, SortKey, e);
        FindAbsent(items, id);
      }
    }
  }

  lemma TidyIsKept(items: seq<Entry>)
    requires Tidy(items)
    ensures MapOf(items) == items && Persisted(items) == items
  {
    hide SortKey, Sort, MapOf;
    MapOfUnique(items);
    SortSorted(items);
  }

  // ------------------------------------------------------------------ convergence

  function Existing(s: Store): seq<Entry> { MapOf(Catalog(s, true)) }

  function Pending(s: Store, t: Tools, feeds: seq<Feed>): nat { |Stale(Existing(s), t, AllItems(feeds))| }

  /** Everything catalogued and pending fits the catalog. */
  predicate Room(s: Store, t: Tools, feeds: seq<Feed>) {
    |Existing(s)| + Pending(s, t, feeds) <= MAX_CATALOG_ITEMS
  }

  /** What a quiet refresh writes. */
  lemma QuietRefresh(s: Store, t: Tools, w: World)
    requires Quiet(w)
    ensures var k := Least(MAX_CHANGED_PER_RUN, Pending(s, t, w.feeds));
      var next := PutAll(Existing(s), t, Stale(Existing(s), t, AllItems(w.feeds))[..k], w.now);
      var (r, outcome) := Refreshed(s, t, w);
      outcome == Done(k, 0, |w.feeds|) && r.catalog == Some(Persisted(next)) && (k == 0 ==> r.index == s.index)
  {
    hide ScanFeeds, Persisted, MapOf, Stale, AllItems, PutAll, QuietFeeds;
    var existing := Existing(s);
    var p := ScanFeeds(Pass([], existing, 0), existing, t, w.feeds, w.now);
    ScanFeedsTakes(Pass([], existing, 0), existing, t, w.feeds, w.now);
    assert p.rows[..|p.rows|] == p.rows;
    hide Takes;
    UpsertedNothing(s.index);
  }

  /** The store after a quiet refresh: its catalog is tidy and shows the taken items. */
  lemma QuietRefreshCatalog(s: Store, t: Tools, w: World)
    requires Quiet(w) && Room(s, t, w.feeds)
    ensures var k := Least(MAX_CHANGED_PER_RUN, Pending(s, t, w.feeds));
      var next := PutAll(Existing(s), t, Stale(Existing(s), t, AllItems(w.feeds))[..k], w.now);
      var r := Refreshed(s, t, w).0;
      && r.catalog.Some? && Tidy(r.catalog.value) && Existing(r) == r.catalog.value
      && |Existing(r)| <= |Existing(s)| + k
      && forall id :: Find(Existing(r), id) == Find(next, id)
  {
    hide Refreshed, Persisted, MapOf, Stale, AllItems, PutAll, Tidy, Find;
    QuietRefresh(s, t, w);
    MapOfMembers(Catalog(s, true));
    var stale := Stale(Existing(s), t, AllItems(w.feeds));
    var k := Least(MAX_CHANGED_PER_RUN, Pending(s, t, w.feeds));
    PutAllShape(Existing(s), t, stale[..k], w.now);
    var next := PutAll(Existing(s), t, stale[..k], w.now);
    PersistedKeepsAll(next);
    TidyIsKept(Persisted(next));
  }

  /** A quiet refresh of consistent feeds settles at least five hundred pending items, or all of them. */
  lemma QuietStep(s: Store, t: Tools, w: World)
    requires Quiet(w) && Room(s, t, w.feeds) && Consistent(t, AllItems(w.feeds))
    ensures var r := Refreshed(s, t, w).0;
      && Pending(r, t, w.feeds) <= Pending(s, t, w.feeds) - Least(500, Pending(s, t, w.feeds))
      && Room(r, t, w.feeds)
  {
    hide Refreshed, Persisted, Stale, AllItems, PutAll, Tidy, Find, Existing, Consistent, Quiet;
    QuietRefreshCatalog(s, t, w);
    var r, items, before := Refreshed(s, t, w).0, AllItems(w.feeds), Existing(s);
    var k := Least(MAX_CHANGED_PER_RUN, Pending(s, t, w.feeds));
    var taken := Stale(before, t, items)[..k];
    var next := PutAll(before, t, taken, w.now);
    forall x | x in items && (Known(before, t, x) || x in taken)
      ensures Known(Existing(r), t, x)
    {
      TakenBecomeKnown(before, t, items, k, w.now, x);
      assert Find(Existing(r), x.id) == Find(next, x.id);
    }
    hide Known;
    StaleShrinks(before, Existing(r), t, items, k);
  }

  /** With distinct ids it settles exactly the first five hundred. */
  lemma QuietStepExact(s: Store, t: Tools, w: World)
    requires Quiet(w) && Room(s, t, w.feeds) && DistinctIds(AllItems(w.feeds))
    ensures var k := Least(500, Pending(s, t, w.feeds));
      var r := Refreshed(s, t, w).0;
      && Stale(Existing(r), t, AllItems(w.feeds)) == Stale(Existing(s), t, AllItems(w.feeds))[k..]
      && Pending(r, t, w.feeds) == Pending(s, t, w.feeds) - k
  {
    hide Refreshed, Persisted, Stale, AllItems, PutAll, Tidy, Find, Existing, Quiet, DistinctIds, Consistent;
    QuietRefreshCatalog(s, t, w);
    var r, items, before := Refreshed(s, t, w).0, AllItems(w.feeds), Existing(s);
    var k := Least(MAX_CHANGED_PER_RUN, Pending(s, t, w.feeds));
    var taken := Stale(before, t, items)[..k];
    var next := PutAll(before, t, taken, w.now);
    DistinctIsConsistent(t, items);
    forall x | x in items
      ensures Known(Existing(r), t, x) <==> Known(before, t, x) || x in taken
    {
      assert Find(Existing(r), x.id) == Find(next, x.id);
      if Known(before, t, x) || x in taken {
        TakenBecomeKnown(before, t, items, k, w.now, x);
      } else {
        OthersStayStale(before, t, items, k, w.now, x);
      }
    }
    hide Known;
    StaleAfter(before, Existing(r), t, items, k);
  }

  ghost predicate QuietRun(worlds: seq<World>, feeds: seq<Feed>) {
    forall w :: w in worlds ==> Quiet(w) && w.feeds == feeds
  }

  lemma {:induction false} PendingDrains(s: Store, t: Tools, feeds: seq<Feed>, worlds: seq<World>)
    requires QuietRun(worlds, feeds) && Room(s, t, feeds) && Consistent(t, AllItems(feeds))
    ensures var r := Run(s, t, worlds);
      && Room(r, t, feeds)
      && (Pending(r, t, feeds) == 0 || Pending(r, t, feeds) <= Pending(s, t, feeds) - 500 * |worlds|)
      && (worlds != [] ==> r.catalog.Some? && Tidy(r.catalog.value))
    decreases |worlds|
  {
    hide Refreshed, Pending, Room, Consistent, AllItems, Quiet, Tidy;
    if worlds != [] {
      var init, last := worlds[..|worlds| - 1], worlds[|worlds| - 1];
      assert last in worlds;
      PendingDrains(s, t, feeds, init);
      QuietStep(Run(s, t, init), t, last);
      QuietRefreshCatalog(Run(s, t, init), t, last);
    }
  }

  lemma {:induction false} AllItemsBound(feeds: seq<Feed>)
    ensures |AllItems(feeds)| <= 100 * |feeds|
  {
    if feeds != [] { AllItemsBound(feeds[1..]); }
  }

  /** A hundred sources of a hundred items fill the catalog at most: nothing is ever truncated. */
  lemma EmptyHasRoom(t: Tools, feeds: seq<Feed>)
    requires |feeds| <= DEFAULT_SOURCE_LIMIT
    ensures Room(EMPTY, t, feeds) && Pending(EMPTY, t, feeds) <= |AllItems(feeds)|
  {
    hide AllItems, Stale;
    AllItemsBound(feeds);
    StaleIsPart(Existing(EMPTY), t, AllItems(feeds));
  }

  lemma IdleRefresh(s: Store, t: Tools, w: World)
    requires Quiet(w) && s.catalog.Some? && Tidy(s.catalog.value) && Pending(s, t, w.feeds) == 0
    ensures Refreshed(s, t, w) == (s, Done(0, 0, |w.feeds|))
  {
    hide Refreshed, Tidy, Stale, AllItems, Persisted, MapOf;
    QuietRefresh(s, t, w);
    TidyIsKept(s.catalog.value);
  }

  lemma ConflictIsPending(s: Store, t: Tools, feeds: seq<Feed>)
    requires !Consistent(t, AllItems(feeds))
    ensures Pending(s, t, feeds) > 0
  {
    hide Stale, AllItems, Find, Existing;
    var items := AllItems(feeds);
    var x, y :| x in items && y in items && x.id == y.id && t.hash(x) != t.hash(y);
    StaleIsPart(Existing(s), t, items);
    assert !Known(Existing(s), t, x) || !Known(Existing(s), t, y);
  }

  /** From an empty catalog, enough quiet refreshes of the same feeds leave the next one nothing to do,
      exactly when the feeds show no id in two forms. */
  lemma SettlesIff(t: Tools, feeds: seq<Feed>, worlds: seq<World>, w: World)
    requires |feeds| <= DEFAULT_SOURCE_LIMIT && QuietRun(worlds, feeds) && Quiet(w) && w.feeds == feeds
    requires worlds != [] && 500 * |worlds| >= |AllItems(feeds)|
    ensures var s := Run(EMPTY, t, worlds);
      Refreshed(s, t, w) == (s, Done(0, 0, |feeds|)) <==> Consistent(t, AllItems(feeds))
  {
    hide Refreshed, Run, AllItems, Consistent, Quiet, Tidy, Pending, Room, QuietRun;
    var s := Run(EMPTY, t, worlds);
    EmptyHasRoom(t, feeds);
    if Consistent(t, AllItems(feeds)) {
      PendingDrains(EMPTY, t, feeds, worlds);
      IdleRefresh(s, t, w);
    } else {
      ConflictIsPending(s, t, feeds);
      QuietRefresh(s, t, w);
    }
  }
}
