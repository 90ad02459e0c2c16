/** What holds of the feed index after any run of refreshes, and how quickly a quiet one catches up. */
module FeedIndexRuns {
  import opened Basics
  import opened StableSort
  import opened FeedIndex

  /** The store after refreshes in these worlds, one after another. */
  function Run(s: Store, t: Tools, worlds: seq<World>): Store {
    if worlds == [] then s else Refreshed(Run(s, t, worlds[..|worlds| - 1]), t, worlds[|worlds| - 1]).0
  }

  const EMPTY := Store(None, map[])

  // ------------------------------------------------------------------ maps

  ghost predicate UniqueIds(items: seq<Entry>) {
    forall i, j :: 0 <= i < j < |items| ==> items[i].id != items[j].id
  }

  lemma {:induction false} PutMembers(items: seq<Entry>, e: Entry)
    ensures forall x :: x in Put(items, e) ==> x == e || x in items
    ensures e in Put(items, e)
  {
    if items != [] && items[0].id != e.id { PutMembers(items[1..], e); }
  }

  lemma {:induction false} PutUnique(items: seq<Entry>, e: Entry)
    requires UniqueIds(items)
    ensures UniqueIds(Put(items, e))
  {
    if items != [] && items[0].id != e.id {
      var rest := Put(items[1..], e);
      PutUnique(items[1..], e);
      PutMembers(items[1..], e);
      forall i, j | 0 <= i < j < |rest| + 1
        ensures Put(items, e)[i].id != Put(items, e)[j].id
      {
        assert Put(items, e) == [items[0]] + rest;
        if i == 0 { assert rest[j - 1] in rest; }
      }
    }
  }

  lemma {:induction false} FindPut(items: seq<Entry>, e: Entry, id: string)
    ensures Find(Put(items, e), id) == if id == e.id then Some(e) else Find(items, id)
  {
    if items != [] && items[0].id != e.id {
      FindPut(items[1..], e, id);
      assert Put(items, e)[1..] == Put(items[1..], e);
    } else if items != [] {
      assert Put(items, e)[1..] == items[1..];
    }
  }

  lemma {:induction false} MapOfMembers(items: seq<Entry>)
    ensures UniqueIds(MapOf(items)) && |MapOf(items)| <= |items|
    ensures forall e :: e in MapOf(items) ==> e in items
    decreases |items|
  {
    if items != [] {
      var init, last := items[..|items| - 1], items[|items| - 1];
      MapOfMembers(init);
      PutUnique(MapOf(init), last);
      PutMembers(MapOf(init), last);
    }
  }

  lemma {:induction false} PutNew(items: seq<Entry>, e: Entry)
    requires forall x :: x in items ==> x.id != e.id
    ensures Put(items, e) == items + [e]
  {
    if items != [] {
      PutNew(items[1..], e);
      assert items == [items[0]] + items[1..];
    }
  }

  /** Entries with distinct ids are their own map. */
  lemma {:induction false} MapOfUnique(items: seq<Entry>)
    requires UniqueIds(items)
    ensures MapOf(items) == items
    decreases |items|
  {
    if items != [] {
      var init, last := items[..|items| - 1], items[|items| - 1];
      MapOfUnique(init);
      PutNew(init, last);
    }
  }

  lemma {:induction false} FindMember(items: seq<Entry>, e: Entry)
    requires UniqueIds(items) && e in items
    ensures Find(items, e.id) == Some(e)
  {
    if items[0] != e {
      var i :| 0 <= i < |items| && items[i] == e;
      assert items[1..][i - 1] == e;
      FindMember(items[1..], e);
    }
  }

  lemma {:induction false} FindAbsent(items: seq<Entry>, id: string)
    requires Find(items, id) == None
    ensures forall e :: e in items ==> e.id != id
  {
    if items != [] { FindAbsent(items[1..], id); }
  }

  // ------------------------------------------------------------------ rows

  /** The last row for an id: what the index holds after the rows are applied in order. */
  function LastRow(rows: seq<Row>, id: string): (r: Option<Row>)
    ensures r.Some? ==> r.value in rows && r.value.id == id
  {
    if rows == [] then None
    else if rows[|rows| - 1].id == id then Some(rows[|rows| - 1])
    else LastRow(rows[..|rows| - 1], id)
  }

  lemma {:induction false} UpsertedAt(index: map<string, Row>, rows: seq<Row>, id: string)
    ensures id in Upserted(index, rows) <==> id in index || LastRow(rows, id).Some?
    ensures LastRow(rows, id).Some? ==> Upserted(index, rows)[id] == LastRow(rows, id).value
    ensures LastRow(rows, id).None? && id in index ==> Upserted(index, rows)[id] == index[id]
    decreases |rows|
  {
    if rows != [] { UpsertedAt(index, rows[..|rows| - 1], id); }
  }

  /** The row shows what the entry says. */
  predicate Matches(row: Row, e: Entry) {
    && row.id == e.id && row.title == e.title && row.excerpt == OrEmpty(e.summary) && row.feedUrl == e.feedUrl
    && row.guid == OrEmpty(e.guid) && row.link == OrEmpty(e.link) && row.publishedAt == e.publishedAt
    && (e.feedTitle.Some? ==> row.feedTitle == e.feedTitle.value)
  }

  /** Row and entry are those of one item: its texts, the embedding of its content, and its hash. */
  ghost predicate ShowItem(row: Row, e: Entry, t: Tools, source: Source, item: FeedItem, now: int) {
    && row.id == item.id && row.title == item.title && row.vector == t.embed(item.content) && row.indexedAt == now
    && row.excerpt == OrEmpty(item.summary) && row.feedUrl == item.feedUrl && row.guid == OrEmpty(item.guid)
    && row.link == OrEmpty(item.link) && row.publishedAt == item.publishedAt
    && row.feedTitle == (if item.feedTitle.Some? then item.feedTitle.value
                         else if source.title.Some? then source.title.value else "")
    && e.id == item.id && e.hash == t.hash(item) && e.title == item.title && e.publishedAt == item.publishedAt
  }

  /** The item is among the first hundred that a feed delivered. */
  ghost predicate Delivered(feeds: seq<Feed>, source: Source, item: FeedItem) {
    exists f, j ::
      && f in feeds && f.source == source && f.fetch.Fetched? && 0 <= j < |f.fetch.entries| && j < 100
      && f.fetch.entries[j] == item
  }

  ghost predicate CarryItem(row: Row, e: Entry, t: Tools, feeds: seq<Feed>, now: int) {
    exists source, item :: Delivered(feeds, source, item) && ShowItem(row, e, t, source, item, now)
  }

  /** Each entry of a pass comes with the row that carries it, both of an item delivered, or is untouched. */
  ghost predicate Backed(p: Pass, existing: seq<Entry>, t: Tools, all: seq<Feed>, now: int) {
    && UniqueIds(p.next)
    && forall e :: e in p.next ==>
         var row := LastRow(p.rows, e.id);
         if row.Some? then Matches(row.value, e) && CarryItem(row.value, e, t, all, now) else e in existing
  }

  lemma PushBacked(p: Pass, existing: seq<Entry>, t: Tools, all: seq<Feed>, source: Source, item: FeedItem, now: int)
    requires Backed(p, existing, t, all, now) && Delivered(all, source, item)
    ensures Backed(Push(p, t, source, item, now), existing, t, all, now)
  {
    var row, entry, q := RowFor(t, source, item, now), EntryFor(t, item, now), Push(p, t, source, item, now);
    PutUnique(p.next, entry);
    PutMembers(p.next, entry);
    PushedShows(t, source, item, now);
    hide Delivered, ShowItem;
    assert CarryItem(row, entry, t, all, now);
    assert q.rows[..|q.rows| - 1] == p.rows;
    forall e | e in q.next
      ensures e == entry || (e.id != entry.id && e in p.next)
    {
      if e != entry {
        var i :| 0 <= i < |q.next| && q.next[i] == e;
        var j :| 0 <= j < |q.next| && q.next[j] == entry;
      }
    }
    hide CarryItem;
  }

  lemma PushedShows(t: Tools, source: Source, item: FeedItem, now: int)
    ensures ShowItem(RowFor(t, source, item, now), EntryFor(t, item, now), t, source, item, now)
  {
  }

  lemma {:induction false} ScanItemsBacked(p: Pass, existing: seq<Entry>, t: Tools, all: seq<Feed>, source: Source,
                                           items: seq<FeedItem>, embedFailsAt: Option<nat>, now: int)
    requires Backed(p, existing, t, all, now) && forall item :: item in items ==> Delivered(all, source, item)
    ensures Backed(ScanItems(p, existing, t, source, items, embedFailsAt, now), existing, t, all, now)
    decreases |items|
  {
    hide Known, Push, Backed, Delivered;
    FailuresDoNotMatter(p, existing, t, all, now);
    if items != [] {
      if Known(existing, t, items[0]) {
        ScanItemsBacked(p, existing, t, all, source, items[1..], embedFailsAt, now);
      } else if |p.rows| < MAX_CHANGED_PER_RUN && embedFailsAt != Some(0) {
        var later := if embedFailsAt.Some? then Some((embedFailsAt.value - 1) as nat) else None;
        PushBacked(p, existing, t, all, source, items[0], now);
        ScanItemsBacked(Push(p, t, source, items[0], now), existing, t, all, source, items[1..], later, now);
      }
    }
  }

  lemma {:induction false} ScanFeedsBacked(p: Pass, existing: seq<Entry>, t: Tools, all: seq<Feed>, feeds: seq<Feed>,
                                           now: int)
    requires Backed(p, existing, t, all, now) && forall f :: f in feeds ==> f in all
    ensures Backed(ScanFeeds(p, existing, t, feeds, now), existing, t, all, now)
    decreases |feeds|
  {
    hide ScanItems, FirstItems, Backed, Delivered;
    if feeds != [] {
      var f := feeds[0].fetch;
      FailuresDoNotMatter(p, existing, t, all, now);
      if f.Fetched? {
        FirstAreDelivered(all, feeds[0]);
        ScanItemsBacked(p, existing, t, all, feeds[0].source, FirstItems(f.entries), f.embedFailsAt, now);
      }
      ScanFeedsBacked(ScanFeed(p, existing, t, feeds[0], now), existing, t, all, feeds[1..], now);
    }
  }

  lemma FailuresDoNotMatter(p: Pass, existing: seq<Entry>, t: Tools, all: seq<Feed>, now: int)
    requires Backed(p, existing, t, all, now)
    ensures Backed(p.(failed := p.failed + 1), existing, t, all, now)
  {
    hide CarryItem, Matches;
  }

  lemma FirstAreDelivered(all: seq<Feed>, f: Feed)
    requires f in all && f.fetch.Fetched?
    ensures forall item :: item in FirstItems(f.fetch.entries) ==> Delivered(all, f.source, item)
  {
    forall item | item in FirstItems(f.fetch.entries)
      ensures Delivered(all, f.source, item)
    {
      var j :| 0 <= j < |FirstItems(f.fetch.entries)| && FirstItems(f.fetch.entries)[j] == item;
      assert f.fetch.entries[j] == item;
    }
  }

  lemma ScannedIsBacked(items: seq<Entry>, t: Tools, feeds: seq<Feed>, now: int)
    ensures var existing := MapOf(items);
      Backed(ScanFeeds(Pass([], existing, 0), existing, t, feeds, now), existing, t, feeds, now)
    ensures forall e :: e in MapOf(items) ==> e in items
  {
    hide MapOf, ScanFeeds;
    MapOfMembers(items);
    ScanFeedsBacked(Pass([], MapOf(items), 0), MapOf(items), t, feeds, feeds, now);
  }

  lemma PersistedMembers(items: seq<Entry>)
    ensures |Persisted(items)| <= MAX_CATALOG_ITEMS
    ensures forall e :: e in Persisted(items) ==> e in items
  {
    hide Sort;
    forall e | e in Persisted(items)
      ensures e in items
    {
      SortMember(items, SortKey, e);
    }
  }

  // ------------------------------------------------------------------ index before catalog

  ghost predicate Covered(s: Store) {
    s.catalog.Some? ==> forall e :: e in s.catalog.value ==> e.id in s.index
  }

  lemma RefreshCovers(s: Store, t: Tools, w: World)
    requires Covered(s)
    ensures Covered(Refreshed(s, t, w).0)
  {
    hide ScanFeeds, MapOf, Persisted, Upserted, Reached;
    if w.configured {
      var items := Catalog(s, w.readable);
      var existing := MapOf(items);
      var p := ScanFeeds(Pass([], existing, 0), existing, t, w.feeds, w.now);
      var (reached, ok) := Reached(p.rows, w.fault);
      var index := Upserted(s.index, p.rows[..reached]);
      ScannedIsBacked(items, t, w.feeds, w.now);
      PersistedMembers(p.next);
      forall id
        ensures id in s.index ==> id in index
        ensures ok && LastRow(p.rows, id).Some? ==> id in index
      {
        UpsertedAt(s.index, p.rows[..reached], id);
        assert ok ==> p.rows[..reached] == p.rows;
      }
    }
  }

  /**
   In every run, whatever fetch, embedding, database call or file operation fails, each catalogued id is in the
   index.
   */
  lemma {:induction false} IndexBeforeCatalog(t: Tools, worlds: seq<World>)
    ensures Covered(Run(EMPTY, t, worlds))
    decreases |worlds|
  {
    hide Covered, Refreshed;
    if worlds == [] {
      EmptyIsCovered();
    } else {
      IndexBeforeCatalog(t, worlds[..|worlds| - 1]);
      RefreshCovers(Run(EMPTY, t, worlds[..|worlds| - 1]), t, worlds[|worlds| - 1]);
    }
  }

  lemma EmptyIsCovered()
    ensures Covered(EMPTY) && RowsMatch(EMPTY)
  {
  }

  // ------------------------------------------------------------------ rows match entries

  ghost predicate RowsMatch(s: Store) {
    s.catalog.Some? ==> forall e :: e in s.catalog.value ==> e.id in s.index && Matches(s.index[e.id], e)
  }

  /** The ids that a refresh changes. */
  function ChangedRows(s: Store, t: Tools, w: World): seq<Row> {
    var existing := MapOf(Catalog(s, w.readable));
    ScanFeeds(Pass([], existing, 0), existing, t, w.feeds, w.now).rows
  }

  /**
   After a refresh that completes, the row of each changed id matches its catalog entry, the last change winning, and
   both are those of an item that was delivered, embedding and hash included.
   */
  lemma ChangedIdsMatch(s: Store, t: Tools, w: World)
    requires Refreshed(s, t, w).1.Done?
    ensures var r := Refreshed(s, t, w).0;
      && r.catalog.Some?
      && forall e :: e in r.catalog.value && LastRow(ChangedRows(s, t, w), e.id).Some? ==>
           && e.id in r.index && r.index[e.id] == LastRow(ChangedRows(s, t, w), e.id).value
           && Matches(r.index[e.id], e) && CarryItem(r.index[e.id], e, t, w.feeds, w.now)
  {
    hide ScanFeeds, MapOf, Persisted, Upserted, Reached, Matches, CarryItem;
    var items, r := Catalog(s, w.readable), Refreshed(s, t, w).0;
    var existing := MapOf(items);
    var p := ScanFeeds(Pass([], existing, 0), existing, t, w.feeds, w.now);
    ScannedIsBacked(items, t, w.feeds, w.now);
    PersistedMembers(p.next);
    assert p.rows[..|p.rows|] == p.rows;
    forall e | e in r.catalog.value && LastRow(p.rows, e.id).Some?
      ensures e.id in r.index && r.index[e.id] == LastRow(p.rows, e.id).value && Matches(r.index[e.id], e)
      ensures CarryItem(r.index[e.id], e, t, w.feeds, w.now)
    {
      UpsertedAt(s.index, p.rows, e.id);
    }
  }

  /** The database calls return, and the catalog write is not lost before it reaches the file. */
  predicate LandsTogether(s: Store, t: Tools, w: World) {
    Reached(ChangedRows(s, t, w), w.fault).1 && !w.write.Fails?
  }

  lemma RefreshKeepsMatch(s: Store, t: Tools, w: World)
    requires RowsMatch(s) && LandsTogether(s, t, w)
    ensures RowsMatch(Refreshed(s, t, w).0)
  {
    hide ScanFeeds, MapOf, Persisted, Upserted, Reached, Matches, CarryItem;
    if w.configured {
      var items, r := Catalog(s, w.readable), Refreshed(s, t, w).0;
      var existing := MapOf(items);
      var p := ScanFeeds(Pass([], existing, 0), existing, t, w.feeds, w.now);
      ScannedIsBacked(items, t, w.feeds, w.now);
      PersistedMembers(p.next);
      assert p.rows[..|p.rows|] == p.rows;
      if r.catalog.Some? {
        forall e | e in r.catalog.value
          ensures e.id in r.index && Matches(r.index[e.id], e)
        {
          UpsertedAt(s.index, p.rows, e.id);
        }
      }
    }
  }

  /** What the refresh showed the index agrees with what the catalog file said before it. */
  ghost predicate ShowsNothingNew(s: Store, t: Tools, w: World) {
    var rows := ChangedRows(s, t, w);
    var reached := rows[..Reached(rows, w.fault).0];
    s.catalog.Some? ==> forall e :: e in s.catalog.value && LastRow(reached, e.id).Some? ==>
      Matches(LastRow(reached, e.id).value, e)
  }

  /**
   A refresh leaves every row matching exactly when its catalog lands with its rows, or those rows show nothing new
   of a catalogued id.
   */
  lemma RefreshKeepsMatchIff(s: Store, t: Tools, w: World)
    requires RowsMatch(s) && w.configured
    ensures RowsMatch(Refreshed(s, t, w).0) <==> LandsTogether(s, t, w) || ShowsNothingNew(s, t, w)
  {
    hide ScanFeeds, MapOf, Persisted, Upserted, Reached, Matches, CarryItem;
    if LandsTogether(s, t, w) {
      RefreshKeepsMatch(s, t, w);
    } else {
      var rows, r := ChangedRows(s, t, w), Refreshed(s, t, w).0;
      assert r.catalog == s.catalog && r.index == Upserted(s.index, rows[..Reached(rows, w.fault).0]);
      forall id
        ensures id in r.index <==> id in s.index || LastRow(rows[..Reached(rows, w.fault).0], id).Some?
        ensures LastRow(rows[..Reached(rows, w.fault).0], id).Some? ==>
          r.index[id] == LastRow(rows[..Reached(rows, w.fault).0], id).value
        ensures LastRow(rows[..Reached(rows, w.fault).0], id).None? && id in s.index ==> r.index[id] == s.index[id]
      {
        UpsertedAt(s.index, rows[..Reached(rows, w.fault).0], id);
      }
      hide Refreshed, LastRow;
    }
  }

  ghost predicate AllLand(t: Tools, worlds: seq<World>) {
    worlds == [] ||
    (AllLand(t, worlds[..|worlds| - 1]) && LandsTogether(Run(EMPTY, t, worlds[..|worlds| - 1]), t,
      worlds[|worlds| - 1]))
  }

  /** When no refresh loses its catalog after touching the index, every row matches its entry, in every run. */
  lemma {:induction false} RowsMatchInRuns(t: Tools, worlds: seq<World>)
    requires AllLand(t, worlds)
    ensures RowsMatch(Run(EMPTY, t, worlds))
    decreases |worlds|
  {
    hide RowsMatch, Refreshed, LandsTogether;
    if worlds == [] {
      EmptyIsCovered();
    } else {
      RowsMatchInRuns(t, worlds[..|worlds| - 1]);
      RefreshKeepsMatch(Run(EMPTY, t, worlds[..|worlds| - 1]), t, worlds[|worlds| - 1]);
    }
  }

  // ------------------------------------------------------------------ when they do not land together

  function OneItem(source: Source, item: FeedItem, write: Write, now: int): World {
    World(true, [Feed(source, Fetched([item], None))], true, NoFault, write, now)
  }

  /** A refresh over a feed of one item, from an empty catalog or one that holds just that id. */
  lemma RefreshOneItem(s: Store, t: Tools, source: Source, item: FeedItem, write: Write, now: int)
    requires s.catalog.Some? ==> |s.catalog.value| == 1 && s.catalog.value[0].id == item.id
    ensures var known := s.catalog.Some? && s.catalog.value[0].hash == t.hash(item);
      var kept := if known then s.catalog.value else [EntryFor(t, item, now)];
      Refreshed(s, t, OneItem(source, item, write, now)) ==
        (Store(WrittenCatalog(s.catalog, kept, write),
               if known then s.index else s.index[item.id := RowFor(t, source, item, now)]),
         if write.Saves? then Done(if known then 0 else 1, 0, 1) else Thrown)
  {
    hide Persisted, EntryFor, RowFor;
    var w := OneItem(source, item, write, now);
    var existing := MapOf(Catalog(s, true));
    OneEntryMap(s);
    var known := s.catalog.Some? && s.catalog.value[0].hash == t.hash(item);
    var p0 := Pass([], existing, 0);
    assert FirstItems([item]) == [item];
    EntryId(t, item, now);
    var row, entry := RowFor(t, source, item, now), EntryFor(t, item, now);
    assert Put(existing, entry) == [entry];
    var p := if known then p0 else Push(p0, t, source, item, now);
    assert ScanItems(p0, existing, t, source, [item], None, now) == p by {
      assert Known(existing, t, item) == known;
      assert [item][1..] == [];
    }
    assert w.feeds[1..] == [];
    hide ScanItems, FirstItems, Known, MapOf;
    assert ScanFeeds(p0, existing, t, w.feeds, now) == p;
    hide ScanFeeds, Upserted, Reached;
    assert p.rows == if known then [] else [row];
    assert p.next == if known then s.catalog.value else [entry];
    UpsertedOne(s.index, p.rows);
  }

  lemma OneEntryMap(s: Store)
    ensures s.catalog.Some? && |s.catalog.value| == 1 ==> MapOf(Catalog(s, true)) == s.catalog.value
    ensures s.catalog.None? ==> MapOf(Catalog(s, true)) == []
  {
    if s.catalog.Some? && |s.catalog.value| == 1 { MapOfUnique(s.catalog.value); }
  }

  lemma EntryId(t: Tools, item: FeedItem, now: int)
    ensures EntryFor(t, item, now).id == item.id && EntryFor(t, item, now).hash == t.hash(item)
    ensures forall source :: RowFor(t, source, item, now).id == item.id
  {
  }

  lemma UpsertedOne(index: map<string, Row>, rows: seq<Row>)
    requires |rows| <= 1
    ensures Reached(rows, NoFault).1
    ensures Upserted(index, rows[..Reached(rows, NoFault).0]) == if rows == [] then index
      else index[rows[0].id := rows[0]]
  {
    assert rows[..|rows|] == rows;
  }

  lemma PersistedOne(e: Entry)
    ensures Persisted([e]) == [e]
  {
    assert [e][1..] == [];
    assert Insert(e, [], SortKey) == [e] + [];
    assert Sort([e], SortKey) == [e];
  }

  /**
   A lost catalog write followed by the feed going back to what it showed before leaves a row that no later refresh
   repairs.
   */
  lemma LostCatalogLeavesAWrongRow(t: Tools, source: Source, a: FeedItem, b: FeedItem, now: int)
    requires a.id == b.id && t.hash(a) != t.hash(b) && a.title != b.title
    ensures var s := Run(EMPTY, t, [OneItem(source, a, Saves, now), OneItem(source, b, Fails, now)]);
      && !RowsMatch(s)
      && Refreshed(s, t, OneItem(source, a, Saves, now)) == (s, Done(0, 0, 1))
  {
    hide Refreshed, Persisted;
    var first, second := OneItem(source, a, Saves, now), OneItem(source, b, Fails, now);
    var s1 := Refreshed(EMPTY, t, first).0;
    var s2 := Refreshed(s1, t, second).0;
    var entry := EntryFor(t, a, now);
    RefreshOneItem(EMPTY, t, source, a, Saves, now);
    PersistedOne(entry);
    RefreshOneItem(s1, t, source, b, Fails, now);
    assert [first, second][..1] == [first] && [first][..0] == [];
    assert Run(EMPTY, t, [first]) == s1;
    assert Run(EMPTY, t, [first, second]) == s2;
    assert s2.catalog == Some([entry]) && s2.index[a.id] == RowFor(t, source, b, now);
    assert entry in s2.catalog.value;
    RefreshOneItem(s2, t, source, a, Saves, now);
  }

  // ------------------------------------------------------------------ what the size limit drops

  function Dropped(items: seq<Entry>): seq<Entry> {
    Sort(items, SortKey)[if |Sort(items, SortKey)| <= MAX_CATALOG_ITEMS then |Sort(items, SortKey)|
      else MAX_CATALOG_ITEMS..]
  }

  lemma SortBasics(items: seq<Entry>)
    ensures var sorted := Sort(items, SortKey);
      |sorted| == |items| && multiset(sorted) == multiset(items)
      && forall i, j :: 0 <= i < j < |sorted| ==> SortKey(sorted[i]) <= SortKey(sorted[j])
  {
    hide Sort, SortKey, WithKey;
    SortSpec(items, SortKey);
  }

  /** `a` is not published before `b`, where an entry without a date counts as published at the epoch. */
  ghost predicate NotBefore(a: Entry, b: Entry) {
    && (a.publishedAt.Some? && b.publishedAt.Some? ==> a.publishedAt.value >= b.publishedAt.value)
    && (a.publishedAt.Some? && b.publishedAt.None? ==> a.publishedAt.value >= 0)
    && (a.publishedAt.None? && b.publishedAt.Some? ==> 0 >= b.publishedAt.value)
  }

  /** The catalog keeps the newest entries, newest first: what is dropped is not newer than anything kept. */
  lemma TruncationDropsTheOldest(items: seq<Entry>)
    ensures |Persisted(items)| == if |items| <= 10000 then |items| else 10000
    ensures multiset(Persisted(items)) + multiset(Dropped(items)) == multiset(items)
    ensures forall i, j :: 0 <= i < j < |Persisted(items)| ==> NotBefore(Persisted(items)[i], Persisted(items)[j])
    ensures forall k, d :: k in Persisted(items) && d in Dropped(items) ==> NotBefore(k, d)
  {
    hide Sort, SortKey, NotBefore;
    SortBasics(items);
    var sorted, kept, dropped := Sort(items, SortKey), Persisted(items), Dropped(items);
    assert sorted == kept + dropped;
    forall i, j | 0 <= i < j < |sorted|
      ensures NotBefore(sorted[i], sorted[j])
    {
      KeyIsDate(sorted[i], sorted[j]);
    }
    forall k, d | k in kept && d in dropped
      ensures NotBefore(k, d)
    {
      var i :| 0 <= i < |kept| && kept[i] == k;
      var j :| 0 <= j < |dropped| && dropped[j] == d;
      assert sorted[i] == k && sorted[|kept| + j] == d;
    }
  }

  lemma KeyIsDate(a: Entry, b: Entry)
    ensures SortKey(a) <= SortKey(b) ==> NotBefore(a, b)
  {
  }
}
