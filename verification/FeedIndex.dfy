/** Refreshing the local feeds: an external vector index is filled before the catalog file is written. */
module FeedIndex {
  import opened Basics
  import opened StableSort

  const ITEM_LIMIT_PER_FEED := 100
  const DEFAULT_SOURCE_LIMIT := 100
  const MAX_CATALOG_ITEMS := 10000
  const MAX_CHANGED_PER_RUN := 500
  const CHUNK := 25

  type Vector = seq<real>

  datatype Source = Source(title: Option<string>, url: string)

  /** Dates are the milliseconds of the normalized date strings. */
  datatype FeedItem = FeedItem(
    id: string, title: string, content: string, feedTitle: Option<string>, feedUrl: string, guid: Option<string>,
    link: Option<string>, publishedAt: Option<int>, summary: Option<string>)

  datatype Entry = Entry(
    id: string, title: string, hash: string, feedTitle: Option<string>, feedUrl: string, guid: Option<string>,
    indexedAt: int, link: Option<string>, publishedAt: Option<int>, summary: Option<string>)

  datatype Row = Row(
    id: string, title: string, excerpt: string, feedTitle: string, feedUrl: string, guid: string,
    indexedAt: int, link: string, publishedAt: Option<int>, vector: Vector)

  /** The catalog file, absent or unreadable as `None`, and the vector index. */
  datatype Store = Store(catalog: Option<seq<Entry>>, index: map<string, Row>)

  /** The content hash and the embedding are whatever functions the host provides. */
  datatype Tools = Tools(hash: FeedItem -> string, embed: string -> Vector)

  // ------------------------------------------------------------------ what the outside does during one refresh

  datatype Fetch = Failed | Fetched(entries: seq<FeedItem>, embedFailsAt: Option<nat>)
  datatype Feed = Feed(source: Source, fetch: Fetch)
  datatype IndexFault = NoFault | OpenFails | ChunkFails(chunk: nat, applied: nat)
  datatype Write = Fails | Saves | SavesThenFails | Tears
  datatype World = World(configured: bool, feeds: seq<Feed>, readable: bool, fault: IndexFault, write: Write, now: int)

  datatype Outcome = Skipped | Done(changed: nat, failed: nat, sources: nat) | Thrown

  // ------------------------------------------------------------------ maps that remember insertion order

  function Find(items: seq<Entry>, id: string): (e: Option<Entry>)
    ensures e.Some? ==> e.value in items && e.value.id == id
  {
    if items == [] then None
    else if items[0].id == id then Some(items[0])
    else Find(items[1..], id)
  }

  /** `Map.set`: an id already present keeps its place. */
  function Put(items: seq<Entry>, e: Entry): (r: seq<Entry>)
    ensures |r| <= |items| + 1
  {
    if items == [] then [e]
    else if items[0].id == e.id then [e] + items[1..]
    else [items[0]] + Put(items[1..], e)
  }

  function MapOf(items: seq<Entry>): seq<Entry> {
    if items == [] then [] else Put(MapOf(items[..|items| - 1]), items[|items| - 1])
  }

  // ------------------------------------------------------------------ scanning the feeds

  function OrEmpty(s: Option<string>): string {
    if s.Some? then s.value else ""
  }

  function EntryFor(t: Tools, item: FeedItem, now: int): Entry {
    Entry(item.id, item.title, t.hash(item), item.feedTitle, item.feedUrl, item.guid, now, item.link, item.publishedAt,
      item.summary)
  }

  function RowFor(t: Tools, source: Source, item: FeedItem, now: int): Row {
    Row(item.id, item.title, OrEmpty(item.summary),
        if item.feedTitle.Some? then item.feedTitle.value else OrEmpty(source.title),
        item.feedUrl, OrEmpty(item.guid), now, OrEmpty(item.link), item.publishedAt, t.embed(item.content))
  }

  datatype Pass = Pass(rows: seq<Row>, next: seq<Entry>, failed: nat)

  predicate Known(existing: seq<Entry>, t: Tools, item: FeedItem) {
    var previous := Find(existing, item.id);
    previous.Some? && previous.value.hash == t.hash(item)
  }

  function Push(p: Pass, t: Tools, source: Source, item: FeedItem, now: int): Pass {
    Pass(p.rows + [RowFor(t, source, item, now)], Put(p.next, EntryFor(t, item, now)), p.failed)
  }

  /** The items of one feed: a failing embedding abandons the rest of the feed. */
  function ScanItems(p: Pass, existing: seq<Entry>, t: Tools, source: Source, items: seq<FeedItem>,
                     embedFailsAt: Option<nat>, now: int): Pass
    decreases |items|
  {
    if items == [] then p
    else if Known(existing, t, items[0]) then ScanItems(p, existing, t, source, items[1..], embedFailsAt, now)
    else if |p.rows| >= MAX_CHANGED_PER_RUN then p
    else if embedFailsAt == Some(0) then p.(failed := p.failed + 1)
    else
      var later := if embedFailsAt.Some? then Some((embedFailsAt.value - 1) as nat) else None;
      ScanItems(Push(p, t, source, items[0], now), existing, t, source, items[1..], later, now)
  }

  function FirstItems(entries: seq<FeedItem>): seq<FeedItem> {
    if |entries| <= ITEM_LIMIT_PER_FEED then entries else entries[..ITEM_LIMIT_PER_FEED]
  }

  function ScanFeed(p: Pass, existing: seq<Entry>, t: Tools, feed: Feed, now: int): Pass {
    match feed.fetch
    case Failed => p.(failed := p.failed + 1)
    case Fetched(entries, embedFailsAt) => ScanItems(p, existing, t, feed.source, FirstItems(entries), embedFailsAt,
      now)
  }

  function ScanFeeds(p: Pass, existing: seq<Entry>, t: Tools, feeds: seq<Feed>, now: int): Pass
    decreases |feeds|
  {
    if feeds == [] then p
    else
      var q := ScanFeed(p, existing, t, feeds[0], now);
      if |q.rows| >= MAX_CHANGED_PER_RUN then q else ScanFeeds(q, existing, t, feeds[1..], now)
  }

  // ------------------------------------------------------------------ writing index and catalog

  function Upserted(index: map<string, Row>, rows: seq<Row>): map<string, Row> {
    if rows == [] then index else Upserted(index, rows[..|rows| - 1])[rows[|rows| - 1].id := rows[|rows| - 1]]
  }

  /** How many rows reach the index, and whether the database calls all return. */
  function Reached(rows: seq<Row>, fault: IndexFault): (r: (nat, bool))
    ensures r.0 <= |rows| && (r.1 ==> r.0 == |rows|)
  {
    if rows == [] then (0, true)
    else
      match fault
      case NoFault => (|rows|, true)
      case OpenFails => (0, false)
      case ChunkFails(chunk, applied) =>
        var through := CHUNK * chunk + (if applied < CHUNK then applied else CHUNK);
        if CHUNK * chunk < |rows| then (if through < |rows| then through else |rows|, false) else (|rows|, true)
  }

  function SortKey(e: Entry): real {
    -(if e.publishedAt.Some? then e.publishedAt.value as real else 0.0)
  }

  /** Newest first, at most ten thousand. */
  function Persisted(items: seq<Entry>): seq<Entry> {
    var sorted := Sort(items, SortKey);
    if |sorted| <= MAX_CATALOG_ITEMS then sorted else sorted[..MAX_CATALOG_ITEMS]
  }

  function Catalog(s: Store, readable: bool): seq<Entry> {
    if readable && s.catalog.Some? then s.catalog.value else []
  }

  function WrittenCatalog(before: Option<seq<Entry>>, items: seq<Entry>, write: Write): Option<seq<Entry>> {
    match write
    case Fails => before
    case Saves => Some(Persisted(items))
    case SavesThenFails => Some(Persisted(items))
    case Tears => None
  }

  /** The store and the result after one refresh. */
  function Refreshed(s: Store, t: Tools, w: World): (Store, Outcome) {
    if !w.configured then (s, Skipped)
    else
      var existing := MapOf(Catalog(s, w.readable));
      var p := ScanFeeds(Pass([], existing, 0), existing, t, w.feeds, w.now);
      var (reached, ok) := Reached(p.rows, w.fault);
      var index := Upserted(s.index, p.rows[..reached]);
      if !ok then (Store(s.catalog, index), Thrown)
      else
        (Store(WrittenCatalog(s.catalog, p.next, w.write), index),
         if w.write.Saves? then Done(|p.rows|, p.failed, |w.feeds|) else Thrown)
  }

  lemma {:induction false} UpsertedConcat(index: map<string, Row>, a: seq<Row>, b: seq<Row>)
    ensures Upserted(index, a + b) == Upserted(Upserted(index, a), b)
    decreases |b|
  {
    if b == [] {
      assert a + b == a;
    } else {
      assert (a + b)[..|a + b| - 1] == a + b[..|b| - 1];
      UpsertedConcat(index, a, b[..|b| - 1]);
    }
  }

  // ------------------------------------------------------------------ the original's steps

  class Indexer {
    var catalog: Option<seq<Entry>>
    var index: map<string, Row>

    ghost function View(): Store
      reads this
    {
      Store(catalog, index)
    }

    constructor ()
      ensures View() == Store(None, map[])
    {
      catalog, index := None, map[];
    }

    /** One feed: a failing fetch or embedding is counted, and what was collected before it is kept. */
    method ScanSource(existing: seq<Entry>, t: Tools, feed: Feed, now: int, rows0: seq<Row>, next0: seq<Entry>,
                      failed0: nat)
      returns (rows: seq<Row>, next: seq<Entry>, failed: nat)
      ensures Pass(rows, next, failed) == ScanFeed(Pass(rows0, next0, failed0), existing, t, feed, now)
    {
      hide Put, EntryFor, RowFor, FirstItems, Known;
      rows, next, failed := rows0, next0, failed0;
      if feed.fetch.Failed? { return rows, next, failed + 1; }
      var items := FirstItems(feed.fetch.entries);
      var embedFailsAt := feed.fetch.embedFailsAt;
      var i := 0;
      assert items[0..] == items;
      while i < |items|
        invariant i <= |items|
        invariant ScanItems(Pass(rows, next, failed), existing, t, feed.source, items[i..], embedFailsAt, now)
                  == ScanFeed(Pass(rows0, next0, failed0), existing, t, feed, now)
      {
        var item := items[i];
        assert items[i..][1..] == items[i + 1..];
        i := i + 1;
        if Known(existing, t, item) { continue; }
        if |rows| >= MAX_CHANGED_PER_RUN { return rows, next, failed; }
        if embedFailsAt == Some(0) { return rows, next, failed + 1; }
        if embedFailsAt.Some? { embedFailsAt := Some(embedFailsAt.value - 1); }
        rows := rows + [RowFor(t, feed.source, item, now)];
        next := Put(next, EntryFor(t, item, now));
      }
    }

    method UpsertRows(rows: seq<Row>, fault: IndexFault) returns (ok: bool)
      modifies this`index
      ensures ok == Reached(rows, fault).1
      ensures index == Upserted(old(index), rows[..Reached(rows, fault).0])
    {
      hide Upserted;
      if |rows| == 0 {
        UpsertedNothing(index);
        assert rows[..0] == [];
        return true;
      }
      if fault.OpenFails? {
        UpsertedNothing(index);
        assert rows[..0] == [];
        return false;
      }
      UpsertedNothing(index);
      assert rows[..0] == [];
      var offset, chunk := 0, 0;
      while offset < |rows|
        invariant offset == CHUNK * chunk
        invariant index == Upserted(old(index), rows[..if offset < |rows| then offset else |rows|])
        invariant fault.ChunkFails? ==> chunk <= fault.chunk
      {
        var end := if offset + CHUNK < |rows| then offset + CHUNK else |rows|;
        if fault.ChunkFails? && fault.chunk == chunk {
          var through := offset + if fault.applied < CHUNK then fault.applied else CHUNK;
          var last := if through < |rows| then through else |rows|;
          UpsertedConcat(old(index), rows[..offset], rows[offset..last]);
          assert rows[..offset] + rows[offset..last] == rows[..last];
          index := Upserted(index, rows[offset..last]);
          return false;
        }
        UpsertedConcat(old(index), rows[..offset], rows[offset..end]);
        assert rows[..offset] + rows[offset..end] == rows[..end];
        index := Upserted(index, rows[offset..end]);
        offset := offset + CHUNK;
        chunk := chunk + 1;
      }
      return true;
    }

    method WriteCatalog(items: seq<Entry>, write: Write) returns (ok: bool)
      modifies this`catalog
      ensures catalog == WrittenCatalog(old(catalog), items, write) && ok == write.Saves?
    {
      if write.Fails? { return false; }
      var sorted := Sort(items, SortKey);
      var kept := if |sorted| <= MAX_CATALOG_ITEMS then sorted else sorted[..MAX_CATALOG_ITEMS];
      if write.Tears? {
        catalog := None;
        return false;
      }
      catalog := Some(kept);
      return write.Saves?;
    }

    method RefreshLocalFeeds(t: Tools, w: World) returns (r: Outcome)
      modifies this
      ensures (View(), r) == Refreshed(old(View()), t, w)
    {
      hide ScanFeed, MapOf, Persisted, Upserted, Reached;
      if !w.configured { return Skipped; }
      var existing := MapOf(if w.readable && catalog.Some? then catalog.value else []);
      var rows: seq<Row>, next, failed: nat := [], existing, 0;
      var i := 0;
      while i < |w.feeds|
        invariant i <= |w.feeds|
        invariant ScanFeeds(Pass(rows, next, failed), existing, t, w.feeds[i..], w.now)
                  == ScanFeeds(Pass([], existing, 0), existing, t, w.feeds, w.now)
        invariant View() == old(View())
      {
        assert w.feeds[i..][1..] == w.feeds[i + 1..];
        rows, next, failed := ScanSource(existing, t, w.feeds[i], w.now, rows, next, failed);
        i := i + 1;
        if |rows| >= MAX_CHANGED_PER_RUN { break; }
      }
      ghost var p := ScanFeeds(Pass([], existing, 0), existing, t, w.feeds, w.now);
      assert p == Pass(rows, next, failed);
      var indexed := UpsertRows(rows, w.fault);
      if !indexed { return Thrown; }
      var saved := WriteCatalog(next, w.write);
      if !saved { return Thrown; }
      return Done(|rows|, failed, |w.feeds|);
    }
  }

  lemma UpsertedNothing(index: map<string, Row>)
    ensures Upserted(index, []) == index
  {
  }
}
