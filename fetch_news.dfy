/** The daily sync job (`FetchNewsJob`): fetch the week's items for each
    market and upsert them into the event table, counting what was stored and
    what was skipped. The feed is a parameter (`None` when the fetch throws);
    so are the valid `Currency` names and the positions at which the upsert
    itself throws. */
module FetchNews {
  import opened Common
  import opened Text
  import opened Domain
  import opened EventStore

  /** The two counters the loop keeps. */
  datatype Counts = Counts(created: nat, skipped: nat)

  /** The table after a run, and the counters. */
  datatype Ingested = Ingested(table: Table, counts: Counts)

  /** The natural key an item is stored under: currency and impact are the
      upper-cased `country` and `impact`. */
  function ItemKey(item: NewsItem): NaturalKey {
    NaturalKey(item.title, item.date, Upper(item.impact), Upper(item.country))
  }

  /** The item at position `i` reaches the table: its upper-cased country is
      a valid currency (impact is not checked) and the upsert does not throw. */
  predicate Stored(item: NewsItem, i: nat, currencies: set<string>, failAt: set<nat>) {
    Upper(item.country) in currencies && i !in failAt
  }

  /** The upsert loop over `news`, item by item in order. Every item adds
      one to exactly one counter. */
  function Ingest(t: Table, news: seq<NewsItem>, currencies: set<string>, failAt: set<nat>): (r: Ingested)
    ensures r.counts.created + r.counts.skipped == |news|
    decreases |news|
  {
    if news == [] then Ingested(t, Counts(0, 0))
    else
      var prev := Ingest(t, news[..|news| - 1], currencies, failAt);
      var item := news[|news| - 1];
      if Stored(item, |news| - 1, currencies, failAt) then
        Ingested(Upserted(prev.table, ItemKey(item), item.forecast, item.previous),
                 Counts(prev.counts.created + 1, prev.counts.skipped))
      else
        Ingested(prev.table, Counts(prev.counts.created, prev.counts.skipped + 1))
  }

  /** The last item of `news` that is stored under `k`, if any: it decides
      the row's forecast and previous. */
  function LastStored(news: seq<NewsItem>, k: NaturalKey, currencies: set<string>, failAt: set<nat>)
    : (r: Option<NewsItem>)
    ensures r.Some? ==> ItemKey(r.value) == k
    decreases |news|
  {
    if news == [] then None
    else if Stored(news[|news| - 1], |news| - 1, currencies, failAt) && ItemKey(news[|news| - 1]) == k then
      Some(news[|news| - 1])
    else LastStored(news[..|news| - 1], k, currencies, failAt)
  }

  /** Ingesting keeps the table valid. */
  lemma {:induction false} IngestValid(t: Table, news: seq<NewsItem>, currencies: set<string>, failAt: set<nat>)
    requires Valid(t)
    ensures Valid(Ingest(t, news, currencies, failAt).table)
    decreases |news|
  {
    if news != [] {
      var prev := Ingest(t, news[..|news| - 1], currencies, failAt);
      IngestValid(t, news[..|news| - 1], currencies, failAt);
      var item := news[|news| - 1];
      UpsertValid(prev.table, ItemKey(item), item.forecast, item.previous);
    }
  }

  /** What a run leaves under a key: with no stored item for `k` the row is
      as before (or still absent); otherwise the row exists, carries the last
      such item's forecast and previous, and an existing row changes in
      nothing else. */
  lemma {:induction false} IngestRow(t: Table, news: seq<NewsItem>, currencies: set<string>, failAt: set<nat>,
                                     k: NaturalKey)
    ensures var r := Ingest(t, news, currencies, failAt).table;
            var last := LastStored(news, k, currencies, failAt);
            if last.None? then
              (k in r.rows <==> k in t.rows) && (k in t.rows ==> r.rows[k] == t.rows[k])
            else
              k in r.rows
              && r.rows[k].forecast == last.value.forecast && r.rows[k].previous == last.value.previous
              && (k in t.rows ==>
                    r.rows[k] == t.rows[k].(forecast := last.value.forecast, previous := last.value.previous))
    decreases |news|
  {
    if news != [] {
      var init := news[..|news| - 1];
      var item := news[|news| - 1];
      var prev := Ingest(t, init, currencies, failAt);
      IngestRow(t, init, currencies, failAt, k);
      if Stored(item, |news| - 1, currencies, failAt) {
        UpsertEffect(prev.table, ItemKey(item), item.forecast, item.previous);
      }
    }
  }

  /** A stored item's key has a last stored item. */
  lemma {:induction false} StoredHasLast(news: seq<NewsItem>, currencies: set<string>, failAt: set<nat>, i: nat)
    requires i < |news| && Stored(news[i], i, currencies, failAt)
    ensures LastStored(news, ItemKey(news[i]), currencies, failAt).Some?
    decreases |news|
  {
    var k := ItemKey(news[i]);
    if i < |news| - 1 && !(Stored(news[|news| - 1], |news| - 1, currencies, failAt) && ItemKey(news[|news| - 1]) == k) {
      StoredHasLast(news[..|news| - 1], currencies, failAt, i);
    }
  }

  /** When every stored item's key already has a row, a run creates nothing
      and so issues no id. */
  lemma {:induction false} IngestNoCreate(t: Table, news: seq<NewsItem>, currencies: set<string>, failAt: set<nat>)
    requires forall i :: 0 <= i < |news| && Stored(news[i], i, currencies, failAt) ==> ItemKey(news[i]) in t.rows
    ensures Ingest(t, news, currencies, failAt).table.nextId == t.nextId
    ensures Ingest(t, news, currencies, failAt).table.rows.Keys == t.rows.Keys
    decreases |news|
  {
    if news != [] {
      var init := news[..|news| - 1];
      var item := news[|news| - 1];
      forall i | 0 <= i < |init| && Stored(init[i], i, currencies, failAt)
        ensures ItemKey(init[i]) in t.rows
      {
        assert init[i] == news[i];
      }
      IngestNoCreate(t, init, currencies, failAt);
      var prev := Ingest(t, init, currencies, failAt);
      if Stored(item, |news| - 1, currencies, failAt) {
        UpsertEffect(prev.table, ItemKey(item), item.forecast, item.previous);
      }
    }
  }

  /** Running the upsert loop a second time on the same items (with the same
      failures) leaves the table exactly as the first run left it. */
  lemma IngestIdempotent(t: Table, news: seq<NewsItem>, currencies: set<string>, failAt: set<nat>)
    ensures var once := Ingest(t, news, currencies, failAt).table;
            Ingest(once, news, currencies, failAt).table == once
  {
    var once := Ingest(t, news, currencies, failAt).table;
    var twice := Ingest(once, news, currencies, failAt).table;
    forall i | 0 <= i < |news| && Stored(news[i], i, currencies, failAt)
      ensures ItemKey(news[i]) in once.rows
    {
      StoredHasLast(news, currencies, failAt, i);
      IngestRow(t, news, currencies, failAt, ItemKey(news[i]));
    }
    IngestNoCreate(once, news, currencies, failAt);
    forall k | k in once.rows
      ensures twice.rows[k] == once.rows[k]
    {
      IngestRow(t, news, currencies, failAt, k);
      IngestRow(once, news, currencies, failAt, k);
    }
    assert twice.rows == once.rows;
  }

  class FetchNewsJob {
    const table: EventTable

    constructor (table: EventTable)
      ensures this.table == table
    {
      this.table := table;
    }

    /** `fetchAndStoreNewsForMarket`: a failing fetch is passed on; otherwise
        each item is upper-cased, skipped when its currency is invalid or its
        upsert throws, and upserted otherwise. */
    method FetchAndStoreNewsForMarket(fetched: Option<seq<NewsItem>>, currencies: set<string>, failAt: set<nat>)
      returns (r: Result<Counts>)
      modifies table
      ensures r.Err? <==> fetched.None?
      ensures fetched.None? ==> table.Snapshot() == old(table.Snapshot())
      ensures fetched.Some? ==>
        var run := Ingest(old(table.Snapshot()), fetched.value, currencies, failAt);
        table.Snapshot() == run.table && r.value == run.counts
    {
      if fetched.None? {
        return Err("Failed to fetch weekly news");
      }
      var news := fetched.value;
      var created, skipped := 0, 0;
      var i := 0;
      while i < |news|
        invariant 0 <= i <= |news|
        invariant var run := Ingest(old(table.Snapshot()), news[..i], currencies, failAt);
                  table.Snapshot() == run.table && Counts(created, skipped) == run.counts
      {
        assert news[..i + 1][..i] == news[..i];
        var item := news[i];
        var currency := Upper(item.country);
        var impact := Upper(item.impact);
        if currency !in currencies {
          skipped := skipped + 1;
        } else if i in failAt {
          skipped := skipped + 1;
        } else {
          table.Upsert(NaturalKey(item.title, item.date, impact, currency), item.forecast, item.previous);
          created := created + 1;
        }
        i := i + 1;
      }
      assert news[..i] == news;
      r := Ok(Counts(created, skipped));
    }

    /** `execute`: sync each enabled market in turn (only FOREX is enabled,
        so one call); an error is passed on. */
    method Execute(fetchedForex: Option<seq<NewsItem>>, currencies: set<string>, failAt: set<nat>)
      returns (r: Result<()>)
      modifies table
      ensures r.Err? <==> fetchedForex.None?
      ensures fetchedForex.Some? ==>
        table.Snapshot() == Ingest(old(table.Snapshot()), fetchedForex.value, currencies, failAt).table
      ensures fetchedForex.None? ==> table.Snapshot() == old(table.Snapshot())
    {
      var stored := FetchAndStoreNewsForMarket(fetchedForex, currencies, failAt);
      if stored.Err? {
        return Err(stored.message);
      }
      r := Ok(());
    }
  }
}
