/** The `NewsEvent` table the worker jobs write: rows are identified by the
    table's unique constraint on (title, date, impact, currency), and new rows
    get an id the table issues. The table is a map from that natural key to
    the row; ids are drawn from a counter. */
module EventStore {
  import opened Common
  import opened Text
  import opened Domain

  /** The unique constraint `title_date_impact_currency`. */
  datatype NaturalKey = NaturalKey(title: string, date: int, impact: string, currency: string)

  function KeyOf(e: NewsEvent): NaturalKey {
    NaturalKey(e.title, e.date, e.impact, e.currency)
  }

  /** The table's contents and the next id it will issue. */
  datatype Table = Table(rows: map<NaturalKey, NewsEvent>, nextId: nat)

  /** Every row sits under its own natural key, and the ids are pairwise
      distinct numbers below `nextId`. */
  predicate Valid(t: Table) {
    (forall k :: k in t.rows ==> KeyOf(t.rows[k]) == k)
    && (forall k :: k in t.rows ==> 0 <= DecimalValue(t.rows[k].id) < t.nextId)
    && (forall k1, k2 :: k1 in t.rows && k2 in t.rows && k1 != k2 ==> t.rows[k1].id != t.rows[k2].id)
  }

  /** The row `upsert` creates: no `actual` yet, source "ForexFactory". */
  function NewRow(id: string, k: NaturalKey, forecast: string, previous: string): NewsEvent {
    NewsEvent(id, k.title, k.currency, k.impact, k.date, forecast, previous, None, "ForexFactory")
  }

  /** `prisma.newsEvent.upsert`: an existing row gets the new forecast and
      previous and nothing else; a missing one is created under a fresh id. */
  function Upserted(t: Table, k: NaturalKey, forecast: string, previous: string): Table {
    if k in t.rows then
      Table(t.rows[k := t.rows[k].(forecast := forecast, previous := previous)], t.nextId)
    else
      Table(t.rows[k := NewRow(NatToString(t.nextId), k, forecast, previous)], t.nextId + 1)
  }

  /** After an upsert the row under `k` carries the given forecast and
      previous; an existing row keeps its id, title, date, impact, currency,
      actual and source; a new row is the created one; other rows do not move. */
  lemma UpsertEffect(t: Table, k: NaturalKey, forecast: string, previous: string)
    ensures var u := Upserted(t, k, forecast, previous);
      u.rows.Keys == t.rows.Keys + {k}
      && u.rows[k].forecast == forecast && u.rows[k].previous == previous
      && (k in t.rows ==>
            u.nextId == t.nextId
            && u.rows[k] == t.rows[k].(forecast := forecast, previous := previous))
      && (k !in t.rows ==>
            u.nextId == t.nextId + 1
            && u.rows[k] == NewRow(NatToString(t.nextId), k, forecast, previous))
      && (forall j :: j in t.rows && j != k ==> u.rows[j] == t.rows[j])
  {
  }

  /** Upserting keeps the table valid: the created row's id is the counter,
      which no earlier id reaches. */
  lemma UpsertValid(t: Table, k: NaturalKey, forecast: string, previous: string)
    requires Valid(t)
    ensures Valid(Upserted(t, k, forecast, previous))
  {
    var u := Upserted(t, k, forecast, previous);
    if k !in t.rows {
      var id := NatToString(t.nextId);
      DecimalRoundTrip(t.nextId);
      forall j | j in t.rows
        ensures u.rows[j].id != id
      {
        assert DecimalValue(t.rows[j].id) < t.nextId == DecimalValue(id);
      }
    }
  }

  /** `deleteMany({ where: { date: { lt: cutoff } } })`: the rows kept. */
  function Retain(rows: map<NaturalKey, NewsEvent>, cutoff: int): (r: map<NaturalKey, NewsEvent>)
    ensures forall k :: k in r <==> k in rows && rows[k].date >= cutoff
    ensures forall k :: k in r ==> r[k] == rows[k]
  {
    map k | k in rows && rows[k].date >= cutoff :: rows[k]
  }

  /** The keys `deleteMany` removes. */
  function Expired(rows: map<NaturalKey, NewsEvent>, cutoff: int): (r: set<NaturalKey>)
    ensures forall k :: k in r <==> k in rows && rows[k].date < cutoff
  {
    set k | k in rows && rows[k].date < cutoff
  }

  /** The kept and the removed rows split the table. */
  lemma RetainSplits(rows: map<NaturalKey, NewsEvent>, cutoff: int)
    ensures Retain(rows, cutoff).Keys + Expired(rows, cutoff) == rows.Keys
    ensures Retain(rows, cutoff).Keys * Expired(rows, cutoff) == {}
    ensures |Expired(rows, cutoff)| == |rows.Keys| - |Retain(rows, cutoff).Keys|
  {
    var kept := Retain(rows, cutoff).Keys;
    var gone := Expired(rows, cutoff);
    assert kept + gone == rows.Keys;
    assert |kept + gone| == |kept| + |gone| - |kept * gone|;
  }

  /** A second delete with the same cutoff finds nothing. */
  lemma RetainIdempotent(rows: map<NaturalKey, NewsEvent>, cutoff: int)
    ensures Retain(Retain(rows, cutoff), cutoff) == Retain(rows, cutoff)
    ensures Expired(Retain(rows, cutoff), cutoff) == {}
  {
  }

  /** The table itself, mutated in place by the jobs. */
  class EventTable {
    var rows: map<NaturalKey, NewsEvent>
    var nextId: nat

    function Snapshot(): Table
      reads this
    {
      Table(rows, nextId)
    }

    constructor ()
      ensures rows == map[] && nextId == 0
    {
      rows := map[];
      nextId := 0;
    }

    /** `prisma.newsEvent.upsert` on the natural key. */
    method Upsert(k: NaturalKey, forecast: string, previous: string)
      modifies this
      ensures Snapshot() == Upserted(old(Snapshot()), k, forecast, previous)
    {
      if k in rows {
        rows := rows[k := rows[k].(forecast := forecast, previous := previous)];
      } else {
        rows := rows[k := NewRow(NatToString(nextId), k, forecast, previous)];
        nextId := nextId + 1;
      }
    }

    /** `prisma.newsEvent.deleteMany` on `date < cutoff`, returning the count. */
    method DeleteOlderThan(cutoff: int) returns (count: nat)
      modifies this
      ensures rows == Retain(old(rows), cutoff) && nextId == old(nextId)
      ensures count == |Expired(old(rows), cutoff)|
    {
      RetainSplits(rows, cutoff);
      count := |Expired(rows, cutoff)|;
      rows := Retain(rows, cutoff);
    }
  }
}
