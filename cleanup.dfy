/** The weekly retention job (`CleanupJob`): delete every event dated more
    than 30 days before now. The clock and a failing delete are parameters. */
module Cleanup {
  import opened Common
  import opened Domain
  import opened EventStore

  const RetentionDays: int := 30
  const SecondsPerDay: int := 86400

  /** `dayjs().subtract(30, "days")`, in seconds. */
  function Cutoff(now: int): (c: int)
    ensures c < now && now - c == RetentionDays * SecondsPerDay
  {
    now - RetentionDays * SecondsPerDay
  }

  class CleanupJob {
    const table: EventTable

    constructor (table: EventTable)
      ensures this.table == table
    {
      this.table := table;
    }

    /** `execute`: one bulk delete of the rows dated strictly before the
        cutoff; the count is what was removed. A failing delete changes
        nothing and its error is passed on. */
    method Execute(now: int, deleteThrows: bool) returns (r: Result<nat>)
      modifies table
      ensures r.Err? <==> deleteThrows
      ensures deleteThrows ==> table.Snapshot() == old(table.Snapshot())
      ensures !deleteThrows ==>
        table.rows == Retain(old(table.rows), Cutoff(now))
        && table.nextId == old(table.nextId)
        && r.value == |old(table.rows).Keys| - |table.rows.Keys|
    {
      if deleteThrows {
        return Err("Error during cleanup");
      }
      var count := table.DeleteOlderThan(Cutoff(now));
      RetainSplits(old(table.rows), Cutoff(now));
      r := Ok(count);
    }
  }

  /** A row survives a run exactly when it is dated at or after the cutoff,
      and it survives unchanged. */
  lemma CleanupKeeps(rows: map<NaturalKey, NewsEvent>, now: int, k: NaturalKey)
    requires k in rows
    ensures k in Retain(rows, Cutoff(now)) <==> rows[k].date >= now - 30 * 86400
    ensures k in Retain(rows, Cutoff(now)) ==> Retain(rows, Cutoff(now))[k] == rows[k]
  {
  }

  /** A second run at the same instant deletes nothing. */
  lemma SecondCleanupDeletesNothing(rows: map<NaturalKey, NewsEvent>, now: int)
    ensures var once := Retain(rows, Cutoff(now));
            Retain(once, Cutoff(now)) == once && |Expired(once, Cutoff(now))| == 0
  {
    RetainIdempotent(rows, Cutoff(now));
  }
}
