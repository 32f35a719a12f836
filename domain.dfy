/** Records shared by the worker, the broker and the admin commands.
    Timestamps are whole seconds on the naive clock the event table uses;
    ids are the strings the database hands out. */
module Domain {
  import opened Common

  /** The two alert cadences (`AlertType` enum). */
  datatype AlertType = FiveMinutesBefore | OnNewsDrop {
    /** The enum value as stored and as carried in queue messages. */
    function Name(): (s: string)
      ensures |s| > 0
    {
      match this
      case FiveMinutesBefore => "FIVE_MINUTES_BEFORE"
      case OnNewsDrop => "ON_NEWS_DROP"
    }
  }

  /** The two names differ, so a stored name identifies its cadence. */
  lemma AlertTypeNameInjective(a: AlertType, b: AlertType)
    ensures a.Name() == b.Name() ==> a == b
  {
    if a != b {
      assert a.Name()[0] != b.Name()[0];
    }
  }

  /** A news item as carried in queue messages and rendered in embeds (`News`). */
  datatype NewsItem = NewsItem(
    title: string,
    country: string,
    impact: string,
    date: int,
    forecast: string,
    previous: string)

  /** A stored news event (`NewsEvent` row). */
  datatype NewsEvent = NewsEvent(
    id: string,
    title: string,
    currency: string,
    impact: string,
    date: int,
    forecast: string,
    previous: string,
    actual: Option<string>,
    source: string)

  /** A stored alert subscription (`NewsAlert` row); the three lists hold enum
      names, and an empty impact or currency list means "all". */
  datatype NewsAlert = NewsAlert(
    id: string,
    serverId: string,
    channelId: string,
    roleId: Option<string>,
    impact: seq<string>,
    currency: seq<string>,
    alertType: seq<string>)

  /** A stored schedule (`Schedule` row): a daily or weekly digest posted at
      `hour:minute` in `timeZone`. */
  datatype Schedule = Schedule(
    id: string,
    serverId: string,
    channelId: string,
    roleId: Option<string>,
    hour: int,
    minute: int,
    timeZone: string,
    newsScope: string,
    frequency: string,
    market: string,
    impact: seq<string>,
    currency: seq<string>,
    timeDisplay: string)
}
