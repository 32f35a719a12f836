/** The alert matcher of the news worker (`SendAlertsJob`): once a minute it
    looks up the events due in five minutes and those due now, matches them
    against every alert configuration subscribed to that cadence, publishes
    one grouped message per configuration with matches, and remembers what
    it published in the in-memory `sentAlerts` set of
    "<event id>-<alert type>" keys.

    Timestamps are whole seconds on the naive clock the event table uses.
    The database is a parameter: the event table, the alert table, and
    whether each query throws. */
module SendAlerts {
  import opened Common
  import opened Domain
  import opened Broker

  /** `cleanupSentAlerts` clears the set once it holds more keys than this. */
  const SentAlertsLimit: nat := 1000
  const FiveMinutes: int := 5 * 60

  // ---------------------------------------------------------------------
  // Keys and matching

  /** The dedup key `${event.id}-${alertType}`. */
  function Key(e: NewsEvent, t: AlertType): string {
    e.id + "-" + t.Name()
  }

  /** Keys identify the event id and the alert type: the two type names end
      in different letters, and for one type the suffix has a fixed length. */
  lemma KeyInjective(e1: NewsEvent, t1: AlertType, e2: NewsEvent, t2: AlertType)
    ensures Key(e1, t1) == Key(e2, t2) <==> e1.id == e2.id && t1 == t2
  {
    var k1, k2 := Key(e1, t1), Key(e2, t2);
    assert k1[|k1| - 1] == if t1 == FiveMinutesBefore then 'E' else 'P';
    assert k2[|k2| - 1] == if t2 == FiveMinutesBefore then 'E' else 'P';
    if t1 == t2 {
      assert k1[..|e1.id|] == e1.id;
      assert k2[..|e2.id|] == e2.id;
    }
  }

  function KeysOf(events: seq<NewsEvent>, t: AlertType): set<string> {
    set e | e in events :: Key(e, t)
  }

  /** The configuration's own filter: an empty currency or impact list
      accepts every value. */
  predicate Accepts(config: NewsAlert, e: NewsEvent) {
    (|config.currency| == 0 || e.currency in config.currency)
    && (|config.impact| == 0 || e.impact in config.impact)
  }

  /** The filter of `sendGroupedAlerts`: not yet sent for this alert type
      and accepted by the configuration. */
  predicate Matches(config: NewsAlert, e: NewsEvent, t: AlertType, sent: set<string>) {
    Key(e, t) !in sent && Accepts(config, e)
  }

  /** `events.filter(...)` for one configuration, in event order. */
  function MatchingEvents(config: NewsAlert, events: seq<NewsEvent>, t: AlertType, sent: set<string>)
    : (r: seq<NewsEvent>)
    ensures |r| <= |events|
    decreases |events|
  {
    if events == [] then []
    else
      var rest := MatchingEvents(config, events[1..], t, sent);
      if Matches(config, events[0], t, sent) then [events[0]] + rest else rest
  }

  /** The filter keeps exactly the due events that match. */
  lemma {:induction false} MatchingMember(config: NewsAlert, events: seq<NewsEvent>, t: AlertType,
                                           sent: set<string>, e: NewsEvent)
    ensures e in MatchingEvents(config, events, t, sent) <==> e in events && Matches(config, e, t, sent)
    decreases |events|
  {
    if events != [] {
      MatchingMember(config, events[1..], t, sent, e);
      assert e in events <==> e == events[0] || e in events[1..];
    }
  }

  /** Nothing matches exactly when no due event passes the filter. */
  lemma {:induction false} MatchingEmpty(config: NewsAlert, events: seq<NewsEvent>, t: AlertType, sent: set<string>)
    ensures MatchingEvents(config, events, t, sent) == [] <==> forall e :: e in events ==> !Matches(config, e, t, sent)
    decreases |events|
  {
    if events != [] {
      MatchingEmpty(config, events[1..], t, sent);
      assert forall e :: e in events <==> e == events[0] || e in events[1..];
    }
  }

  /** More keys sent means fewer matches. */
  lemma MatchingMonotone(config: NewsAlert, events: seq<NewsEvent>, t: AlertType, s1: set<string>, s2: set<string>)
    requires s1 <= s2
    requires MatchingEvents(config, events, t, s1) == []
    ensures MatchingEvents(config, events, t, s2) == []
  {
    MatchingEmpty(config, events, t, s1);
    MatchingEmpty(config, events, t, s2);
  }

  /** The two cadences are deduplicated independently: keys recorded for one
      alert type never hide an event from the other. */
  lemma {:induction false} DedupPerAlertType(config: NewsAlert, events: seq<NewsEvent>, t: AlertType,
                                              u: AlertType, sent: set<string>, others: seq<NewsEvent>)
    requires t != u
    ensures MatchingEvents(config, events, t, sent + KeysOf(others, u)) == MatchingEvents(config, events, t, sent)
    decreases |events|
  {
    if events != [] {
      forall o | o in others
        ensures Key(o, u) != Key(events[0], t)
      {
        KeyInjective(o, u, events[0], t);
      }
      DedupPerAlertType(config, events[1..], t, u, sent, others);
    }
  }

  /** `prisma.newsAlert.findMany({ where: { alertType: { has: t } } })`,
      in table order. */
  function ConfigsFor(alerts: seq<NewsAlert>, t: AlertType): (r: seq<NewsAlert>)
    ensures |r| <= |alerts|
    decreases |alerts|
  {
    if alerts == [] then []
    else
      var rest := ConfigsFor(alerts[1..], t);
      if t.Name() in alerts[0].alertType then [alerts[0]] + rest else rest
  }

  /** The query returns exactly the alerts subscribed to the alert type. */
  lemma {:induction false} ConfigsForMember(alerts: seq<NewsAlert>, t: AlertType, a: NewsAlert)
    ensures a in ConfigsFor(alerts, t) <==> a in alerts && t.Name() in a.alertType
    decreases |alerts|
  {
    if alerts != [] {
      ConfigsForMember(alerts[1..], t, a);
      assert a in alerts <==> a == alerts[0] || a in alerts[1..];
    }
  }

  // ---------------------------------------------------------------------
  // One pass over the configurations

  /** A grouped message published for one configuration. */
  datatype Delivery = Delivery(config: NewsAlert, events: seq<NewsEvent>)

  /** What the loop over configurations has done so far. */
  datatype Pass = Pass(deliveries: seq<Delivery>, sent: set<string>)

  /** One iteration of the loop over configurations, as written: the
      events are matched against the keys recorded so far, including those
      recorded for earlier configurations in the same pass. */
  function Step(p: Pass, config: NewsAlert, events: seq<NewsEvent>, t: AlertType): Pass {
    var m := MatchingEvents(config, events, t, p.sent);
    if m == [] then p else Pass(p.deliveries + [Delivery(config, m)], p.sent + KeysOf(m, t))
  }

  /** The loop over `configs`, from `sent`. */
  function RunConfigs(configs: seq<NewsAlert>, events: seq<NewsEvent>, t: AlertType, sent: set<string>): Pass
    decreases |configs|
  {
    if configs == [] then Pass([], sent)
    else Step(RunConfigs(configs[..|configs| - 1], events, t, sent), configs[|configs| - 1], events, t)
  }

  /** The keys of the events carried by `ds`. */
  function DeliveredKeys(ds: seq<Delivery>, t: AlertType): set<string>
    decreases |ds|
  {
    if ds == [] then {} else DeliveredKeys(ds[..|ds| - 1], t) + KeysOf(ds[|ds| - 1].events, t)
  }

  /** A delivered key is the key of an event some delivery carries. */
  lemma {:induction false} DeliveredKeysMember(ds: seq<Delivery>, t: AlertType, x: string)
    requires x in DeliveredKeys(ds, t)
    ensures exists k, e :: 0 <= k < |ds| && e in ds[k].events && x == Key(e, t)
    decreases |ds|
  {
    var init := ds[..|ds| - 1];
    if x in DeliveredKeys(init, t) {
      DeliveredKeysMember(init, t, x);
      var k, e :| 0 <= k < |init| && e in init[k].events && x == Key(e, t);
      assert ds[k] == init[k];
    } else {
      var e :| e in ds[|ds| - 1].events && x == Key(e, t);
    }
  }

  /** A pass adds to the set exactly the keys of the events it publishes,
      and nothing else. */
  lemma {:induction false} RunSentGrows(configs: seq<NewsAlert>, events: seq<NewsEvent>, t: AlertType, sent: set<string>)
    ensures var p := RunConfigs(configs, events, t, sent);
            p.sent == sent + DeliveredKeys(p.deliveries, t)
    ensures sent <= RunConfigs(configs, events, t, sent).sent
    decreases |configs|
  {
    if configs != [] {
      var init := configs[..|configs| - 1];
      var p := RunConfigs(init, events, t, sent);
      RunSentGrows(init, events, t, sent);
      var m := MatchingEvents(configs[|configs| - 1], events, t, p.sent);
      if m != [] {
        var ds := p.deliveries + [Delivery(configs[|configs| - 1], m)];
        assert ds[..|ds| - 1] == p.deliveries;
      }
    }
  }

  /** The other direction of publishing, as written: an event that some
      subscription of the pass accepts and that was not sent before is
      published, for that subscription or an earlier one, under its id.
      When the due events have distinct ids, that is the event itself. */
  lemma EveryAcceptedEventDelivered(configs: seq<NewsAlert>, events: seq<NewsEvent>, t: AlertType,
                                    sent: set<string>, c: NewsAlert, e: NewsEvent)
    requires c in configs && e in events && Accepts(c, e) && Key(e, t) !in sent
    ensures var ds := RunConfigs(configs, events, t, sent).deliveries;
            exists k, e' :: 0 <= k < |ds| && e' in ds[k].events && e'.id == e.id
    ensures var ds := RunConfigs(configs, events, t, sent).deliveries;
            (forall i, j :: 0 <= i < j < |events| ==> events[i].id != events[j].id)
            ==> exists k :: 0 <= k < |ds| && e in ds[k].events
  {
    var p := RunConfigs(configs, events, t, sent);
    RunSaturates(configs, events, t, sent, c, p.sent);
    MatchingMember(c, events, t, p.sent, e);
    RunSentGrows(configs, events, t, sent);
    DeliveredKeysMember(p.deliveries, t, Key(e, t));
    var k, e' :| 0 <= k < |p.deliveries| && e' in p.deliveries[k].events && Key(e, t) == Key(e', t);
    KeyInjective(e, t, e', t);
    if forall i, j :: 0 <= i < j < |events| ==> events[i].id != events[j].id {
      DeliveriesMatch(configs, events, t, sent, k, e');
      var i :| 0 <= i < |events| && events[i] == e;
      var j :| 0 <= j < |events| && events[j] == e';
      assert i == j;
    }
  }

  /** The positions in `configs` of the subscriptions a pass publishes for,
      in publishing order. */
  function Publishers(configs: seq<NewsAlert>, events: seq<NewsEvent>, t: AlertType, sent: set<string>): seq<nat>
    decreases |configs|
  {
    if configs == [] then []
    else
      var init := configs[..|configs| - 1];
      var rest := Publishers(init, events, t, sent);
      if MatchingEvents(configs[|configs| - 1], events, t, RunConfigs(init, events, t, sent).sent) == [] then rest
      else rest + [|configs| - 1]
  }

  /** At most one message per subscription: message k comes from the
      subscription at position `Publishers(...)[k]`, and these positions
      strictly increase. */
  lemma {:induction false} DeliveriesFromDistinctConfigs(configs: seq<NewsAlert>, events: seq<NewsEvent>,
                                                          t: AlertType, sent: set<string>)
    ensures var ds := RunConfigs(configs, events, t, sent).deliveries;
            var ix := Publishers(configs, events, t, sent);
            |ix| == |ds|
            && (forall k :: 0 <= k < |ix| ==> ix[k] < |configs| && ds[k].config == configs[ix[k]])
            && (forall k1, k2 :: 0 <= k1 < k2 < |ix| ==> ix[k1] < ix[k2])
    decreases |configs|
  {
    if configs != [] {
      var init := configs[..|configs| - 1];
      DeliveriesFromDistinctConfigs(init, events, t, sent);
      var ix := Publishers(init, events, t, sent);
      assert forall k :: 0 <= k < |ix| ==> configs[ix[k]] == init[ix[k]];
    }
  }

  /** Every published message goes to one of the configurations, carries
      at least one event, and each of its events is due, accepted by that
      configuration and not sent before the pass. */
  lemma {:induction false} DeliveriesMatch(configs: seq<NewsAlert>, events: seq<NewsEvent>, t: AlertType,
                                            sent: set<string>, k: nat, e: NewsEvent)
    requires k < |RunConfigs(configs, events, t, sent).deliveries|
    ensures |RunConfigs(configs, events, t, sent).deliveries| <= |configs|
    ensures RunConfigs(configs, events, t, sent).deliveries[k].config in configs
    ensures RunConfigs(configs, events, t, sent).deliveries[k].events != []
    ensures e in RunConfigs(configs, events, t, sent).deliveries[k].events
            ==> e in events && Accepts(RunConfigs(configs, events, t, sent).deliveries[k].config, e)
                && Key(e, t) !in sent
    decreases |configs|
  {
    var init := configs[..|configs| - 1];
    var p := RunConfigs(init, events, t, sent);
    RunSentGrows(init, events, t, sent);
    if k < |p.deliveries| {
      DeliveriesMatch(init, events, t, sent, k, e);
    } else {
      if p.deliveries != [] {
        DeliveriesMatch(init, events, t, sent, 0, e);
      }
      MatchingMember(configs[|configs| - 1], events, t, p.sent, e);
    }
  }

  /** Once published, every event's key is in the set. */
  lemma {:induction false} DeliveriesMarked(configs: seq<NewsAlert>, events: seq<NewsEvent>, t: AlertType,
                                             sent: set<string>, k: nat, e: NewsEvent)
    requires k < |RunConfigs(configs, events, t, sent).deliveries|
    requires e in RunConfigs(configs, events, t, sent).deliveries[k].events
    ensures Key(e, t) in RunConfigs(configs, events, t, sent).sent
    decreases |configs|
  {
    var init := configs[..|configs| - 1];
    var p := RunConfigs(init, events, t, sent);
    if k < |p.deliveries| {
      DeliveriesMarked(init, events, t, sent, k, e);
    }
  }

  /** Within one pass an event id reaches at most one configuration: once
      published for a configuration its key hides it from the later ones. */
  lemma {:induction false} DeliveriesDisjoint(configs: seq<NewsAlert>, events: seq<NewsEvent>, t: AlertType,
                                               sent: set<string>, k1: nat, k2: nat, e1: NewsEvent, e2: NewsEvent)
    requires k1 < k2 < |RunConfigs(configs, events, t, sent).deliveries|
    requires e1 in RunConfigs(configs, events, t, sent).deliveries[k1].events
    requires e2 in RunConfigs(configs, events, t, sent).deliveries[k2].events
    ensures e1.id != e2.id
    decreases |configs|
  {
    var init := configs[..|configs| - 1];
    var p := RunConfigs(init, events, t, sent);
    if k2 < |p.deliveries| {
      DeliveriesDisjoint(init, events, t, sent, k1, k2, e1, e2);
    } else {
      DeliveriesMarked(init, events, t, sent, k1, e1);
      MatchingMember(configs[|configs| - 1], events, t, p.sent, e2);
      KeyInjective(e1, t, e2, t);
    }
  }

  /** After a pass, no configuration of the pass matches any event any more,
      whatever further keys are added. */
  lemma {:induction false} RunSaturates(configs: seq<NewsAlert>, events: seq<NewsEvent>, t: AlertType,
                                         sent: set<string>, c: NewsAlert, later: set<string>)
    requires c in configs
    requires RunConfigs(configs, events, t, sent).sent <= later
    ensures MatchingEvents(c, events, t, later) == []
    decreases |configs|
  {
    var init := configs[..|configs| - 1];
    var last := configs[|configs| - 1];
    var p := RunConfigs(init, events, t, sent);
    var m := MatchingEvents(last, events, t, p.sent);
    assert p.sent <= later;
    if c in init {
      RunSaturates(init, events, t, sent, c, later);
    } else if m == [] {
      MatchingMonotone(c, events, t, p.sent, later);
    } else {
      forall e | e in events
        ensures !Matches(c, e, t, later)
      {
        MatchingMember(last, events, t, p.sent, e);
      }
      MatchingEmpty(c, events, t, later);
    }
  }

  /** A pass in which no configuration matches publishes nothing. */
  lemma {:induction false} QuietRun(configs: seq<NewsAlert>, events: seq<NewsEvent>, t: AlertType, sent: set<string>)
    requires forall c :: c in configs ==> MatchingEvents(c, events, t, sent) == []
    ensures RunConfigs(configs, events, t, sent) == Pass([], sent)
    decreases |configs|
  {
    if configs != [] {
      QuietRun(configs[..|configs| - 1], events, t, sent);
    }
  }

  /** Running the loop again on the same events publishes nothing. */
  lemma SecondRunPublishesNothing(configs: seq<NewsAlert>, events: seq<NewsEvent>, t: AlertType, sent: set<string>)
    ensures var p := RunConfigs(configs, events, t, sent);
            RunConfigs(configs, events, t, p.sent) == Pass([], p.sent)
  {
    var p := RunConfigs(configs, events, t, sent);
    forall c | c in configs
      ensures MatchingEvents(c, events, t, p.sent) == []
    {
      RunSaturates(configs, events, t, sent, c, p.sent);
    }
    QuietRun(configs, events, t, p.sent);
  }

  /** A prefix of the configurations publishes a prefix of the messages. */
  lemma {:induction false} RunPrefix(configs: seq<NewsAlert>, events: seq<NewsEvent>, t: AlertType,
                                      sent: set<string>, i: nat)
    requires i <= |configs|
    ensures |RunConfigs(configs[..i], events, t, sent).deliveries| <= |RunConfigs(configs, events, t, sent).deliveries|
    decreases |configs|
  {
    if i < |configs| {
      var init := configs[..|configs| - 1];
      assert configs[..i] == init[..i];
      RunPrefix(init, events, t, sent, i);
    } else {
      assert configs[..i] == configs;
    }
  }

  // ---------------------------------------------------------------------
  // sendGroupedAlerts, cleanupSentAlerts

  /** `cleanupSentAlerts`: a full clear above the limit, nothing otherwise. */
  function Cleanup(sent: set<string>): set<string> {
    if |sent| > SentAlertsLimit then {} else sent
  }

  /** `sendGroupedAlerts(events, t)`. With no subscribed configuration it
      returns before the cleanup. When the broker has no channel, the first
      publish throws and the error is swallowed: nothing is published, no
      key is recorded and the cleanup is skipped; if no configuration
      matched, nothing was published and the cleanup runs. A failing
      configuration query is swallowed as well. */
  function GroupedSpec(sent: set<string>, alerts: seq<NewsAlert>, events: seq<NewsEvent>, t: AlertType,
                       channelOpen: bool, alertQueryThrows: bool): Pass
  {
    var configs := ConfigsFor(alerts, t);
    if alertQueryThrows || configs == [] then Pass([], sent)
    else
      var run := RunConfigs(configs, events, t, sent);
      if channelOpen then Pass(run.deliveries, Cleanup(run.sent))
      else if run.deliveries == [] then Pass([], Cleanup(sent))
      else Pass([], sent)
  }

  /** Calling `sendGroupedAlerts` twice with the same events and alert type
      publishes nothing the second time, unless the set was cleared in
      between. */
  lemma GroupedSecondCallSilent(sent: set<string>, alerts: seq<NewsAlert>, events: seq<NewsEvent>, t: AlertType)
    requires |RunConfigs(ConfigsFor(alerts, t), events, t, sent).sent| <= SentAlertsLimit
    ensures var g := GroupedSpec(sent, alerts, events, t, true, false);
            GroupedSpec(g.sent, alerts, events, t, true, false).deliveries == []
  {
    SecondRunPublishesNothing(ConfigsFor(alerts, t), events, t, sent);
  }

  /** The queue item of a grouped alert. */
  function Publication(d: Delivery, t: AlertType): GroupedAlert {
    GroupedAlert(ToItems(d.events), t.Name(), d.config.channelId, d.config.serverId, d.config.roleId)
  }

  /** The news items a grouped alert carries: the event's currency is the
      item's country. */
  function ToItems(events: seq<NewsEvent>): (r: seq<NewsItem>)
    ensures |r| == |events|
  {
    seq(|events|, k requires 0 <= k < |events| =>
      NewsItem(events[k].title, events[k].currency, events[k].impact, events[k].date,
               events[k].forecast, events[k].previous))
  }

  /** The messages appended to the `news_alerts` queue. */
  function Messages(ds: seq<Delivery>, t: AlertType): seq<Option<AlertMessage>>
    decreases |ds|
  {
    if ds == [] then [] else Messages(ds[..|ds| - 1], t) + [Some(GroupedAlertMessage(Publication(ds[|ds| - 1], t)))]
  }

  // ---------------------------------------------------------------------
  // The job

  /** Minute the clock is in: `startOf("minute")`. */
  function FloorMinute(now: int): int {
    now - now % 60
  }

  /** The time whose events get the five-minute alert. */
  function FiveMinuteTarget(now: int): int {
    FloorMinute(now + FiveMinutes)
  }

  /** The time whose events get the on-drop alert. */
  function DropTarget(now: int): int {
    FloorMinute(now)
  }

  /** Both targets are whole minutes, the on-drop target is the current
      minute and the five-minute target lies exactly five minutes later. */
  lemma TargetsAreMinutes(now: int)
    ensures DropTarget(now) % 60 == 0 && FiveMinuteTarget(now) % 60 == 0
    ensures DropTarget(now) <= now < DropTarget(now) + 60
    ensures FiveMinuteTarget(now) == DropTarget(now) + FiveMinutes
  {
  }

  /** `prisma.newsEvent.findMany({ where: { date: target } })`, in table order. */
  function EventsAt(table: seq<NewsEvent>, target: int): (r: seq<NewsEvent>)
    ensures |r| <= |table|
    decreases |table|
  {
    if table == [] then []
    else
      var rest := EventsAt(table[1..], target);
      if table[0].date == target then [table[0]] + rest else rest
  }

  /** The query returns exactly the stored events dated at the target:
      matching is equality with the stored date. */
  lemma {:induction false} EventsAtMember(table: seq<NewsEvent>, target: int, e: NewsEvent)
    ensures e in EventsAt(table, target) <==> e in table && e.date == target
    decreases |table|
  {
    if table != [] {
      EventsAtMember(table[1..], target, e);
      assert e in table <==> e == table[0] || e in table[1..];
    }
  }

  /** The database as the job sees it. */
  datatype Database = Database(
    events: seq<NewsEvent>,
    alerts: seq<NewsAlert>,
    eventQueryThrows: bool,
    alertQueryThrows: bool)

  /** One cadence: events due at `target`, and `sendGroupedAlerts` only when
      there are some. */
  function CadenceSpec(sent: set<string>, db: Database, target: int, t: AlertType, channelOpen: bool): Pass {
    var due := EventsAt(db.events, target);
    if due == [] then Pass([], sent)
    else GroupedSpec(sent, db.alerts, due, t, channelOpen, db.alertQueryThrows)
  }

  /** One more configuration is one more step of the loop. */
  lemma RunStep(configs: seq<NewsAlert>, events: seq<NewsEvent>, t: AlertType, sent: set<string>, i: nat)
    requires i < |configs|
    ensures RunConfigs(configs[..i + 1], events, t, sent)
         == Step(RunConfigs(configs[..i], events, t, sent), configs[i], events, t)
  {
    assert configs[..i + 1][..i] == configs[..i];
  }

  lemma MessagesAppend(ds: seq<Delivery>, d: Delivery, t: AlertType)
    ensures Messages(ds + [d], t) == Messages(ds, t) + [Some(GroupedAlertMessage(Publication(d, t)))]
  {
    assert (ds + [d])[..|ds|] == ds;
  }

  lemma KeysOfAppend(xs: seq<NewsEvent>, x: NewsEvent, t: AlertType)
    ensures KeysOf(xs + [x], t) == KeysOf(xs, t) + {Key(x, t)}
  {
    assert forall e :: e in xs + [x] <==> e in xs || e == x;
  }

  lemma KeysOfPrefix(xs: seq<NewsEvent>, j: nat, t: AlertType)
    requires j < |xs|
    ensures KeysOf(xs[..j + 1], t) == KeysOf(xs[..j], t) + {Key(xs[j], t)}
  {
    assert xs[..j + 1] == xs[..j] + [xs[j]];
    KeysOfAppend(xs[..j], xs[j], t);
  }

  /** Once some configuration matches, the whole pass has something to
      publish. */
  lemma ClosedChannelPublishesNothing(configs: seq<NewsAlert>, events: seq<NewsEvent>, t: AlertType,
                                      sent: set<string>, i: nat)
    requires i < |configs|
    requires RunConfigs(configs[..i], events, t, sent) == Pass([], sent)
    requires MatchingEvents(configs[i], events, t, sent) != []
    ensures RunConfigs(configs, events, t, sent).deliveries != []
  {
    RunStep(configs, events, t, sent, i);
    RunPrefix(configs, events, t, sent, i + 1);
  }

  /** `SendAlertsJob`: the in-memory dedup set and the broker it publishes to. */
  class SendAlertsJob {
    var sentAlerts: set<string>
    const broker: MessageBroker

    /** The constructor takes the broker from `getInstance`. */
    constructor (registry: BrokerRegistry)
      modifies registry
      ensures sentAlerts == {}
      ensures broker == registry.instance
      ensures old(registry.instance) != null ==> broker == old(registry.instance)
    {
      var b := registry.GetInstance();
      broker := b;
      sentAlerts := {};
    }

    /** `cleanupSentAlerts`. */
    method CleanupSentAlerts()
      modifies this
      ensures sentAlerts == Cleanup(old(sentAlerts))
    {
      if |sentAlerts| > SentAlertsLimit {
        sentAlerts := {};
      }
    }

    /** `sendGroupedAlerts(events, t)`: see `GroupedSpec`. */
    method SendGroupedAlerts(events: seq<NewsEvent>, t: AlertType, alerts: seq<NewsAlert>, alertQueryThrows: bool)
      modifies this, broker
      ensures var g := GroupedSpec(old(sentAlerts), alerts, events, t, old(broker.channelOpen), alertQueryThrows);
              sentAlerts == g.sent && broker.alertQueue == old(broker.alertQueue) + Messages(g.deliveries, t)
      ensures broker.scheduleQueue == old(broker.scheduleQueue) && broker.posts == old(broker.posts)
      ensures broker.connected == old(broker.connected) && broker.channelOpen == old(broker.channelOpen)
    {
      if alertQueryThrows {
        return;
      }
      var configs := ConfigsFor(alerts, t);
      if |configs| == 0 {
        return;
      }
      ghost var failedAt;
      var completed;
      completed, failedAt := PublishPerConfig(configs, events, t);
      if completed {
        CleanupSentAlerts();
      } else {
        ClosedChannelPublishesNothing(configs, events, t, old(sentAlerts), failedAt);
      }
    }

    /** The loop over configurations of `sendGroupedAlerts`. It stops at the
        first publish that throws, which happens when the broker has no
        channel; `failedAt` is then the configuration being published. */
    method PublishPerConfig(configs: seq<NewsAlert>, events: seq<NewsEvent>, t: AlertType)
      returns (completed: bool, ghost failedAt: nat)
      modifies this, broker
      ensures var run := RunConfigs(configs, events, t, old(sentAlerts));
              old(broker.channelOpen) ==>
                completed && sentAlerts == run.sent
                && broker.alertQueue == old(broker.alertQueue) + Messages(run.deliveries, t)
      ensures !old(broker.channelOpen) ==> sentAlerts == old(sentAlerts) && broker.alertQueue == old(broker.alertQueue)
      ensures !old(broker.channelOpen) && completed ==>
                RunConfigs(configs, events, t, old(sentAlerts)) == Pass([], old(sentAlerts))
      ensures !completed ==>
                failedAt < |configs|
                && RunConfigs(configs[..failedAt], events, t, old(sentAlerts)) == Pass([], old(sentAlerts))
                && MatchingEvents(configs[failedAt], events, t, old(sentAlerts)) != []
      ensures broker.scheduleQueue == old(broker.scheduleQueue) && broker.posts == old(broker.posts)
      ensures broker.connected == old(broker.connected) && broker.channelOpen == old(broker.channelOpen)
    {
      var i := 0;
      ghost var run := Pass([], sentAlerts);
      failedAt := 0;
      while i < |configs|
        invariant 0 <= i <= |configs|
        invariant run == RunConfigs(configs[..i], events, t, old(sentAlerts))
        invariant broker.scheduleQueue == old(broker.scheduleQueue) && broker.posts == old(broker.posts)
        invariant broker.connected == old(broker.connected) && broker.channelOpen == old(broker.channelOpen)
        invariant broker.channelOpen ==>
          sentAlerts == run.sent && broker.alertQueue == old(broker.alertQueue) + Messages(run.deliveries, t)
        invariant !broker.channelOpen ==>
          run == Pass([], old(sentAlerts)) && sentAlerts == old(sentAlerts) && broker.alertQueue == old(broker.alertQueue)
      {
        var config := configs[i];
        RunStep(configs, events, t, old(sentAlerts), i);
        var ok := PublishOne(config, events, t, run, old(broker.alertQueue));
        if !ok {
          failedAt := i;
          return false, failedAt;
        }
        run := Step(run, config, events, t);
        i := i + 1;
      }
      assert configs[..i] == configs;
      completed := true;
    }

    /** One iteration of the loop over configurations: match, publish the
        group if it is not empty, and record its keys. `p` is the pass so far
        and `q` the queue before the pass; the result is false exactly when
        the publish throws. */
    method PublishOne(config: NewsAlert, events: seq<NewsEvent>, t: AlertType, ghost p: Pass,
                      ghost q: seq<Option<AlertMessage>>)
      returns (ok: bool)
      requires broker.channelOpen ==> sentAlerts == p.sent && broker.alertQueue == q + Messages(p.deliveries, t)
      modifies this, broker
      ensures ok <==> old(broker.channelOpen) || MatchingEvents(config, events, t, old(sentAlerts)) == []
      ensures broker.channelOpen ==>
        sentAlerts == Step(p, config, events, t).sent
        && broker.alertQueue == q + Messages(Step(p, config, events, t).deliveries, t)
      ensures !broker.channelOpen ==> sentAlerts == old(sentAlerts) && broker.alertQueue == old(broker.alertQueue)
      ensures broker.scheduleQueue == old(broker.scheduleQueue) && broker.posts == old(broker.posts)
      ensures broker.connected == old(broker.connected) && broker.channelOpen == old(broker.channelOpen)
    {
      var matching := MatchingEvents(config, events, t, sentAlerts);
      ok := true;
      if |matching| > 0 {
        var d := Delivery(config, matching);
        var published := broker.PublishGroupedNewsAlert(Publication(d, t));
        if published.Err? {
          return false;
        }
        ghost var queued := broker.alertQueue;
        MessagesAppend(p.deliveries, d, t);
        MarkSent(matching, t);
        assert broker.alertQueue == queued;
        assert Step(p, config, events, t) == Pass(p.deliveries + [d], p.sent + KeysOf(matching, t));
        assert q + Messages(p.deliveries + [d], t)
            == (q + Messages(p.deliveries, t)) + [Some(GroupedAlertMessage(Publication(d, t)))];
      }
    }

    /** The loop that records the keys of the events just published. */
    method MarkSent(matching: seq<NewsEvent>, t: AlertType)
      modifies this
      ensures sentAlerts == old(sentAlerts) + KeysOf(matching, t)
    {
      var j := 0;
      while j < |matching|
        invariant 0 <= j <= |matching|
        invariant sentAlerts == old(sentAlerts) + KeysOf(matching[..j], t)
      {
        KeysOfPrefix(matching, j, t);
        sentAlerts := sentAlerts + {Key(matching[j], t)};
        j := j + 1;
      }
      assert matching[..j] == matching;
    }

    /** `sendFiveMinuteAlerts` and `sendOnNewsDropAlerts`: query the events
        at `target` (a failing query is passed on), then match them. */
    method SendDueAlerts(target: int, t: AlertType, db: Database) returns (r: Result<()>)
      modifies this, broker
      ensures r.Err? <==> db.eventQueryThrows
      ensures db.eventQueryThrows ==>
        sentAlerts == old(sentAlerts) && broker.alertQueue == old(broker.alertQueue)
      ensures !db.eventQueryThrows ==>
        var c := CadenceSpec(old(sentAlerts), db, target, t, old(broker.channelOpen));
        sentAlerts == c.sent && broker.alertQueue == old(broker.alertQueue) + Messages(c.deliveries, t)
      ensures broker.scheduleQueue == old(broker.scheduleQueue) && broker.posts == old(broker.posts)
      ensures broker.connected == old(broker.connected) && broker.channelOpen == old(broker.channelOpen)
    {
      if db.eventQueryThrows {
        return Err("event query failed");
      }
      var due := EventsAt(db.events, target);
      if |due| > 0 {
        SendGroupedAlerts(due, t, db.alerts, db.alertQueryThrows);
      }
      r := Ok(());
    }

    /** `execute`: the five-minute pass, then the on-drop pass; an error is
        rethrown. Each pass reads the clock and queries the database on its
        own, so the passes get their own time reading (`nowFive`, `nowDrop`)
        and their own view of the database (`first`, `second`). A failing
        event query in the first pass skips the second; one in the second
        pass leaves what the first pass published and recorded in place. */
    method Execute(nowFive: int, nowDrop: int, first: Database, second: Database) returns (r: Result<()>)
      modifies this, broker
      ensures r.Err? <==> first.eventQueryThrows || second.eventQueryThrows
      ensures first.eventQueryThrows ==>
        sentAlerts == old(sentAlerts) && broker.alertQueue == old(broker.alertQueue)
      ensures !first.eventQueryThrows ==>
        var five := CadenceSpec(old(sentAlerts), first, FiveMinuteTarget(nowFive), FiveMinutesBefore, old(broker.channelOpen));
        var drop := CadenceSpec(five.sent, second, DropTarget(nowDrop), OnNewsDrop, old(broker.channelOpen));
        (second.eventQueryThrows ==>
           sentAlerts == five.sent
           && broker.alertQueue == old(broker.alertQueue) + Messages(five.deliveries, FiveMinutesBefore))
        && (!second.eventQueryThrows ==>
           sentAlerts == drop.sent
           && broker.alertQueue == old(broker.alertQueue) + Messages(five.deliveries, FiveMinutesBefore)
                                   + Messages(drop.deliveries, OnNewsDrop))
      ensures broker.scheduleQueue == old(broker.scheduleQueue) && broker.posts == old(broker.posts)
      ensures broker.connected == old(broker.connected) && broker.channelOpen == old(broker.channelOpen)
    {
      r := SendDueAlerts(FiveMinuteTarget(nowFive), FiveMinutesBefore, first);
      if r.Err? {
        return;
      }
      r := SendDueAlerts(DropTarget(nowDrop), OnNewsDrop, second);
    }
  }

  // ---------------------------------------------------------------------
  // Every subscribed channel gets the event

  /** As written, two configurations that both accept every event, on two
      channels, share one due event: only the first channel gets it. */
  lemma SecondSubscriberMissesEvent(e: NewsEvent, c1: NewsAlert, c2: NewsAlert, t: AlertType)
    requires c1.currency == [] && c1.impact == [] && c2.currency == [] && c2.impact == []
    ensures RunConfigs([c1, c2], [e], t, {}).deliveries == [Delivery(c1, [e])]
  {
    assert [e][1..] == [];
    assert [c1][..0] == [];
    assert RunConfigs([c1][..0], [e], t, {}) == Pass([], {});
    var m1 := MatchingEvents(c1, [e], t, {});
    assert m1 == [e];
    var p := RunConfigs([c1], [e], t, {});
    assert p == Step(Pass([], {}), c1, [e], t);
    assert e in m1;
    assert Key(e, t) in KeysOf(m1, t);
    assert p == Pass([Delivery(c1, [e])], KeysOf(m1, t));
    assert MatchingEvents(c2, [e], t, p.sent) == [];
    assert [c1, c2][..1] == [c1];
    assert RunConfigs([c1, c2], [e], t, {}) == Step(p, c2, [e], t);
  }

  /** The loop with the dedup set applied once, before matching: every
      configuration sees every event not sent before the pass, and the keys
      of all published events are recorded. */
  function RunPerChannel(configs: seq<NewsAlert>, events: seq<NewsEvent>, t: AlertType, sent: set<string>): Pass
    decreases |configs|
  {
    if configs == [] then Pass([], sent)
    else
      var p := RunPerChannel(configs[..|configs| - 1], events, t, sent);
      var m := MatchingEvents(configs[|configs| - 1], events, t, sent);
      if m == [] then p else Pass(p.deliveries + [Delivery(configs[|configs| - 1], m)], p.sent + KeysOf(m, t))
  }

  /** With the correction, every configuration whose filter accepts an event
      not yet sent receives that event. */
  lemma {:induction false} EverySubscriberReached(configs: seq<NewsAlert>, events: seq<NewsEvent>, t: AlertType,
                                                   sent: set<string>, i: nat, e: NewsEvent)
    requires i < |configs|
    requires e in events && Accepts(configs[i], e) && Key(e, t) !in sent
    ensures exists k :: 0 <= k < |RunPerChannel(configs, events, t, sent).deliveries|
                        && RunPerChannel(configs, events, t, sent).deliveries[k].config == configs[i]
                        && e in RunPerChannel(configs, events, t, sent).deliveries[k].events
    decreases |configs|
  {
    var init := configs[..|configs| - 1];
    var p := RunPerChannel(init, events, t, sent);
    var ds := RunPerChannel(configs, events, t, sent).deliveries;
    if i == |configs| - 1 {
      MatchingMember(configs[i], events, t, sent, e);
      assert ds[|p.deliveries|].config == configs[i];
    } else {
      assert init[i] == configs[i];
      EverySubscriberReached(init, events, t, sent, i, e);
      var k :| 0 <= k < |p.deliveries| && p.deliveries[k].config == configs[i] && e in p.deliveries[k].events;
      assert ds[k] == p.deliveries[k];
    }
  }

  lemma {:induction false} PerChannelSentGrows(configs: seq<NewsAlert>, events: seq<NewsEvent>, t: AlertType,
                                                sent: set<string>)
    ensures sent <= RunPerChannel(configs, events, t, sent).sent
    decreases |configs|
  {
    if configs != [] {
      PerChannelSentGrows(configs[..|configs| - 1], events, t, sent);
    }
  }

  /** With the correction the pass still records every key it published. */
  lemma {:induction false} PerChannelMarked(configs: seq<NewsAlert>, events: seq<NewsEvent>, t: AlertType,
                                             sent: set<string>, c: NewsAlert, e: NewsEvent)
    requires c in configs
    requires e in MatchingEvents(c, events, t, sent)
    ensures Key(e, t) in RunPerChannel(configs, events, t, sent).sent
    decreases |configs|
  {
    var init := configs[..|configs| - 1];
    if c in init {
      PerChannelMarked(init, events, t, sent, c, e);
    }
  }

  lemma {:induction false} QuietPerChannel(configs: seq<NewsAlert>, events: seq<NewsEvent>, t: AlertType, sent: set<string>)
    requires forall c :: c in configs ==> MatchingEvents(c, events, t, sent) == []
    ensures RunPerChannel(configs, events, t, sent) == Pass([], sent)
    decreases |configs|
  {
    if configs != [] {
      QuietPerChannel(configs[..|configs| - 1], events, t, sent);
    }
  }

  /** With the correction, repeating the pass still publishes nothing. */
  lemma PerChannelSecondRunPublishesNothing(configs: seq<NewsAlert>, events: seq<NewsEvent>, t: AlertType,
                                            sent: set<string>)
    ensures var p := RunPerChannel(configs, events, t, sent);
            RunPerChannel(configs, events, t, p.sent) == Pass([], p.sent)
  {
    var p := RunPerChannel(configs, events, t, sent);
    forall c | c in configs
      ensures MatchingEvents(c, events, t, p.sent) == []
    {
      forall e | e in events
        ensures !Matches(c, e, t, p.sent)
      {
        PerChannelSentGrows(configs, events, t, sent);
        MatchingMember(c, events, t, sent, e);
        if Matches(c, e, t, sent) {
          PerChannelMarked(configs, events, t, sent, c, e);
        }
      }
      MatchingEmpty(c, events, t, p.sent);
    }
    QuietPerChannel(configs, events, t, p.sent);
  }
}
