/** The alert subscription service (`NewsAlertService`) over three tables:
    servers (a set of guild ids), channels (rows in storage order, looked up
    by `channelId` with the first match winning) and the alert table. Every
    database call that may throw is an oracle parameter: `fault` names the
    step of `createNewsAlert` whose call throws, `throws` says that a call of
    the simpler operations throws. */
module AlertService {
  import opened Common
  import opened Text
  import opened Domain
  import opened AlertRepository

  /** A channel row (`DiscordChannel`). */
  datatype Channel = Channel(channelId: string, serverId: string)

  /** The channel repository's `findByChannelId`: the first row with that id. */
  function FirstChannel(channels: seq<Channel>, channelId: string): (r: Option<Channel>)
    ensures r.Some? ==> r.value in channels && r.value.channelId == channelId
    ensures r.None? <==> forall c :: c in channels ==> c.channelId != channelId
    decreases |channels|
  {
    if channels == [] then None
    else if channels[0].channelId == channelId then Some(channels[0])
    else FirstChannel(channels[1..], channelId)
  }

  /** `_checkChannelExists`: the channel found by id counts only when it
      belongs to the given server. */
  function CheckChannelExists(channels: seq<Channel>, channelId: string, serverId: string): (r: Option<Channel>)
    ensures r.Some? <==> FirstChannel(channels, channelId).Some? && FirstChannel(channels, channelId).value.serverId == serverId
    ensures r.Some? ==> r.value == Channel(channelId, serverId) && r.value in channels
  {
    var c := FirstChannel(channels, channelId);
    if c.Some? && c.value.serverId == serverId then c else None
  }

  /** At most one alert per (server, channel) pair. */
  predicate OnePerChannel(alerts: seq<NewsAlert>) {
    forall i, j :: 0 <= i < j < |alerts| ==>
      !(alerts[i].serverId == alerts[j].serverId && alerts[i].channelId == alerts[j].channelId)
  }

  /** The alert table after the alert step of `createNewsAlert`, and the
      alert it returns. */
  datatype Upsert = Upsert(alerts: seq<NewsAlert>, nextId: nat, alert: NewsAlert)

  /** The alert step of `createNewsAlert`: an alert already on the pair is
      updated with the whole DTO; otherwise a new one is created. */
  function UpsertAlert(alerts: seq<NewsAlert>, nextId: nat, d: AlertData): Upsert {
    var existing := FindFirst(alerts, ByServerAndChannel(d.serverId, d.channelId));
    if existing.Some? then
      Upsert(UpdateWhere(alerts, existing.value.id, FullPatch(d)), nextId, Patched(existing.value, FullPatch(d)))
    else
      Upsert(alerts + [NewAlert(NatToString(nextId), d)], nextId + 1, NewAlert(NatToString(nextId), d))
  }

  /** The alert step keeps ids valid and never makes a second alert for a
      pair: the returned alert carries the DTO's columns, sits in the
      table, and the table still has at most one alert per pair. An alert
      already on the pair keeps its id, and its role when the DTO has none;
      a new alert has the DTO's role. */
  lemma UpsertAlertKeepsOnePerChannel(alerts: seq<NewsAlert>, nextId: nat, d: AlertData)
    requires TableValid(alerts, nextId) && OnePerChannel(alerts)
    ensures var u := UpsertAlert(alerts, nextId, d);
            var e := FindFirst(alerts, ByServerAndChannel(d.serverId, d.channelId));
            TableValid(u.alerts, u.nextId) && OnePerChannel(u.alerts)
            && u.alert in u.alerts
            && u.alert == NewAlert(u.alert.id, d).(roleId := u.alert.roleId)
            && u.alert.roleId == (if e.Some? && d.roleId.None? then e.value.roleId else d.roleId)
            && (e.Some? ==> u.alert.id == e.value.id)
            && |u.alerts| == (if e.Some? then |alerts| else |alerts| + 1)
  {
    var u := UpsertAlert(alerts, nextId, d);
    var q := ByServerAndChannel(d.serverId, d.channelId);
    var existing := FindFirst(alerts, q);
    if existing.Some? {
      var e := existing.value;
      FullPatchOverwrites(e, d);
      UpdateValid(alerts, nextId, e.id, FullPatch(d));
      var k :| 0 <= k < |alerts| && alerts[k] == e;
      forall i | 0 <= i < |alerts|
        ensures u.alerts[i].serverId == alerts[i].serverId && u.alerts[i].channelId == alerts[i].channelId
      {
        if alerts[i].id == e.id {
          assert i == k;
        }
      }
      assert u.alerts[k] == u.alert;
    } else {
      CreateValid(alerts, nextId, d);
      forall i | 0 <= i < |alerts|
        ensures !(alerts[i].serverId == d.serverId && alerts[i].channelId == d.channelId)
      {
        assert alerts[i] in alerts;
      }
      assert u.alerts[|alerts|] == u.alert;
    }
  }

  /** The steps of `createNewsAlert` that call the database, in order. */
  datatype CreateStep = ServerLookup | ServerCreate | ChannelLookup | ChannelCreate | AlertLookup | AlertWrite {
    function Rank(): nat {
      match this
      case ServerLookup => 0
      case ServerCreate => 1
      case ChannelLookup => 2
      case ChannelCreate => 3
      case AlertLookup => 4
      case AlertWrite => 5
    }
  }

  /** The failing step, if its call is made at all: the create calls are
      skipped when the server or channel already exists. */
  function Effective(fault: Option<CreateStep>, servers: set<string>, channels: seq<Channel>, d: AlertData)
    : Option<CreateStep>
  {
    if fault == Some(ServerCreate) && d.serverId in servers then None
    else if fault == Some(ChannelCreate) && CheckChannelExists(channels, d.channelId, d.serverId).Some? then None
    else fault
  }

  /** The run gets as far as `step`: nothing before it throws. */
  predicate Reaches(f: Option<CreateStep>, step: CreateStep) {
    f.None? || f.value.Rank() >= step.Rank()
  }

  const CreateFailed := "Failed to create news alert"
  const UpdateFailed := "Failed to update news alert"
  const DeleteFailed := "Failed to delete news alert"
  const DeleteAllFailed := "Failed to delete all news alerts"
  const ListFailed := "Failed to list news alerts"

  class NewsAlertService {
    const repo: NewsAlertRepository
    var servers: set<string>
    var channels: seq<Channel>

    constructor (repo: NewsAlertRepository)
      ensures this.repo == repo && servers == {} && channels == []
    {
      this.repo := repo;
      servers := {};
      channels := [];
    }

    /** `createNewsAlert`: make sure the server and the channel rows exist,
        then update the pair's alert or create one. Any thrown error becomes
        the generic create failure; steps before it keep their effect. */
    method CreateNewsAlert(d: AlertData, fault: Option<CreateStep>) returns (r: Result<NewsAlert>)
      requires repo.Valid()
      modifies this, repo
      ensures var f := Effective(fault, old(servers), old(channels), d);
        (r.Err? <==> f.Some?) && (r.Err? ==> r.message == CreateFailed)
        && servers == (if Reaches(f, ChannelLookup) then old(servers) + {d.serverId} else old(servers))
        && channels == (if Reaches(f, AlertLookup) && CheckChannelExists(old(channels), d.channelId, d.serverId).None?
                        then old(channels) + [Channel(d.channelId, d.serverId)] else old(channels))
      ensures var u := UpsertAlert(old(repo.alerts), old(repo.nextId), d);
        if r.Ok? then repo.alerts == u.alerts && repo.nextId == u.nextId && r.value == u.alert
        else repo.alerts == old(repo.alerts) && repo.nextId == old(repo.nextId)
      ensures repo.Valid()
      ensures OnePerChannel(old(repo.alerts)) ==> OnePerChannel(repo.alerts)
    {
      var serverOk := EnsureServer(d.serverId, fault);
      if !serverOk {
        return Err(CreateFailed);
      }
      var channelOk := EnsureChannel(d.channelId, d.serverId, fault);
      if !channelOk {
        return Err(CreateFailed);
      }
      if fault == Some(AlertLookup) {
        return Err(CreateFailed);
      }
      assert fault.Some? ==> fault.value.ServerCreate? || fault.value.ChannelCreate? || fault.value.AlertWrite?;
      if OnePerChannel(repo.alerts) {
        UpsertAlertKeepsOnePerChannel(repo.alerts, repo.nextId, d);
      }
      r := UpsertNewsAlert(d, fault == Some(AlertWrite));
    }

    /** The server step: `_checkServerExists`, then create the row if missing. */
    method EnsureServer(serverId: string, fault: Option<CreateStep>) returns (ok: bool)
      modifies this
      ensures ok <==> !(fault == Some(ServerLookup) || (fault == Some(ServerCreate) && serverId !in old(servers)))
      ensures servers == (if ok then old(servers) + {serverId} else old(servers))
      ensures channels == old(channels)
    {
      if fault == Some(ServerLookup) {
        return false;
      }
      if serverId !in servers {
        if fault == Some(ServerCreate) {
          return false;
        }
        servers := servers + {serverId};
      }
      ok := true;
    }

    /** The channel step: `_checkChannelExists`, then create the row if the
        check finds none. */
    method EnsureChannel(channelId: string, serverId: string, fault: Option<CreateStep>) returns (ok: bool)
      modifies this
      ensures var found := CheckChannelExists(old(channels), channelId, serverId);
        (ok <==> !(fault == Some(ChannelLookup) || (fault == Some(ChannelCreate) && found.None?)))
        && channels == (if ok && found.None? then old(channels) + [Channel(channelId, serverId)] else old(channels))
      ensures servers == old(servers)
    {
      if fault == Some(ChannelLookup) {
        return false;
      }
      var channel := CheckChannelExists(channels, channelId, serverId);
      if channel.None? {
        if fault == Some(ChannelCreate) {
          return false;
        }
        channels := channels + [Channel(channelId, serverId)];
      }
      ok := true;
    }

    /** The alert step: update the pair's alert with the whole request, or
        create one; a throwing write changes nothing. */
    method UpsertNewsAlert(d: AlertData, writeThrows: bool) returns (r: Result<NewsAlert>)
      requires repo.Valid()
      modifies repo
      ensures r.Err? <==> writeThrows
      ensures r.Err? ==> r.message == CreateFailed
      ensures var u := UpsertAlert(old(repo.alerts), old(repo.nextId), d);
        if r.Ok? then repo.alerts == u.alerts && repo.nextId == u.nextId && r.value == u.alert
        else repo.alerts == old(repo.alerts) && repo.nextId == old(repo.nextId)
      ensures repo.Valid()
    {
      var existing := repo.FindByServerIdAndChannelId(d.serverId, d.channelId);
      if existing.Some? {
        FullPatchOverwrites(existing.value, d);
        FullPatchOverwrites(repo.FindById(existing.value.id).value, d);
        var updated := UpdateNewsAlert(existing.value.id, FullPatch(d), writeThrows);
        if updated.Err? {
          return Err(CreateFailed);
        }
        return Ok(updated.value);
      }
      if writeThrows {
        return Err(CreateFailed);
      }
      var created := repo.Create(d);
      r := Ok(created);
    }

    /** `updateNewsAlert`: an unknown id or a thrown error gives the generic
        update failure and changes nothing. */
    method UpdateNewsAlert(id: string, p: AlertPatch, throws: bool) returns (r: Result<NewsAlert>)
      requires repo.Valid()
      modifies repo
      ensures r.Err? <==> throws || old(repo.FindById(id)).None?
      ensures r.Err? ==> r.message == UpdateFailed && repo.alerts == old(repo.alerts)
      ensures r.Ok? ==>
        repo.alerts == UpdateWhere(old(repo.alerts), id, p) && r.value == Patched(old(repo.FindById(id)).value, p)
      ensures repo.nextId == old(repo.nextId)
      ensures repo.Valid()
    {
      if throws {
        return Err(UpdateFailed);
      }
      var existing := repo.FindById(id);
      if existing.None? {
        return Err(UpdateFailed);
      }
      var updated := repo.Update(id, p);
      if updated.Err? {
        return Err(UpdateFailed);
      }
      r := Ok(updated.value);
    }

    /** `deleteNewsAlert`: removes the alert with that id and returns what
        it held; an unknown id or a thrown error gives the generic delete
        failure and changes nothing. */
    method DeleteNewsAlert(id: string, throws: bool) returns (r: Result<NewsAlert>)
      requires repo.Valid()
      modifies repo
      ensures r.Err? <==> throws || old(repo.FindById(id)).None?
      ensures r.Err? ==> r.message == DeleteFailed && repo.alerts == old(repo.alerts)
      ensures r.Ok? ==> r.value == old(repo.FindById(id)).value && repo.alerts == Without(old(repo.alerts), ById(id))
      ensures repo.nextId == old(repo.nextId)
      ensures repo.Valid()
    {
      if throws {
        return Err(DeleteFailed);
      }
      var existing := repo.FindById(id);
      if existing.None? {
        return Err(DeleteFailed);
      }
      var deleted := repo.Delete(id);
      if deleted.Err? {
        return Err(DeleteFailed);
      }
      r := Ok(existing.value);
    }

    /** `deleteAllNewsAlertsForServer`: the repository's count of removed rows. */
    method DeleteAllNewsAlertsForServer(serverId: string, throws: bool) returns (r: Result<nat>)
      requires repo.Valid()
      modifies repo
      ensures r.Err? <==> throws
      ensures r.Err? ==> r.message == DeleteAllFailed && repo.alerts == old(repo.alerts)
      ensures r.Ok? ==>
        repo.alerts == Without(old(repo.alerts), ByServer(serverId))
        && r.value == |old(repo.alerts)| - |repo.alerts|
      ensures repo.nextId == old(repo.nextId)
      ensures repo.Valid()
    {
      if throws {
        return Err(DeleteAllFailed);
      }
      var count := repo.DeleteMany(serverId);
      r := Ok(count);
    }

    /** `listNewsAlertsForServer`: exactly the server's alerts. */
    method ListNewsAlertsForServer(serverId: string, throws: bool) returns (r: Result<seq<NewsAlert>>)
      ensures r.Err? <==> throws
      ensures r.Err? ==> r.message == ListFailed
      ensures r.Ok? ==> forall a :: a in r.value <==> a in repo.alerts && a.serverId == serverId
    {
      if throws {
        return Err(ListFailed);
      }
      r := Ok(repo.FindByServerId(serverId));
    }

    /** `getNewsAlertByChannelId`: the first alert on the channel, any server. */
    method GetNewsAlertByChannelId(channelId: string, throws: bool) returns (r: Result<Option<NewsAlert>>)
      ensures r.Err? <==> throws
      ensures r.Err? ==> r.message == "Failed to get news alert by channel " + channelId
      ensures r.Ok? && r.value.Some? ==> r.value.value in repo.alerts && r.value.value.channelId == channelId
      ensures r.Ok? && r.value.None? ==> forall a :: a in repo.alerts ==> a.channelId != channelId
    {
      if throws {
        return Err("Failed to get news alert by channel " + channelId);
      }
      r := Ok(repo.FindByChannelId(channelId));
    }
  }

  /** A successful create leaves a table with one alert per pair when it had
      one before, and the returned alert carries the request. */
  lemma CreateNeverDuplicatesPair(alerts: seq<NewsAlert>, nextId: nat, d: AlertData)
    requires TableValid(alerts, nextId) && OnePerChannel(alerts)
    ensures var u := UpsertAlert(alerts, nextId, d);
            OnePerChannel(u.alerts)
            && |FindMany(u.alerts, ByServerAndChannel(d.serverId, d.channelId))| == 1
  {
    var u := UpsertAlert(alerts, nextId, d);
    UpsertAlertKeepsOnePerChannel(alerts, nextId, d);
    PairSelectsOne(u.alerts, u.alert);
  }

  /** In a table with one alert per pair, a present alert's pair selects
      exactly that one row. */
  lemma {:induction false} PairSelectsOne(alerts: seq<NewsAlert>, a: NewsAlert)
    requires OnePerChannel(alerts) && a in alerts
    ensures |FindMany(alerts, ByServerAndChannel(a.serverId, a.channelId))| == 1
    decreases |alerts|
  {
    var q := ByServerAndChannel(a.serverId, a.channelId);
    var tail := alerts[1..];
    assert OnePerChannel(tail) by {
      forall i, j | 0 <= i < j < |tail|
        ensures !(tail[i].serverId == tail[j].serverId && tail[i].channelId == tail[j].channelId)
      {
        assert tail[i] == alerts[i + 1] && tail[j] == alerts[j + 1];
      }
    }
    if Selects(q, alerts[0]) {
      forall b | b in tail ensures !Selects(q, b) {
        var k :| 0 <= k < |tail| && tail[k] == b;
        assert alerts[k + 1] == b;
      }
      assert FindMany(tail, q) == [] by {
        if FindMany(tail, q) != [] {
          assert FindMany(tail, q)[0] in FindMany(tail, q);
        }
      }
    } else {
      assert a in tail by {
        var k :| 0 <= k < |alerts| && alerts[k] == a;
        assert k != 0;
        assert tail[k - 1] == a;
      }
      PairSelectsOne(tail, a);
    }
  }
}
