/** The alert table and its repository (`PrismaNewsAlertRepository`). The
    table is a sequence of rows in storage order, so `findFirst` is the first
    match; ids are issued from a counter. */
module AlertRepository {
  import opened Common
  import opened Text
  import opened Domain

  /** The `where` clauses the repository uses. */
  datatype Query =
    | ById(id: string)
    | ByServer(serverId: string)
    | ByChannel(channelId: string)
    | ByServerAndChannel(serverId: string, channelId: string)

  predicate Selects(q: Query, a: NewsAlert) {
    match q
    case ById(id) => a.id == id
    case ByServer(s) => a.serverId == s
    case ByChannel(c) => a.channelId == c
    case ByServerAndChannel(s, c) => a.serverId == s && a.channelId == c
  }

  /** Position of the first row `q` selects, or `|alerts|` when none does. */
  function FindIndex(alerts: seq<NewsAlert>, q: Query): (i: nat)
    ensures i <= |alerts|
    ensures i < |alerts| ==> Selects(q, alerts[i])
    ensures forall j :: 0 <= j < i ==> !Selects(q, alerts[j])
    decreases |alerts|
  {
    if alerts == [] then 0
    else if Selects(q, alerts[0]) then 0
    else 1 + FindIndex(alerts[1..], q)
  }

  /** `findFirst` / `findUnique`: the first selected row, or null. */
  function FindFirst(alerts: seq<NewsAlert>, q: Query): (r: Option<NewsAlert>)
    ensures r.Some? ==> r.value in alerts && Selects(q, r.value)
    ensures r.None? <==> forall a :: a in alerts ==> !Selects(q, a)
  {
    var i := FindIndex(alerts, q);
    if i < |alerts| then Some(alerts[i]) else None
  }

  /** `findMany`: the selected rows, in storage order. */
  function FindMany(alerts: seq<NewsAlert>, q: Query): (r: seq<NewsAlert>)
    ensures |r| <= |alerts|
    ensures forall a :: a in r <==> a in alerts && Selects(q, a)
    decreases |alerts|
  {
    if alerts == [] then []
    else if Selects(q, alerts[0]) then [alerts[0]] + FindMany(alerts[1..], q)
    else FindMany(alerts[1..], q)
  }

  /** `delete` / `deleteMany`: the rows left, in storage order. Together
      with the selected rows they account for the whole table. */
  function Without(alerts: seq<NewsAlert>, q: Query): (r: seq<NewsAlert>)
    ensures forall a :: a in r <==> a in alerts && !Selects(q, a)
    ensures |r| + |FindMany(alerts, q)| == |alerts|
    decreases |alerts|
  {
    if alerts == [] then []
    else if Selects(q, alerts[0]) then Without(alerts[1..], q)
    else [alerts[0]] + Without(alerts[1..], q)
  }

  /** The create DTO: every column but `id` and `createdAt`. `roleId` is
      `None` when the DTO leaves the key out: a create then stores null,
      and an update leaves the column as it is. */
  datatype AlertData = AlertData(
    serverId: string,
    channelId: string,
    roleId: Option<string>,
    impact: seq<string>,
    currency: seq<string>,
    alertType: seq<string>)

  /** The update DTO: any subset of the columns (`roleId` may be set to null). */
  datatype AlertPatch = AlertPatch(
    serverId: Option<string>,
    channelId: Option<string>,
    roleId: Option<Option<string>>,
    impact: Option<seq<string>>,
    currency: Option<seq<string>>,
    alertType: Option<seq<string>>)

  function NewAlert(id: string, d: AlertData): NewsAlert {
    NewsAlert(id, d.serverId, d.channelId, d.roleId, d.impact, d.currency, d.alertType)
  }

  /** A create DTO passed as an update: every column it holds is set, and a
      left-out `roleId` stays out of the update. */
  function FullPatch(d: AlertData): AlertPatch {
    AlertPatch(Some(d.serverId), Some(d.channelId), if d.roleId.Some? then Some(d.roleId) else None,
               Some(d.impact), Some(d.currency), Some(d.alertType))
  }

  function Or<T>(o: Option<T>, otherwise: T): T {
    if o.Some? then o.value else otherwise
  }

  /** A row after an update: supplied columns replaced, the id kept. */
  function Patched(a: NewsAlert, p: AlertPatch): (r: NewsAlert)
    ensures r.id == a.id
  {
    NewsAlert(a.id, Or(p.serverId, a.serverId), Or(p.channelId, a.channelId), Or(p.roleId, a.roleId),
              Or(p.impact, a.impact), Or(p.currency, a.currency), Or(p.alertType, a.alertType))
  }

  /** Applying the full patch of a DTO gives the row that DTO creates,
      except that a row keeps its role when the DTO has none. */
  lemma FullPatchOverwrites(a: NewsAlert, d: AlertData)
    ensures Patched(a, FullPatch(d)) == NewAlert(a.id, d).(roleId := Patched(a, FullPatch(d)).roleId)
    ensures Patched(a, FullPatch(d)).roleId == if d.roleId.Some? then d.roleId else a.roleId
  {
  }

  /** `update({ where: { id } })`: every row with that id is patched. */
  function UpdateWhere(alerts: seq<NewsAlert>, id: string, p: AlertPatch): (r: seq<NewsAlert>)
    ensures |r| == |alerts|
    ensures forall i :: 0 <= i < |alerts| ==> r[i].id == alerts[i].id
  {
    seq(|alerts|, i requires 0 <= i < |alerts| => if alerts[i].id == id then Patched(alerts[i], p) else alerts[i])
  }

  predicate DistinctIds(alerts: seq<NewsAlert>) {
    forall i, j :: 0 <= i < j < |alerts| ==> alerts[i].id != alerts[j].id
  }

  /** The table's invariant: ids are distinct numbers below the counter. */
  predicate TableValid(alerts: seq<NewsAlert>, nextId: nat) {
    DistinctIds(alerts) && forall i :: 0 <= i < |alerts| ==> 0 <= DecimalValue(alerts[i].id) < nextId
  }

  /** With distinct ids, an id selects at most one row, so `delete` removes
      exactly one row when the id exists and none otherwise. */
  lemma {:induction false} DeleteRemovesOne(alerts: seq<NewsAlert>, id: string)
    requires DistinctIds(alerts)
    ensures |Without(alerts, ById(id))| == if FindFirst(alerts, ById(id)).Some? then |alerts| - 1 else |alerts|
    decreases |alerts|
  {
    if alerts != [] {
      var tail := alerts[1..];
      assert DistinctIds(tail) by {
        forall i, j | 0 <= i < j < |tail| ensures tail[i].id != tail[j].id {
          assert tail[i] == alerts[i + 1] && tail[j] == alerts[j + 1];
        }
      }
      DeleteRemovesOne(tail, id);
      if alerts[0].id == id {
        forall a | a in tail ensures a.id != id {
          var k :| 0 <= k < |tail| && tail[k] == a;
          assert alerts[k + 1] == a;
        }
        assert FindFirst(tail, ById(id)).None?;
      } else {
        assert FindFirst(alerts, ById(id)).Some? <==> FindFirst(tail, ById(id)).Some? by {
          forall a | a in alerts && a.id == id ensures a in tail {
            var k :| 0 <= k < |alerts| && alerts[k] == a;
            assert k != 0;
            assert tail[k - 1] == a;
          }
        }
      }
    }
  }

  /** Creating keeps the invariant: the new id is the counter. */
  lemma CreateValid(alerts: seq<NewsAlert>, nextId: nat, d: AlertData)
    requires TableValid(alerts, nextId)
    ensures TableValid(alerts + [NewAlert(NatToString(nextId), d)], nextId + 1)
  {
    var a := NewAlert(NatToString(nextId), d);
    DecimalRoundTrip(nextId);
    var r := alerts + [a];
    forall i | 0 <= i < |alerts| ensures r[i].id != a.id {
      assert DecimalValue(alerts[i].id) < nextId;
    }
  }

  /** Updating keeps the invariant: no id changes. */
  lemma UpdateValid(alerts: seq<NewsAlert>, nextId: nat, id: string, p: AlertPatch)
    requires TableValid(alerts, nextId)
    ensures TableValid(UpdateWhere(alerts, id, p), nextId)
  {
  }

  /** Deleting keeps the invariant: the rows left are rows of the table,
      in the same order. */
  lemma {:induction false} DeleteValid(alerts: seq<NewsAlert>, nextId: nat, q: Query)
    requires TableValid(alerts, nextId)
    ensures TableValid(Without(alerts, q), nextId)
    decreases |alerts|
  {
    if alerts != [] {
      var tail := alerts[1..];
      assert TableValid(tail, nextId) by {
        forall i, j | 0 <= i < j < |tail| ensures tail[i].id != tail[j].id {
          assert tail[i] == alerts[i + 1] && tail[j] == alerts[j + 1];
        }
        forall i | 0 <= i < |tail| ensures 0 <= DecimalValue(tail[i].id) < nextId {
          assert tail[i] == alerts[i + 1];
        }
      }
      DeleteValid(tail, nextId, q);
      var rest := Without(tail, q);
      if !Selects(q, alerts[0]) {
        var r := [alerts[0]] + rest;
        forall j | 0 <= j < |rest| ensures rest[j].id != alerts[0].id {
          assert rest[j] in tail;
          var k :| 0 <= k < |tail| && tail[k] == rest[j];
          assert alerts[k + 1] == rest[j];
        }
        forall i, j | 0 <= i < j < |r| ensures r[i].id != r[j].id {
          if i > 0 {
            assert r[i] == rest[i - 1] && r[j] == rest[j - 1];
          } else {
            assert r[j] == rest[j - 1];
          }
        }
        forall i | 0 <= i < |r| ensures 0 <= DecimalValue(r[i].id) < nextId {
          if i > 0 {
            assert r[i] == rest[i - 1];
          }
        }
      }
    }
  }

  class NewsAlertRepository {
    var alerts: seq<NewsAlert>
    var nextId: nat

    /** The table's invariant holds of the stored rows. */
    predicate Valid()
      reads this
    {
      TableValid(alerts, nextId)
    }

    constructor ()
      ensures alerts == [] && nextId == 0
      ensures Valid()
    {
      alerts := [];
      nextId := 0;
    }

    /** `findById`: the row with that id, or null. */
    function FindById(id: string): (r: Option<NewsAlert>)
      reads this
      ensures r.Some? ==> r.value in alerts && r.value.id == id
      ensures r.None? <==> forall a :: a in alerts ==> a.id != id
    {
      FindFirst(alerts, ById(id))
    }

    /** `findByServerId`: exactly the rows of that server, in order. */
    function FindByServerId(serverId: string): (r: seq<NewsAlert>)
      reads this
      ensures forall a :: a in r <==> a in alerts && a.serverId == serverId
    {
      FindMany(alerts, ByServer(serverId))
    }

    /** `findByChannelId`: the first row on that channel, whatever its server. */
    function FindByChannelId(channelId: string): (r: Option<NewsAlert>)
      reads this
      ensures r.Some? ==> r.value in alerts && r.value.channelId == channelId
      ensures r.None? <==> forall a :: a in alerts ==> a.channelId != channelId
    {
      FindFirst(alerts, ByChannel(channelId))
    }

    /** `findByServerIdAndChannelId`: the first row matching both, or null. */
    function FindByServerIdAndChannelId(serverId: string, channelId: string): (r: Option<NewsAlert>)
      reads this
      ensures r.Some? ==> r.value in alerts && r.value.serverId == serverId && r.value.channelId == channelId
      ensures r.None? <==> forall a :: a in alerts ==> !(a.serverId == serverId && a.channelId == channelId)
    {
      FindFirst(alerts, ByServerAndChannel(serverId, channelId))
    }

    /** `findAll`. */
    function FindAll(): seq<NewsAlert>
      reads this
    {
      alerts
    }

    /** `create`: append a row under a fresh id. */
    method Create(d: AlertData) returns (a: NewsAlert)
      requires Valid()
      modifies this
      ensures a == NewAlert(NatToString(old(nextId)), d)
      ensures alerts == old(alerts) + [a] && nextId == old(nextId) + 1
      ensures Valid()
    {
      CreateValid(alerts, nextId, d);
      a := NewAlert(NatToString(nextId), d);
      alerts := alerts + [a];
      nextId := nextId + 1;
    }

    /** `update`: patch the row with that id; an unknown id throws and
        changes nothing. */
    method Update(id: string, p: AlertPatch) returns (r: Result<NewsAlert>)
      requires Valid()
      modifies this
      ensures r.Err? <==> old(FindById(id)).None?
      ensures r.Ok? ==> r.value == Patched(old(FindById(id)).value, p)
      ensures alerts == (if r.Ok? then UpdateWhere(old(alerts), id, p) else old(alerts))
      ensures nextId == old(nextId)
      ensures Valid()
    {
      UpdateValid(alerts, nextId, id, p);
      var existing := FindById(id);
      if existing.None? {
        return Err("Record to update not found");
      }
      alerts := UpdateWhere(alerts, id, p);
      r := Ok(Patched(existing.value, p));
    }

    /** `delete`: remove the row with that id; an unknown id throws and
        changes nothing. */
    method Delete(id: string) returns (r: Result<()>)
      requires Valid()
      modifies this
      ensures r.Err? <==> old(FindById(id)).None?
      ensures alerts == (if r.Ok? then Without(old(alerts), ById(id)) else old(alerts))
      ensures nextId == old(nextId)
      ensures Valid()
    {
      DeleteValid(alerts, nextId, ById(id));
      if FindById(id).None? {
        return Err("Record to delete does not exist");
      }
      alerts := Without(alerts, ById(id));
      r := Ok(());
    }

    /** `deleteMany({ where: { serverId } })`, returning the count removed. */
    method DeleteMany(serverId: string) returns (count: nat)
      requires Valid()
      modifies this
      ensures alerts == Without(old(alerts), ByServer(serverId)) && nextId == old(nextId)
      ensures count == |FindMany(old(alerts), ByServer(serverId))| == |old(alerts)| - |alerts|
      ensures Valid()
    {
      DeleteValid(alerts, nextId, ByServer(serverId));
      count := |FindMany(alerts, ByServer(serverId))|;
      alerts := Without(alerts, ByServer(serverId));
    }
  }
}
