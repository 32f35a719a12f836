/** The `/list-alerts` command: the listing embed, the delete buttons and
    the button collector, which deletes the clicked alert, lists again and
    redraws. The collector's state (the current list, what the message
    shows, whether it still collects) is a class; the alert service is the
    one of `AlertService`, its thrown errors are parameters. */
module ListAlerts {
  import opened Common
  import opened Text
  import opened Domain
  import opened AlertRepository
  import opened AlertService
  import opened AlertLabels
  import opened DeleteButtons

  const Prefix := "delete_alert_"

  const NotInServer := "This command can only be used in a server."
  const NeedAdmin := "You need Administrator permissions to use this command."
  const NoAlerts := "No news alerts found for this server. Use `/create-alert` to create one."
  const NotYours := "You cannot delete alerts from someone else's list."
  const AllDeleted := "\U{2705} Alert deleted! No alerts remaining for this server."
  const Deleted := "\U{2705} Alert deleted successfully!"
  const DeleteFailedNotice := "\U{274C} Failed to delete alert. Please try again."

  /** The shorter alert-type labels of the listing. */
  function ListTypeLabel(name: string): string {
    if name == FiveMinutesBefore.Name() then "5 min before"
    else if name == OnNewsDrop.Name() then "On drop"
    else name
  }

  function ListTypeLabels(names: seq<string>): (r: seq<string>)
    ensures |r| == |names|
    ensures forall k :: 0 <= k < |r| ==> r[k] == ListTypeLabel(names[k])
  {
    seq(|names|, k requires 0 <= k < |names| => ListTypeLabel(names[k]))
  }

  /** The field of one alert: its channel as the name, four lines of
      filters, types and id as the value. */
  function AlertField(a: NewsAlert): (f: Field)
    ensures f.name == "Alert for <#" + a.channelId + ">" && !f.inline
  {
    Field("Alert for <#" + a.channelId + ">",
          Join(["**Impact:** " + ListOrAll(a.impact),
                "**Currency:** " + ListOrAll(a.currency),
                "**Alert Types:** " + Join(ListTypeLabels(a.alertType), ", "),
                "**ID:** `" + a.id + "`"], "\n"),
          false)
  }

  /** `guildName || 'Server'`. */
  function GuildTitle(guildName: Option<string>): string {
    if guildName.Some? && guildName.value != "" then guildName.value else "Server"
  }

  /** `buildAlertsEmbed`: one field per alert, in order, and the total in
      the description. The embed has no footer. */
  function AlertsEmbed(alerts: seq<NewsAlert>, guildName: Option<string>): (e: Embed)
    ensures e.description == "Total alerts: " + NatToString(|alerts|)
    ensures |e.fields| == |alerts|
    ensures forall k :: 0 <= k < |alerts| ==> e.fields[k] == AlertField(alerts[k])
  {
    Embed(0x0099FF, "News Alerts for " + GuildTitle(guildName), "Total alerts: " + NatToString(|alerts|),
          seq(|alerts|, k requires 0 <= k < |alerts| => AlertField(alerts[k])), "")
  }

  /** The ids of a list of alerts, in order. */
  function Ids(alerts: seq<NewsAlert>): (r: seq<string>)
    ensures |r| == |alerts|
    ensures forall k :: 0 <= k < |r| ==> r[k] == alerts[k].id
  {
    seq(|alerts|, k requires 0 <= k < |alerts| => alerts[k].id)
  }

  /** Every button shown for a listing deletes the alert it is numbered
      for: button `k` of the rows carries alert `k`'s id. */
  lemma ButtonDeletesItsAlert(alerts: seq<NewsAlert>, i: nat, j: nat)
    requires i < |Rows(Prefix, Ids(alerts))| && j < |Rows(Prefix, Ids(alerts))[i]|
    ensures var k := RowSize * i + j;
      k < |alerts| && Rows(Prefix, Ids(alerts))[i][j].text == Label(k + 1)
      && IdFromCustomId(Prefix, Rows(Prefix, Ids(alerts))[i][j].customId) == alerts[k].id
  {
    ButtonLeadsToItem(Prefix, Ids(alerts), i, j);
  }

  /** What the command's message shows. */
  datatype View = View(content: Option<string>, embed: Option<Embed>, components: seq<seq<Button>>)

  /** The message after a failed delete, as written: the embed and rows of
      the first listing, whatever was deleted since. */
  function FailureView(firstEmbed: Embed, firstRows: seq<seq<Button>>): View {
    View(Some(DeleteFailedNotice), Some(firstEmbed), firstRows)
  }

  /** The message after the last alert is deleted, as written: the reply
      clears embed and buttons and stops the collector, whose `end` handler
      then puts back the rows of the first listing, disabled. */
  function AfterLastDelete(firstRows: seq<seq<Button>>): View {
    View(Some(AllDeleted), None, Disabled(firstRows))
  }

  /** The discrepancy: with one alert listed, deleting it leaves a
      disabled "Delete #1" button for the alert that no longer exists. */
  lemma LastDeleteLeavesStaleButton(a: NewsAlert)
    ensures var v := AfterLastDelete(Rows(Prefix, [a.id]));
      |v.components| == 1 && v.components[0] == [Button(Prefix + a.id, Label(1), true)]
  {
    var rows := Rows(Prefix, [a.id]);
    assert RowCount(1) == 1;
    assert |rows[0]| == 1;
  }

  /** The collector's `end` as evidently intended: disable the buttons the
      message shows now. */
  function EndView(v: View): View {
    v.(components := Disabled(v.components))
  }

  /** With that `end`, the last delete leaves no button, and in general no
      button appears that the message did not already show. */
  lemma EndViewShowsOnlyCurrent(v: View)
    ensures v.components == [] ==> EndView(v).components == []
    ensures forall i, j :: 0 <= i < |EndView(v).components| && 0 <= j < |EndView(v).components[i]| ==>
      EndView(v).components[i][j].customId == v.components[i][j].customId
      && EndView(v).components[i][j].disabled
  {
  }

  datatype Request = Request(inGuild: bool, isAdmin: bool, userId: string, serverId: string, guildName: Option<string>)

  datatype Reply = Ephemeral(content: string) | Shown(view: View)

  /** The state of one listing while its collector runs. */
  class ListAlertsSession {
    const svc: NewsAlertService
    const invoker: string
    const serverId: string
    const guildName: Option<string>
    const firstEmbed: Embed
    const firstRows: seq<seq<Button>>
    var alerts: seq<NewsAlert>
    var view: View
    var collecting: bool

    constructor (svc: NewsAlertService, invoker: string, serverId: string, guildName: Option<string>,
                 alerts: seq<NewsAlert>)
      ensures this.svc == svc && this.invoker == invoker && this.serverId == serverId && this.guildName == guildName
      ensures this.alerts == alerts && collecting
      ensures firstEmbed == AlertsEmbed(alerts, guildName) && firstRows == Rows(Prefix, Ids(alerts))
      ensures view == View(None, Some(firstEmbed), firstRows)
    {
      var rows := BuildRows(Prefix, Ids(alerts));
      this.svc := svc;
      this.invoker := invoker;
      this.serverId := serverId;
      this.guildName := guildName;
      this.alerts := alerts;
      firstEmbed := AlertsEmbed(alerts, guildName);
      firstRows := rows;
      view := View(None, Some(AlertsEmbed(alerts, guildName)), rows);
      collecting := true;
    }

    /** A click on a delete button. Another user's click is refused and
        changes nothing; the invoker's click deletes the alert whose id the
        button carries, lists the server's alerts again and redraws, or
        shows the failure notice over the first listing. */
    method Collect(userId: string, customId: string, deleteThrows: bool, listThrows: bool)
      returns (ephemeral: Option<string>)
      requires svc.repo.Valid()
      modifies this, svc.repo
      ensures svc.repo.Valid()
      ensures !old(collecting) || userId != invoker ==>
        ephemeral == (if old(collecting) then Some(NotYours) else None)
        && svc.repo.alerts == old(svc.repo.alerts) && alerts == old(alerts)
        && view == old(view) && collecting == old(collecting)
      ensures old(collecting) && userId == invoker ==>
        var id := IdFromCustomId(Prefix, customId);
        var deleted := !deleteThrows && old(svc.repo.FindById(id)).Some?;
        ephemeral.None?
        && svc.repo.alerts == (if deleted then Without(old(svc.repo.alerts), ById(id)) else old(svc.repo.alerts))
        && (!deleted || listThrows ==>
              view == FailureView(firstEmbed, firstRows) && alerts == old(alerts) && collecting)
        && (deleted && !listThrows ==>
              (forall a :: a in alerts <==> a in svc.repo.alerts && a.serverId == serverId)
              && (alerts == [] ==> view == AfterLastDelete(firstRows) && !collecting)
              && (alerts != [] ==>
                    view == View(Some(Deleted), Some(AlertsEmbed(alerts, guildName)), Rows(Prefix, Ids(alerts)))
                    && collecting))
      ensures svc.repo.nextId == old(svc.repo.nextId)
    {
      if !collecting {
        return None;
      }
      if userId != invoker {
        return Some(NotYours);
      }
      ephemeral := None;
      var id := IdFromCustomId(Prefix, customId);
      var deleted := svc.DeleteNewsAlert(id, deleteThrows);
      if deleted.Err? {
        view := FailureView(firstEmbed, firstRows);
        return;
      }
      var listed := svc.ListNewsAlertsForServer(serverId, listThrows);
      if listed.Err? {
        view := FailureView(firstEmbed, firstRows);
        return;
      }
      alerts := listed.value;
      if |alerts| == 0 {
        view := View(Some(AllDeleted), None, []);
        collecting := false;
        End();
        return;
      }
      var rows := BuildRows(Prefix, Ids(alerts));
      view := View(Some(Deleted), Some(AlertsEmbed(alerts, guildName)), rows);
    }

    /** The collector's `end` handler, as written: the rows of the first
        listing, disabled, replace whatever buttons the message shows. */
    method End()
      modifies this
      ensures view == old(view).(components := Disabled(firstRows))
      ensures alerts == old(alerts) && collecting == old(collecting)
    {
      view := view.(components := Disabled(firstRows));
    }
  }

  /** `execute`: the guards, the first listing, and the session that
      collects the clicks when there is something to list. */
  method Execute(svc: NewsAlertService, req: Request, listThrows: bool)
    returns (reply: Reply, session: ListAlertsSession?)
    ensures !req.inGuild ==> reply == Ephemeral(NotInServer) && session == null
    ensures req.inGuild && !req.isAdmin ==> reply == Ephemeral(NeedAdmin) && session == null
    ensures req.inGuild && req.isAdmin && listThrows ==>
      reply == Shown(View(Some("Failed to list alerts: " + ListFailed), None, [])) && session == null
    ensures req.inGuild && req.isAdmin && !listThrows ==>
      ((forall a :: a in svc.repo.alerts ==> a.serverId != req.serverId) <==> session == null)
      && (session == null ==> reply == Shown(View(Some(NoAlerts), None, [])))
    ensures session != null ==>
      fresh(session) && session.svc == svc && session.invoker == req.userId && session.serverId == req.serverId
      && session.collecting && reply == Shown(session.view)
      && (forall a :: a in session.alerts <==> a in svc.repo.alerts && a.serverId == req.serverId)
      && session.view == View(None, Some(AlertsEmbed(session.alerts, req.guildName)), Rows(Prefix, Ids(session.alerts)))
  {
    session := null;
    if !req.inGuild {
      return Ephemeral(NotInServer), session;
    }
    if !req.isAdmin {
      return Ephemeral(NeedAdmin), session;
    }
    var listed := svc.ListNewsAlertsForServer(req.serverId, listThrows);
    if listed.Err? {
      return Shown(View(Some("Failed to list alerts: " + listed.message), None, [])), session;
    }
    if |listed.value| == 0 {
      return Shown(View(Some(NoAlerts), None, [])), session;
    }
    assert listed.value[0] in listed.value;
    session := new ListAlertsSession(svc, req.userId, req.serverId, req.guildName, listed.value);
    reply := Shown(session.view);
  }
}
