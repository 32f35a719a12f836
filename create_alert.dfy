/** The `/create-alert` command: guards, option parsing with the alert-type
    default, the service call for the invoking channel, and the confirmation
    embed. The valid impact and currency names are parameters. */
module CreateAlert {
  import opened Common
  import opened Domain
  import opened EnumParse
  import opened AlertRepository
  import opened AlertService
  import opened AlertLabels

  /** The channel types the guard distinguishes. */
  datatype ChannelKind = GuildText | GuildAnnouncement | OtherChannel

  /** What the command reads from the interaction: string options are
      `None` when not supplied. */
  datatype Request = Request(
    inGuild: bool,
    serverId: string,
    channelId: string,
    channelType: Option<ChannelKind>,
    isAdmin: bool,
    impact: Option<string>,
    currency: Option<string>,
    alertType: Option<string>)

  const NotInServer := "This command can only be used in a server."
  const WrongChannel := "This command can only be used in a text or announcement channel."
  const NeedAdmin := "You need Administrator permissions to use this command."

  /** The alert-type names of the `AlertType` enum. */
  const AlertTypeNames: seq<string> := [FiveMinutesBefore.Name(), OnNewsDrop.Name()]

  predicate TextLike(t: Option<ChannelKind>) {
    t == Some(GuildText) || t == Some(GuildAnnouncement)
  }

  /** The parsed alert types, or both cadences when none is valid. */
  function AlertTypesOrBoth(parsed: seq<string>): (r: seq<string>)
    ensures |r| >= 1
    ensures parsed != [] ==> r == parsed
  {
    if |parsed| > 0 then parsed else AlertTypeNames
  }

  datatype Decision = Reject(message: string) | Create(data: AlertData)

  /** The guards in order (server, channel type, administrator), then the
      request the service receives: the interaction's own server and
      channel, and the parsed lists, an empty list meaning "all". */
  function Decide(req: Request, impacts: seq<string>, currencies: seq<string>): (d: Decision)
    ensures d.Create? <==> req.inGuild && TextLike(req.channelType) && req.isAdmin
    ensures !req.inGuild ==> d == Reject(NotInServer)
    ensures req.inGuild && !TextLike(req.channelType) ==> d == Reject(WrongChannel)
    ensures req.inGuild && TextLike(req.channelType) && !req.isAdmin ==> d == Reject(NeedAdmin)
    ensures d.Create? ==>
      d.data.serverId == req.serverId && d.data.channelId == req.channelId && d.data.roleId.None?
      && |d.data.alertType| >= 1
      && (forall k :: 0 <= k < |d.data.alertType| ==> d.data.alertType[k] in AlertTypeNames)
      && (forall k :: 0 <= k < |d.data.impact| ==> d.data.impact[k] in impacts)
      && (forall k :: 0 <= k < |d.data.currency| ==> d.data.currency[k] in currencies)
  {
    if !req.inGuild then Reject(NotInServer)
    else if !TextLike(req.channelType) then Reject(WrongChannel)
    else if !req.isAdmin then Reject(NeedAdmin)
    else
      Create(AlertData(
        req.serverId, req.channelId, None,
        ParseEnumArray(req.impact, impacts),
        ParseEnumArray(req.currency, currencies),
        AlertTypesOrBoth(ParseEnumArray(req.alertType, AlertTypeNames))))
  }

  /** Without an alert-type option (or with one naming no valid type) the
      alert gets both cadences; without impact or currency options it
      accepts all of them. */
  lemma MissingOptionsMeanAll(req: Request, impacts: seq<string>, currencies: seq<string>)
    requires req.inGuild && TextLike(req.channelType) && req.isAdmin
    requires req.impact.None? && req.currency.None?
    requires req.alertType.None? || ParseEnumArray(req.alertType, AlertTypeNames) == []
    ensures Decide(req, impacts, currencies).data.alertType == [FiveMinutesBefore.Name(), OnNewsDrop.Name()]
    ensures Decide(req, impacts, currencies).data.impact == [] && Decide(req, impacts, currencies).data.currency == []
  {
  }

  /** Running the command again for a channel that already has an alert
      replaces its settings but keeps the role that alert carries, since the
      command never sends a role; in a table with one alert per channel the
      alert keeps its id and no second row appears. */
  lemma RepeatedCreateKeepsRole(req: Request, impacts: seq<string>, currencies: seq<string>,
                                alerts: seq<NewsAlert>, nextId: nat)
    requires Decide(req, impacts, currencies).Create?
    requires TableValid(alerts, nextId) && OnePerChannel(alerts)
    requires FindFirst(alerts, ByServerAndChannel(req.serverId, req.channelId)).Some?
    ensures var e := FindFirst(alerts, ByServerAndChannel(req.serverId, req.channelId)).value;
      var u := UpsertAlert(alerts, nextId, Decide(req, impacts, currencies).data);
      u.alert.roleId == e.roleId && u.alert.id == e.id && |u.alerts| == |alerts|
  {
    UpsertAlertKeepsOnePerChannel(alerts, nextId, Decide(req, impacts, currencies).data);
  }

  /** The confirmation embed. */
  function ConfirmationEmbed(a: NewsAlert): (e: Embed)
    ensures e.fields == AlertFields(a)
    ensures e.footer == "Alert ID: " + a.id
  {
    Embed(0x00FF00, "\U{2705} Alert Created Successfully",
          "News alert has been configured for <#" + a.channelId + ">", AlertFields(a), "Alert ID: " + a.id)
  }

  datatype Reply = Ephemeral(content: string) | Confirmation(embed: Embed) | Failure(content: string)

  /** `execute`: a rejected request changes nothing; otherwise the service
      creates or updates the channel's alert, and the reply confirms it or
      reports the service's error. */
  method Execute(svc: NewsAlertService, req: Request, impacts: seq<string>, currencies: seq<string>,
                 fault: Option<CreateStep>)
    returns (reply: Reply)
    requires svc.repo.Valid()
    modifies svc, svc.repo
    ensures svc.repo.Valid()
    ensures var d := Decide(req, impacts, currencies);
      d.Reject? ==>
        reply == Ephemeral(d.message) && svc.repo.alerts == old(svc.repo.alerts)
        && svc.servers == old(svc.servers) && svc.channels == old(svc.channels)
    ensures var d := Decide(req, impacts, currencies);
      d.Create? ==>
        var u := UpsertAlert(old(svc.repo.alerts), old(svc.repo.nextId), d.data);
        (reply.Confirmation? <==> Effective(fault, old(svc.servers), old(svc.channels), d.data).None?)
        && (reply.Confirmation? ==> svc.repo.alerts == u.alerts && reply.embed == ConfirmationEmbed(u.alert))
        && (!reply.Confirmation? ==>
              reply == Failure("Failed to create alert: " + CreateFailed) && svc.repo.alerts == old(svc.repo.alerts))
  {
    var d := Decide(req, impacts, currencies);
    if d.Reject? {
      return Ephemeral(d.message);
    }
    var created := svc.CreateNewsAlert(d.data, fault);
    if created.Err? {
      return Failure("Failed to create alert: " + created.message);
    }
    reply := Confirmation(ConfirmationEmbed(created.value));
  }
}
