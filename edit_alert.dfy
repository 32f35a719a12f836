/** The `/edit-alert` command: the guild and administrator guards, the
    partial update built from the options that were supplied, the rejection
    of an empty update, and the reply. The valid impact and currency names
    are parameters. */
module EditAlert {
  import opened Common
  import opened Domain
  import opened EnumParse
  import opened AlertRepository
  import opened AlertService
  import opened AlertLabels

  /** What the command reads from the interaction; an option not supplied
      is `None`. */
  datatype Request = Request(
    inGuild: bool,
    isAdmin: bool,
    alertId: string,
    impact: Option<string>,
    currency: Option<string>,
    alertType: Option<string>)

  const NotInServer := "This command can only be used in a server."
  const NeedAdmin := "You need Administrator permissions to use this command."
  const NoField := "Please provide at least one field to update (impact, currency, or alert_type)."

  const AlertTypeNames: seq<string> := [FiveMinutesBefore.Name(), OnNewsDrop.Name()]

  /** The parsed value of an option, only when it was supplied. */
  function ParsedIfGiven(option: Option<string>, valid: seq<string>): Option<seq<string>> {
    if option.Some? then Some(ParseEnumArray(option, valid)) else None
  }

  /** The update the options describe: a field for each supplied option,
      nothing else. */
  function UpdateFor(req: Request, impacts: seq<string>, currencies: seq<string>): AlertPatch {
    AlertPatch(None, None, None,
               ParsedIfGiven(req.impact, impacts),
               ParsedIfGiven(req.currency, currencies),
               ParsedIfGiven(req.alertType, AlertTypeNames))
  }

  /** `Object.keys(updateData).length === 0`. */
  predicate IsEmpty(p: AlertPatch) {
    p.serverId.None? && p.channelId.None? && p.roleId.None?
    && p.impact.None? && p.currency.None? && p.alertType.None?
  }

  /** The update has a key exactly for each supplied option, holding that
      option's parsed values (possibly none); server, channel and role are
      never touched, and the update is empty iff no option was supplied. */
  lemma UpdateHasOnlySuppliedKeys(req: Request, impacts: seq<string>, currencies: seq<string>)
    ensures var p := UpdateFor(req, impacts, currencies);
      p.serverId.None? && p.channelId.None? && p.roleId.None?
      && (p.impact.Some? <==> req.impact.Some?)
      && (p.currency.Some? <==> req.currency.Some?)
      && (p.alertType.Some? <==> req.alertType.Some?)
      && (p.impact.Some? ==> forall k :: 0 <= k < |p.impact.value| ==> p.impact.value[k] in impacts)
      && (p.currency.Some? ==> forall k :: 0 <= k < |p.currency.value| ==> p.currency.value[k] in currencies)
      && (p.alertType.Some? ==> forall k :: 0 <= k < |p.alertType.value| ==> p.alertType.value[k] in AlertTypeNames)
      && (IsEmpty(p) <==> req.impact.None? && req.currency.None? && req.alertType.None?)
  {
  }

  /** An applied update replaces exactly the supplied filters: a supplied
      option naming no valid value clears that filter to [] (which for the
      alert types means the alert no longer fires), and the rest of the
      alert is kept. */
  lemma AppliedUpdate(a: NewsAlert, req: Request, impacts: seq<string>, currencies: seq<string>)
    ensures var r := Patched(a, UpdateFor(req, impacts, currencies));
      r.id == a.id && r.serverId == a.serverId && r.channelId == a.channelId && r.roleId == a.roleId
      && r.impact == (if req.impact.Some? then ParseEnumArray(req.impact, impacts) else a.impact)
      && r.currency == (if req.currency.Some? then ParseEnumArray(req.currency, currencies) else a.currency)
      && r.alertType == (if req.alertType.Some? then ParseEnumArray(req.alertType, AlertTypeNames) else a.alertType)
  {
  }

  /** The building of `updateData`: a key is added under each supplied
      option, one `if` at a time. */
  method BuildAlertUpdate(req: Request, impacts: seq<string>, currencies: seq<string>) returns (p: AlertPatch)
    ensures p == UpdateFor(req, impacts, currencies)
  {
    p := AlertPatch(None, None, None, None, None, None);
    if req.impact.Some? {
      p := p.(impact := Some(ParseEnumArray(req.impact, impacts)));
    }
    if req.currency.Some? {
      p := p.(currency := Some(ParseEnumArray(req.currency, currencies)));
    }
    if req.alertType.Some? {
      p := p.(alertType := Some(ParseEnumArray(req.alertType, AlertTypeNames)));
    }
  }

  /** The reply to an applied update. */
  function UpdatedEmbed(a: NewsAlert): (e: Embed)
    ensures e.fields == AlertFields(a) && e.footer == "Alert ID: " + a.id
  {
    Embed(0xFFA500, "\U{270F}\U{FE0F} Alert Updated",
          "News alert has been updated for <#" + a.channelId + ">", AlertFields(a), "Alert ID: " + a.id)
  }

  datatype Reply = Ephemeral(content: string) | Updated(embed: Embed) | Failure(content: string)

  /** The message of a request the guards or the empty-update check stop,
      or `None` when the service is called. */
  function Rejection(req: Request, impacts: seq<string>, currencies: seq<string>): (r: Option<string>)
    ensures !req.inGuild ==> r == Some(NotInServer)
    ensures req.inGuild && !req.isAdmin ==> r == Some(NeedAdmin)
    ensures req.inGuild && req.isAdmin ==>
      (r == Some(NoField) <==> req.impact.None? && req.currency.None? && req.alertType.None?)
    ensures r.None? <==> req.inGuild && req.isAdmin && !(req.impact.None? && req.currency.None? && req.alertType.None?)
  {
    if !req.inGuild then Some(NotInServer)
    else if !req.isAdmin then Some(NeedAdmin)
    else if IsEmpty(UpdateFor(req, impacts, currencies)) then Some(NoField)
    else None
  }

  /** `execute`: a stopped request changes nothing; otherwise the service
      applies the update to the alert with that id (whatever server it
      belongs to) and the reply shows the updated alert, or the service's
      error when the id is unknown or the update throws. */
  method Execute(svc: NewsAlertService, req: Request, impacts: seq<string>, currencies: seq<string>, throws: bool)
    returns (reply: Reply)
    requires svc.repo.Valid()
    modifies svc.repo
    ensures svc.repo.Valid()
    ensures var stop := Rejection(req, impacts, currencies);
      stop.Some? ==> reply == Ephemeral(stop.value) && svc.repo.alerts == old(svc.repo.alerts)
    ensures Rejection(req, impacts, currencies).None? ==>
      var p := UpdateFor(req, impacts, currencies);
      (reply.Updated? <==> !throws && old(svc.repo.FindById(req.alertId)).Some?)
      && (reply.Updated? ==>
            svc.repo.alerts == UpdateWhere(old(svc.repo.alerts), req.alertId, p)
            && reply.embed == UpdatedEmbed(Patched(old(svc.repo.FindById(req.alertId)).value, p)))
      && (!reply.Updated? ==>
            reply == Failure("Failed to edit alert: " + UpdateFailed) && svc.repo.alerts == old(svc.repo.alerts))
    ensures svc.repo.nextId == old(svc.repo.nextId)
  {
    if !req.inGuild {
      return Ephemeral(NotInServer);
    }
    if !req.isAdmin {
      return Ephemeral(NeedAdmin);
    }
    var p := BuildAlertUpdate(req, impacts, currencies);
    if IsEmpty(p) {
      return Ephemeral(NoField);
    }
    var updated := svc.UpdateNewsAlert(req.alertId, p, throws);
    if updated.Err? {
      return Failure("Failed to edit alert: " + updated.message);
    }
    reply := Updated(UpdatedEmbed(updated.value));
  }
}
