/** The `/edit-schedule` command: the guards, the not-found check, the
    bot's permission check on the schedule's channel, the partial update
    built from the supplied options, and the reply. The schedule service is
    not part of this model: its lookup is a parameter and its `editSchedule`
    is a function parameter that receives the built update. */
module EditSchedule {
  import opened Common
  import opened Text
  import opened Domain
  import opened EnumParse

  /** The string options the command reads by name, with the two numeric
      ones apart; an option not supplied is absent. */
  datatype Request = Request(
    inGuild: bool,
    isAdmin: bool,
    scheduleId: string,
    hour: Option<int>,
    minute: Option<int>,
    options: map<string, string>)

  /** A value of the update object. */
  datatype UpdateValue = Number(n: int) | Raw(s: string) | List(items: seq<string>)

  /** The update object, keyed by field name. */
  type Update = map<string, UpdateValue>

  /** The fields read in the `forEach`, in order. */
  const Fields: seq<string> := ["timezone", "newsscope", "frequency", "impact", "currency", "market"]

  /** The value stored for a supplied field: impact and currency are
      parsed into enum lists, the others are kept raw. */
  function FieldValue(field: string, value: string, impacts: seq<string>, currencies: seq<string>): (v: UpdateValue)
    ensures field == "impact" ==> v == List(ParseEnumArray(Some(value), impacts))
    ensures field == "currency" ==> v == List(ParseEnumArray(Some(value), currencies))
    ensures field != "impact" && field != "currency" ==> v == Raw(value)
  {
    if field == "impact" || field == "currency" then
      List(ParseEnumArray(Some(value), if field == "impact" then impacts else currencies))
    else Raw(value)
  }

  /** `u` is the update the request describes: hour and minute when
      supplied, each listed field when supplied, nothing else. */
  predicate Describes(u: Update, req: Request, impacts: seq<string>, currencies: seq<string>) {
    && ("hour" in u <==> req.hour.Some?)
    && ("hour" in u ==> u["hour"] == Number(req.hour.value))
    && ("minute" in u <==> req.minute.Some?)
    && ("minute" in u ==> u["minute"] == Number(req.minute.value))
    && (forall f :: f in Fields ==> (f in u <==> f in req.options))
    && (forall f :: f in Fields && f in u && f in req.options ==>
          u[f] == FieldValue(f, req.options[f], impacts, currencies))
    && (forall f :: f in u ==> f == "hour" || f == "minute" || f in Fields)
  }

  /** A request describes exactly one update. */
  lemma DescribesUnique(u: Update, w: Update, req: Request, impacts: seq<string>, currencies: seq<string>)
    requires Describes(u, req, impacts, currencies) && Describes(w, req, impacts, currencies)
    ensures u == w
  {
    assert u.Keys == w.Keys;
  }

  /** The building of `updateData`: hour and minute, then the `forEach`
      over the fields. */
  method BuildScheduleUpdate(req: Request, impacts: seq<string>, currencies: seq<string>) returns (u: Update)
    ensures Describes(u, req, impacts, currencies)
  {
    u := map[];
    if req.hour.Some? {
      u := u["hour" := Number(req.hour.value)];
    }
    if req.minute.Some? {
      u := u["minute" := Number(req.minute.value)];
    }
    for i := 0 to |Fields|
      invariant ("hour" in u <==> req.hour.Some?) && ("hour" in u ==> u["hour"] == Number(req.hour.value))
      invariant ("minute" in u <==> req.minute.Some?) && ("minute" in u ==> u["minute"] == Number(req.minute.value))
      invariant forall k :: 0 <= k < i ==> (Fields[k] in u <==> Fields[k] in req.options)
      invariant forall k :: 0 <= k < i && Fields[k] in u && Fields[k] in req.options ==>
                  u[Fields[k]] == FieldValue(Fields[k], req.options[Fields[k]], impacts, currencies)
      invariant forall f :: f in u ==> f == "hour" || f == "minute" || f in Fields[..i]
    {
      var field := Fields[i];
      if field in req.options {
        u := u[field := FieldValue(field, req.options[field], impacts, currencies)];
      }
    }
  }

  /** The permissions the bot needs in the schedule's channel. */
  datatype Permission = ViewChannel | SendMessages | EmbedLinks

  const Required: seq<Permission> := [ViewChannel, SendMessages, EmbedLinks]

  lemma RequiredIsEvery()
    ensures forall p: Permission :: p in Required
  {
    forall p: Permission ensures p in Required {
      assert Required[Rank(p)] == p;
    }
  }

  function Rank(p: Permission): nat {
    match p
    case ViewChannel => 0
    case SendMessages => 1
    case EmbedLinks => 2
  }

  /** The `filter` over the required permissions: those not granted, in
      their order. */
  function MissingFrom(required: seq<Permission>, granted: set<Permission>): (r: seq<Permission>)
    ensures forall p :: p in r <==> p in required && p !in granted
    ensures |r| <= |required|
    decreases |required|
  {
    if required == [] then []
    else (if required[0] in granted then [] else [required[0]]) + MissingFrom(required[1..], granted)
  }

  predicate Ordered(ps: seq<Permission>) {
    forall i, j :: 0 <= i < j < |ps| ==> Rank(ps[i]) < Rank(ps[j])
  }

  /** The missing permissions keep the order of the required list. */
  lemma {:induction false} MissingInOrder(required: seq<Permission>, granted: set<Permission>)
    requires Ordered(required)
    ensures Ordered(MissingFrom(required, granted))
    decreases |required|
  {
    if required != [] {
      var tail := required[1..];
      assert Ordered(tail) by {
        forall i, j | 0 <= i < j < |tail| ensures Rank(tail[i]) < Rank(tail[j]) {
          assert tail[i] == required[i + 1] && tail[j] == required[j + 1];
        }
      }
      MissingInOrder(tail, granted);
      var rest := MissingFrom(tail, granted);
      if required[0] !in granted {
        forall p | p in rest ensures Rank(required[0]) < Rank(p) {
          var k :| 0 <= k < |tail| && tail[k] == p;
          assert required[k + 1] == p;
        }
        PrependOrdered(required[0], rest);
      }
    }
  }

  lemma PrependOrdered(p: Permission, ps: seq<Permission>)
    requires Ordered(ps)
    requires forall q :: q in ps ==> Rank(p) < Rank(q)
    ensures Ordered([p] + ps)
  {
    var r := [p] + ps;
    forall i, j | 0 <= i < j < |r| ensures Rank(r[i]) < Rank(r[j]) {
      assert r[j] == ps[j - 1] && r[j] in ps;
      if i > 0 {
        assert r[i] == ps[i - 1];
      }
    }
  }

  /** What the permission check finds: the fetch threw, the channel is
      missing or not text-based, or a text channel where the bot's
      permissions are known (`Some`) or not resolvable (`None`). */
  datatype ChannelCheck = FetchThrows | NotText | TextChannel(granted: Option<set<Permission>>)

  /** The permissions that stop the edit. A failed fetch and a non-text
      channel stop nothing; unresolvable permissions count as all missing. */
  function Missing(check: ChannelCheck): (r: seq<Permission>)
    ensures check.FetchThrows? || check.NotText? ==> r == []
    ensures check.TextChannel? && check.granted.None? ==> r == Required
    ensures check.TextChannel? && check.granted.Some? ==>
      forall p :: p in r <==> p !in check.granted.value
    ensures Ordered(r)
  {
    match check
    case FetchThrows => []
    case NotText => []
    case TextChannel(granted) =>
      if granted.Some? then
        RequiredIsEvery();
        MissingInOrder(Required, granted.value);
        MissingFrom(Required, granted.value)
      else Required
  }

  function PermissionName(p: Permission): string {
    match p
    case ViewChannel => "\U{1F441}\U{FE0F} View Channel"
    case SendMessages => "\U{1F4AC} Send Messages"
    case EmbedLinks => "\U{1F517} Embed Links"
  }

  function Bullets(ps: seq<Permission>): (r: seq<string>)
    ensures |r| == |ps|
    ensures forall k :: 0 <= k < |ps| ==> r[k] == "> " + PermissionName(ps[k])
  {
    seq(|ps|, k requires 0 <= k < |ps| => "> " + PermissionName(ps[k]))
  }

  function MissingMessage(channelId: string, missing: seq<Permission>): string {
    "### \U{274C} Missing Permissions\n\nI need the following permissions in <#" + channelId
    + "> to send scheduled news:\n\n" + Join(Bullets(missing), "\n")
    + "\n\n*Please enable these permissions and try again.*"
  }

  const NotInServer := "This command can only be used in a server."
  const NeedAdmin := "You need Administrator permissions to use this command."
  const NotFound := "\U{274C} Schedule not found."
  const MergeNotice := "A schedule with this time already existed. The schedules have been merged."

  /** What `editSchedule` returns. */
  datatype EditResult = EditResult(schedule: Schedule, merged: bool)

  /** A reply: the guards answer at once; everything after the deferred
      reply edits it, with a text, the confirmation embed of a schedule,
      or both. */
  datatype Reply = Ephemeral(content: string) | EditReply(text: Option<string>, shown: Option<Schedule>)

  /** `execute`. `lookup` is what `getScheduleById` gives (or the error it
      throws), `check` what the permission check finds, and `edit` stands
      for `editSchedule`. The service is called, with the id and the update
      the options describe, exactly when the guards pass, the schedule
      exists and no permission is missing. */
  method Execute(req: Request, impacts: seq<string>, currencies: seq<string>,
                 lookup: Result<Option<Schedule>>, check: ChannelCheck,
                 edit: (string, Update) -> Result<EditResult>)
    returns (reply: Reply, called: Option<Update>)
    ensures called.Some? <==>
      req.inGuild && req.isAdmin && lookup.Ok? && lookup.value.Some? && Missing(check) == []
    ensures called.Some? ==> Describes(called.value, req, impacts, currencies)
    ensures called.Some? && edit(req.scheduleId, called.value).Ok? ==>
      var r := edit(req.scheduleId, called.value).value;
      reply == EditReply(if r.merged then Some(MergeNotice) else None, Some(r.schedule))
    ensures called.Some? && edit(req.scheduleId, called.value).Err? ==>
      reply == EditReply(Some("Failed to edit schedule: " + edit(req.scheduleId, called.value).message), None)
    ensures !req.inGuild ==> reply == Ephemeral(NotInServer)
    ensures req.inGuild && !req.isAdmin ==> reply == Ephemeral(NeedAdmin)
    ensures req.inGuild && req.isAdmin && lookup.Err? ==>
      reply == EditReply(Some("Failed to edit schedule: " + lookup.message), None)
    ensures req.inGuild && req.isAdmin && lookup == Ok(None) ==> reply == EditReply(Some(NotFound), None)
    ensures req.inGuild && req.isAdmin && lookup.Ok? && lookup.value.Some? && Missing(check) != [] ==>
      reply == EditReply(Some(MissingMessage(lookup.value.value.channelId, Missing(check))), None)
  {
    called := None;
    if !req.inGuild {
      return Ephemeral(NotInServer), called;
    }
    if !req.isAdmin {
      return Ephemeral(NeedAdmin), called;
    }
    if lookup.Err? {
      return EditReply(Some("Failed to edit schedule: " + lookup.message), None), called;
    }
    if lookup.value.None? {
      return EditReply(Some(NotFound), None), called;
    }
    var existing := lookup.value.value;
    var missing := Missing(check);
    if |missing| > 0 {
      return EditReply(Some(MissingMessage(existing.channelId, missing)), None), called;
    }
    var u := BuildScheduleUpdate(req, impacts, currencies);
    called := Some(u);
    var result := edit(req.scheduleId, u);
    if result.Err? {
      return EditReply(Some("Failed to edit schedule: " + result.message), None), called;
    }
    var notice := if result.value.merged then Some(MergeNotice) else None;
    reply := EditReply(notice, Some(result.value.schedule));
  }
}
