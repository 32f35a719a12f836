/** The delivery side of the message broker (`MessageBrokerService`): news
    rendered into paged embeds, the `schedule_tasks` and `news_alerts` queues
    with their publishers, and the acknowledge / requeue decision the two
    consumers take for each message.

    The queues are sequences of message bodies, head first; a body that is
    not valid JSON is `None`. Discord is an oracle: for a (server, channel)
    pair it tells whether fetching the guild and the channel throws, finds
    nothing or finds it, and whether the bot may send messages there. Which
    page sends throw is a set of page indices. */
module Broker {
  import opened Common
  import opened Text
  import opened Domain

  const MaxFieldsPerEmbed: nat := 25
  const DefaultColor: int := 0x02ebf7
  const FiveMinutesColor: int := 0xFF6600
  const NewsDropColor: int := 0xFF1744
  /** The two alert titles with the intended bell and siren emoji. The
      source literals are mis-encoded (the UTF-8 bytes of each emoji read
      as Windows-1252 characters), so the program sends "\U{F0}\U{178}\U{201D}\U{201D}"
      and "\U{F0}\U{178}\U{161}\U{A8}" in their place. */
  const FiveMinutesTitle: string := "\U{1F514} NEWS IN 5 MINUTES"
  const NewsDropTitle: string := "\U{1F6A8} NEWS DROPPING RIGHT NOW"
  const NoNewsText: string := "No news found for the specified criteria."
  const Footer: string := "Powered by ForexFactory"

  function Min(a: int, b: int): int {
    if a <= b then a else b
  }

  // ---------------------------------------------------------------------
  // Embeds

  /** A rendered embed. Each field shows one news item; how an item is
      rendered (flag, impact marker, date and time lines) is not modelled,
      the field carries the item itself. */
  datatype Embed = Embed(
    title: string,
    color: int,
    description: Option<string>,
    fields: seq<NewsItem>,
    footer: string)

  datatype Style = Style(title: string, color: int)

  /** Title and colour chosen by the alert type: the two alert cadences have
      their own fixed title and colour, anything else keeps `title`. */
  function StyleFor(title: string, alertType: Option<string>): Style {
    if alertType == Some(FiveMinutesBefore.Name()) then Style(FiveMinutesTitle, FiveMinutesColor)
    else if alertType == Some(OnNewsDrop.Name()) then Style(NewsDropTitle, NewsDropColor)
    else Style(title, DefaultColor)
  }

  /** The colour tells which cadence an embed belongs to, and only a plain
      embed keeps the caller's title. */
  lemma StyleIdentifiesCadence(title: string, alertType: Option<string>)
    ensures StyleFor(title, alertType).color == FiveMinutesColor <==> alertType == Some("FIVE_MINUTES_BEFORE")
    ensures StyleFor(title, alertType).color == NewsDropColor <==> alertType == Some("ON_NEWS_DROP")
    ensures StyleFor(title, alertType).color == DefaultColor
      <==> alertType != Some("FIVE_MINUTES_BEFORE") && alertType != Some("ON_NEWS_DROP")
    ensures StyleFor(title, alertType).color == DefaultColor ==> StyleFor(title, alertType).title == title
  {
  }

  /** `Math.ceil(n / 25)`. */
  function PageCount(n: nat): nat {
    (n + MaxFieldsPerEmbed - 1) / MaxFieldsPerEmbed
  }

  /** `PageCount` is the least number of 25-item pages that hold `n` items. */
  lemma PageCountIsCeiling(n: nat)
    ensures PageCount(n) * MaxFieldsPerEmbed >= n
    ensures n > 0 ==> (PageCount(n) - 1) * MaxFieldsPerEmbed < n
    ensures PageCount(n) == 0 <==> n == 0
  {
  }

  /** Every page below the page count starts inside the list. */
  lemma PageStartInRange(n: nat, page: nat)
    requires page < PageCount(n)
    ensures page * MaxFieldsPerEmbed < n
  {
    PageCountIsCeiling(n);
  }

  /** The title suffix of page `page` (from 0) out of `total`. */
  function PageSuffix(page: nat, total: nat): string {
    if total > 1 then " (Page " + NatToString(page + 1) + "/" + NatToString(total) + ")" else ""
  }

  /** Page `page` of the embeds for `news`. */
  function Page(news: seq<NewsItem>, style: Style, page: nat): Embed
    requires page * MaxFieldsPerEmbed < |news|
  {
    var start := page * MaxFieldsPerEmbed;
    Embed(style.title + PageSuffix(page, PageCount(|news|)), style.color, None,
          news[start..Min(start + MaxFieldsPerEmbed, |news|)], Footer)
  }

  /** What `buildNewsEmbeds` returns: one "no news" embed for an empty list,
      otherwise one page per 25 items. */
  function NewsEmbeds(news: seq<NewsItem>, title: string, alertType: Option<string>): (r: seq<Embed>)
    ensures |r| >= 1
  {
    var style := StyleFor(title, alertType);
    if |news| == 0 then
      [Embed(style.title, style.color, Some(NoNewsText), [], Footer)]
    else
      seq(PageCount(|news|), p requires 0 <= p < PageCount(|news|) => Page(news, style, p))
  }

  /** `buildNewsEmbeds`: the page loop. */
  method BuildNewsEmbeds(news: seq<NewsItem>, title: string, alertType: Option<string>)
    returns (embeds: seq<Embed>)
    ensures embeds == NewsEmbeds(news, title, alertType)
  {
    var embedTitle := title;
    var embedColor := DefaultColor;
    if alertType == Some(FiveMinutesBefore.Name()) {
      embedTitle := FiveMinutesTitle;
      embedColor := FiveMinutesColor;
    } else if alertType == Some(OnNewsDrop.Name()) {
      embedTitle := NewsDropTitle;
      embedColor := NewsDropColor;
    }
    if |news| == 0 {
      embeds := [Embed(embedTitle, embedColor, Some(NoNewsText), [], Footer)];
      return;
    }
    var style := Style(embedTitle, embedColor);
    assert style == StyleFor(title, alertType);
    embeds := PageLoop(news, style);
    PagesMatch(news, title, alertType, embeds);
  }

  /** The page loop of `buildNewsEmbeds`: page `p` holds items `25p` up to
      `25p + 24` and the page suffix. */
  method PageLoop(news: seq<NewsItem>, style: Style) returns (embeds: seq<Embed>)
    requires |news| > 0
    ensures |embeds| == PageCount(|news|)
    ensures forall p :: 0 <= p < |embeds| ==> p * MaxFieldsPerEmbed < |news|
    ensures forall p :: 0 <= p < |embeds| ==> embeds[p] == Page(news, style, p)
  {
    var totalPages := (|news| + MaxFieldsPerEmbed - 1) / MaxFieldsPerEmbed;
    embeds := [];
    var page := 0;
    while page < totalPages
      invariant 0 <= page <= totalPages
      invariant |embeds| == page
      invariant forall p :: 0 <= p < page ==> p * MaxFieldsPerEmbed < |news|
      invariant forall p :: 0 <= p < page ==> embeds[p] == Page(news, style, p)
    {
      PageStartInRange(|news|, page);
      var startIdx := page * MaxFieldsPerEmbed;
      var endIdx := Min(startIdx + MaxFieldsPerEmbed, |news|);
      var embed := Embed(style.title + PageSuffix(page, totalPages), style.color, None,
                         news[startIdx..endIdx], Footer);
      embeds := embeds + [embed];
      page := page + 1;
    }
  }

  lemma PagesMatch(news: seq<NewsItem>, title: string, alertType: Option<string>, embeds: seq<Embed>)
    requires |news| > 0
    requires |embeds| == PageCount(|news|)
    requires forall p :: 0 <= p < |embeds| ==> p * MaxFieldsPerEmbed < |news|
    requires forall p :: 0 <= p < |embeds| ==> embeds[p] == Page(news, StyleFor(title, alertType), p)
    ensures embeds == NewsEmbeds(news, title, alertType)
  {
  }

  /** All fields of a list of embeds, in order. */
  function AllFields(embeds: seq<Embed>): seq<NewsItem>
    decreases |embeds|
  {
    if embeds == [] then [] else AllFields(embeds[..|embeds| - 1]) + embeds[|embeds| - 1].fields
  }

  /** An empty news list renders as a single embed saying so. */
  lemma EmptyNewsEmbed(title: string, alertType: Option<string>)
    ensures |NewsEmbeds([], title, alertType)| == 1
    ensures NewsEmbeds([], title, alertType)[0].description == Some(NoNewsText)
    ensures NewsEmbeds([], title, alertType)[0].fields == []
  {
  }

  /** Every page holds between 1 and 25 items, carries the chosen style, and
      has a "(Page k/N)" suffix exactly when there is more than one page. */
  lemma PageShape(news: seq<NewsItem>, title: string, alertType: Option<string>, p: nat)
    requires |news| > 0
    requires p < |NewsEmbeds(news, title, alertType)|
    ensures |NewsEmbeds(news, title, alertType)| == PageCount(|news|)
    ensures 1 <= |NewsEmbeds(news, title, alertType)[p].fields| <= MaxFieldsPerEmbed
    ensures NewsEmbeds(news, title, alertType)[p].color == StyleFor(title, alertType).color
    ensures NewsEmbeds(news, title, alertType)[p].title
         == StyleFor(title, alertType).title + PageSuffix(p, PageCount(|news|))
    ensures PageSuffix(p, PageCount(|news|)) == "" <==> |news| <= MaxFieldsPerEmbed
  {
    PageCountIsCeiling(|news|);
    if PageCount(|news|) > 1 {
      assert PageSuffix(p, PageCount(|news|))[0] == ' ';
    }
  }

  /** The first `k` pages hold the first `25 k` items. */
  lemma {:induction false} PagesPrefix(news: seq<NewsItem>, title: string, alertType: Option<string>, k: nat)
    requires |news| > 0
    requires k <= PageCount(|news|)
    ensures AllFields(NewsEmbeds(news, title, alertType)[..k]) == news[..Min(k * MaxFieldsPerEmbed, |news|)]
  {
    if k > 0 {
      var embeds := NewsEmbeds(news, title, alertType);
      PagesPrefix(news, title, alertType, k - 1);
      PageFields(news, title, alertType, k - 1);
      AllFieldsStep(embeds, k);
      PrefixStep(news, k - 1);
    }
  }

  /** Page `p` holds the items from `25p` up to the next page start. */
  lemma PageFields(news: seq<NewsItem>, title: string, alertType: Option<string>, p: nat)
    requires p < PageCount(|news|)
    ensures p * MaxFieldsPerEmbed < |news|
    ensures NewsEmbeds(news, title, alertType)[p].fields
         == news[p * MaxFieldsPerEmbed..Min((p + 1) * MaxFieldsPerEmbed, |news|)]
  {
    PageStartInRange(|news|, p);
  }

  lemma AllFieldsStep(embeds: seq<Embed>, k: nat)
    requires 0 < k <= |embeds|
    ensures AllFields(embeds[..k]) == AllFields(embeds[..k - 1]) + embeds[k - 1].fields
  {
    assert embeds[..k][..k - 1] == embeds[..k - 1];
  }

  /** The items up to a page start, then that page's items, are the items
      up to the next page start. */
  lemma PrefixStep(news: seq<NewsItem>, p: nat)
    requires p * MaxFieldsPerEmbed < |news|
    ensures news[..Min(p * MaxFieldsPerEmbed, |news|)]
            + news[p * MaxFieldsPerEmbed..Min((p + 1) * MaxFieldsPerEmbed, |news|)]
         == news[..Min((p + 1) * MaxFieldsPerEmbed, |news|)]
  {
  }

  /** The pages concatenate back to the news list, in order: no item is lost,
      repeated or moved. */
  lemma PagesConcatenate(news: seq<NewsItem>, title: string, alertType: Option<string>)
    ensures AllFields(NewsEmbeds(news, title, alertType)) == news
  {
    var embeds := NewsEmbeds(news, title, alertType);
    if |news| > 0 {
      PageCountIsCeiling(|news|);
      PagesPrefix(news, title, alertType, |embeds|);
      assert embeds[..|embeds|] == embeds;
    } else {
      assert embeds[..0] == [];
    }
  }

  /** An illustration of the general paging lemmas above on one size:
      thirty items make two pages, of 25 and of 5. */
  lemma ThirtyItemsTwoPages(news: seq<NewsItem>, title: string, alertType: Option<string>)
    requires |news| == 30
    ensures |NewsEmbeds(news, title, alertType)| == 2
    ensures NewsEmbeds(news, title, alertType)[0].fields == news[..25]
    ensures NewsEmbeds(news, title, alertType)[1].fields == news[25..]
  {
  }

  // ---------------------------------------------------------------------
  // Time of day

  /** The hour on a 12-hour clock: `hours % 12 || 12`. */
  function Hour12(hours: int): (h: int)
    requires 0 <= hours < 24
    ensures 1 <= h <= 12
    ensures h % 12 == hours % 12
  {
    if hours % 12 == 0 then 12 else hours % 12
  }

  /** `getFormattedTime` for a local hour and minute: "h:mm AM" / "h:mm PM". */
  function FormattedTime(hours: int, minutes: int): string
    requires 0 <= hours < 24 && 0 <= minutes < 60
  {
    NatToString(Hour12(hours)) + ":" + PadStart(NatToString(minutes), 2, '0') + " "
      + (if hours >= 12 then "PM" else "AM")
  }

  /** A two-character zero-padded minute reads back as the minute. */
  lemma PaddedMinuteValue(minutes: nat)
    requires minutes < 60
    ensures |PadStart(NatToString(minutes), 2, '0')| == 2
    ensures DecimalValue(PadStart(NatToString(minutes), 2, '0')) == minutes
  {
    DecimalRoundTrip(minutes);
    if minutes < 10 {
      var s := PadStart(NatToString(minutes), 2, '0');
      assert s == ['0'] + NatToString(minutes);
      assert s[..1] == ['0'];
    }
  }

  /** Reading the formatted time back: the hour on a 12-hour clock (1..12,
      congruent to the hour modulo 12), then ':', the two-digit minute, a
      space and "PM" exactly for afternoon hours. */
  lemma FormattedTimeReadBack(hours: int, minutes: int)
    requires 0 <= hours < 24 && 0 <= minutes < 60
    ensures var s := FormattedTime(hours, minutes);
            var k := |NatToString(Hour12(hours))|;
            (k == 1 || k == 2) && |s| == k + 6
            && 1 <= DecimalValue(s[..k]) <= 12 && DecimalValue(s[..k]) % 12 == hours % 12
            && s[k] == ':' && DecimalValue(s[k + 1..k + 3]) == minutes && s[k + 3] == ' '
            && (s[k + 4..] == "PM" <==> hours >= 12)
  {
    var h := NatToString(Hour12(hours));
    var m := PadStart(NatToString(minutes), 2, '0');
    DecimalRoundTrip(Hour12(hours));
    PaddedMinuteValue(minutes);
    assert |h| <= 2 by {
      if Hour12(hours) >= 10 {
        assert NatToString(Hour12(hours)) == NatToString(Hour12(hours) / 10) + [Digit(Hour12(hours) % 10)];
      }
    }
    TimeParts(h, m, if hours >= 12 then "PM" else "AM");
  }

  /** Where the parts of "h:mm xM" sit. */
  lemma TimeParts(h: string, m: string, ap: string)
    requires |m| == 2
    ensures var s := h + ":" + m + " " + ap;
            |s| == |h| + 4 + |ap| && s[..|h|] == h && s[|h|] == ':'
            && s[|h| + 1..|h| + 3] == m && s[|h| + 3] == ' ' && s[|h| + 4..] == ap
  {
    var s := h + ":" + m + " " + ap;
    assert s[..|h|] == h;
    assert s[|h| + 1..|h| + 3] == m;
    assert s[|h| + 4..] == ap;
  }

  // ---------------------------------------------------------------------
  // Queue messages

  /** Body of a `schedule_tasks` message (`publishScheduleTask`). */
  datatype ScheduleTask = ScheduleTask(
    scheduleId: string,
    serverId: string,
    channelId: string,
    news: seq<NewsItem>,
    market: string,
    roleId: Option<string>)

  /** Body of a `news_alerts` message. `publishNewsAlert` sends one event's
      fields at top level (`item`) and no role; `publishGroupedNewsAlert`
      sends an `events` list, the role, and `isGrouped: true`, with no
      top-level event fields (`item` is then `AbsentItem`). */
  datatype AlertMessage = AlertMessage(
    serverId: string,
    channelId: string,
    roleId: Option<string>,
    alertType: string,
    isGrouped: bool,
    events: Option<seq<NewsItem>>,
    item: NewsItem)

  /** The top-level event fields of a grouped message, all absent. */
  const AbsentItem := NewsItem("", "", "", 0, "", "")

  /** What the send-alerts job hands to `publishGroupedNewsAlert`. */
  datatype GroupedAlert = GroupedAlert(
    events: seq<NewsItem>,
    alertType: string,
    channelId: string,
    serverId: string,
    roleId: Option<string>)

  function SingleAlertMessage(item: NewsItem, alertType: string, channelId: string, serverId: string): AlertMessage {
    AlertMessage(serverId, channelId, None, alertType, false, None, item)
  }

  function GroupedAlertMessage(g: GroupedAlert): AlertMessage {
    AlertMessage(g.serverId, g.channelId, g.roleId, g.alertType, true, Some(g.events), AbsentItem)
  }

  /** The items a news-alert message carries: the `events` list when the
      message is grouped and has one, otherwise the top-level event. */
  function AlertNews(m: AlertMessage): seq<NewsItem> {
    if m.isGrouped && m.events.Some? then m.events.value else [m.item]
  }

  /** Each publisher's message normalises back to what was published. */
  lemma AlertNewsRoundTrip(item: NewsItem, alertType: string, channelId: string, serverId: string, g: GroupedAlert)
    ensures AlertNews(SingleAlertMessage(item, alertType, channelId, serverId)) == [item]
    ensures AlertNews(GroupedAlertMessage(g)) == g.events
    ensures GroupedAlertMessage(g).isGrouped
  {
  }

  // ---------------------------------------------------------------------
  // Consumers

  datatype Lookup = Throws | Missing | Found

  /** What Discord answers for one (server, channel) pair. */
  datatype Destination = Destination(guild: Lookup, channel: Lookup, canSend: bool)

  /** Discord as seen by the consumers. */
  type Discord = (string, string) -> Destination

  predicate LookupThrows(d: Destination) {
    d.guild == Throws || (d.guild == Found && d.channel == Throws)
  }

  predicate Reachable(d: Destination) {
    d.guild == Found && d.channel == Found && d.canSend
  }

  datatype Outcome = Ack | Requeue

  /** One message sent to a Discord channel. */
  datatype Post = Post(channelId: string, content: Option<string>, embed: Embed)

  datatype Handling = Handling(outcome: Outcome, posts: seq<Post>)

  /** The message content: a role mention when a (non-empty) role is set. */
  function Mention(roleId: Option<string>): Option<string> {
    if roleId.Some? && roleId.value != "" then Some("<@&" + roleId.value + ">") else None
  }

  /** The `news_alerts` handler as written: after the destination checks it
      sends only the first embed, then acknowledges; anything thrown (bad
      JSON, a failing fetch, a failing send) requeues the message. */
  function HandleNewsAlert(body: Option<AlertMessage>, discord: Discord, sendThrows: set<nat>): Handling {
    if body.None? then Handling(Requeue, [])
    else
      var m := body.value;
      var d := discord(m.serverId, m.channelId);
      if d.guild == Throws then Handling(Requeue, [])
      else if d.guild == Missing then Handling(Ack, [])
      else if d.channel == Throws then Handling(Requeue, [])
      else if d.channel == Missing then Handling(Ack, [])
      else if !d.canSend then Handling(Ack, [])
      else
        var embeds := NewsEmbeds(AlertNews(m), "", Some(m.alertType));
        if 0 in sendThrows then Handling(Requeue, [])
        else Handling(Ack, [Post(m.channelId, Mention(m.roleId), embeds[0])])
  }

  /** The news-alert outcome: requeue exactly when something threw, ack
      without sending exactly when the destination is gone or not writable,
      and otherwise at most one post, holding the first page of the items. */
  lemma NewsAlertDecision(body: Option<AlertMessage>, discord: Discord, sendThrows: set<nat>)
    ensures var h := HandleNewsAlert(body, discord, sendThrows);
            (h.outcome == Requeue <==>
               body.None? || LookupThrows(discord(body.value.serverId, body.value.channelId))
               || (Reachable(discord(body.value.serverId, body.value.channelId)) && 0 in sendThrows))
            && (h.outcome == Ack && h.posts == [] <==>
               body.Some? && !LookupThrows(discord(body.value.serverId, body.value.channelId))
               && !Reachable(discord(body.value.serverId, body.value.channelId)))
            && |h.posts| <= 1
            && (h.posts != [] ==>
                  h.posts[0].channelId == body.value.channelId
                  && h.posts[0].content == Mention(body.value.roleId)
                  && h.posts[0].embed.fields
                     == AlertNews(body.value)[..Min(MaxFieldsPerEmbed, |AlertNews(body.value)|)])
  {
    if body.Some? {
      var m := body.value;
      var news := AlertNews(m);
      PageCountIsCeiling(|news|);
    }
  }

  /** As written, a grouped alert with 26 events posts only the first 25:
      the 26th event never reaches the channel although the message is
      acknowledged. */
  lemma NewsAlertDropsSecondPage(a: NewsItem, b: NewsItem, discord: Discord)
    requires a != b
    requires Reachable(discord("server", "channel"))
    ensures var events := seq(25, _ => a) + [b];
            var m := GroupedAlertMessage(GroupedAlert(events, "ON_NEWS_DROP", "channel", "server", None));
            var h := HandleNewsAlert(Some(m), discord, {});
            h.outcome == Ack && |h.posts| == 1 && b !in h.posts[0].embed.fields
  {
    var events := seq(25, _ => a) + [b];
    var m := GroupedAlertMessage(GroupedAlert(events, "ON_NEWS_DROP", "channel", "server", None));
    NewsAlertDecision(Some(m), discord, {});
    assert events[..25] == seq(25, _ => a);
  }

  /** The pages sent by the corrected handler: every page in order, stopping
      at the first send that throws. */
  function PagesUntilFailure(channelId: string, content: Option<string>, embeds: seq<Embed>,
                             sendThrows: set<nat>, i: nat): seq<Post>
    requires i <= |embeds|
    decreases |embeds| - i
  {
    if i == |embeds| || i in sendThrows then []
    else [Post(channelId, content, embeds[i])] + PagesUntilFailure(channelId, content, embeds, sendThrows, i + 1)
  }

  /** The `news_alerts` handler corrected to post every page, in order, as
      the schedule consumer does; a send that throws still requeues. */
  function HandleNewsAlertAllPages(body: Option<AlertMessage>, discord: Discord, sendThrows: set<nat>): Handling {
    if body.None? then Handling(Requeue, [])
    else
      var m := body.value;
      var d := discord(m.serverId, m.channelId);
      if LookupThrows(d) then Handling(Requeue, [])
      else if !Reachable(d) then Handling(Ack, [])
      else
        var embeds := NewsEmbeds(AlertNews(m), "", Some(m.alertType));
        var posts := PagesUntilFailure(m.channelId, Mention(m.roleId), embeds, sendThrows, 0);
        if |posts| < |embeds| then Handling(Requeue, posts) else Handling(Ack, posts)
  }

  lemma {:induction false} PagesUntilFailureAll(channelId: string, content: Option<string>,
                                                 embeds: seq<Embed>, i: nat)
    requires i <= |embeds|
    ensures |PagesUntilFailure(channelId, content, embeds, {}, i)| == |embeds| - i
    ensures forall k :: 0 <= k < |embeds| - i ==>
              PagesUntilFailure(channelId, content, embeds, {}, i)[k] == Post(channelId, content, embeds[i + k])
    decreases |embeds| - i
  {
    if i < |embeds| {
      PagesUntilFailureAll(channelId, content, embeds, i + 1);
    }
  }

  /** Embeds of a list of posts. */
  function PostedEmbeds(posts: seq<Post>): (r: seq<Embed>)
    ensures |r| == |posts|
  {
    seq(|posts|, k requires 0 <= k < |posts| => posts[k].embed)
  }

  /** With the correction, when no send throws every event of the message
      reaches the channel, in order, and the message is acknowledged. */
  lemma AllPagesDeliverEveryEvent(m: AlertMessage, discord: Discord)
    requires Reachable(discord(m.serverId, m.channelId))
    ensures var h := HandleNewsAlertAllPages(Some(m), discord, {});
            h.outcome == Ack && AllFields(PostedEmbeds(h.posts)) == AlertNews(m)
  {
    var embeds := NewsEmbeds(AlertNews(m), "", Some(m.alertType));
    var posts := PagesUntilFailure(m.channelId, Mention(m.roleId), embeds, {}, 0);
    PagesUntilFailureAll(m.channelId, Mention(m.roleId), embeds, 0);
    assert PostedEmbeds(posts) == embeds;
    PagesConcatenate(AlertNews(m), "", Some(m.alertType));
  }

  /** The pages among the first `i` that were sent: a page whose send throws
      is skipped and the loop goes on. */
  function SentPages(channelId: string, content: Option<string>, embeds: seq<Embed>,
                     sendThrows: set<nat>, i: nat): seq<Post>
    requires i <= |embeds|
  {
    if i == 0 then []
    else SentPages(channelId, content, embeds, sendThrows, i - 1)
         + (if i - 1 in sendThrows then [] else [Post(channelId, content, embeds[i - 1])])
  }

  /** The callback `startConsumer` gives the schedule consumer. It catches
      everything itself, so it never throws: an unreachable destination or
      a failing fetch sends nothing; otherwise every page whose send does
      not throw is posted, in order. */
  function ScheduleCallback(t: ScheduleTask, discord: Discord, sendThrows: set<nat>): seq<Post> {
    if !Reachable(discord(t.serverId, t.channelId)) then []
    else
      var embeds := NewsEmbeds(t.news, t.market + " News Update", None);
      SentPages(t.channelId, Mention(t.roleId), embeds, sendThrows, |embeds|)
  }

  /** The `schedule_tasks` handler: parse, run the callback, acknowledge;
      requeue when parsing (or the callback) throws. */
  function HandleScheduleTask(body: Option<ScheduleTask>, discord: Discord, sendThrows: set<nat>): Handling {
    if body.None? then Handling(Requeue, [])
    else Handling(Ack, ScheduleCallback(body.value, discord, sendThrows))
  }

  lemma {:induction false} SentPagesNoFailure(channelId: string, content: Option<string>,
                                               embeds: seq<Embed>, i: nat)
    requires i <= |embeds|
    ensures PostedEmbeds(SentPages(channelId, content, embeds, {}, i)) == embeds[..i]
  {
    if i > 0 {
      SentPagesNoFailure(channelId, content, embeds, i - 1);
      var prev := SentPages(channelId, content, embeds, {}, i - 1);
      assert SentPages(channelId, content, embeds, {}, i) == prev + [Post(channelId, content, embeds[i - 1])];
      assert embeds[..i] == embeds[..i - 1] + [embeds[i - 1]];
    }
  }

  lemma {:induction false} SentPagesBound(channelId: string, content: Option<string>,
                                           embeds: seq<Embed>, sendThrows: set<nat>, i: nat)
    requires i <= |embeds|
    ensures |SentPages(channelId, content, embeds, sendThrows, i)| <= i
    ensures forall k :: 0 <= k < |SentPages(channelId, content, embeds, sendThrows, i)| ==>
              SentPages(channelId, content, embeds, sendThrows, i)[k].embed in embeds[..i]
  {
    if i > 0 {
      SentPagesBound(channelId, content, embeds, sendThrows, i - 1);
    }
  }

  /** Only an unparsable body is requeued, since the callback swallows its
      own errors; when the destination is reachable and no send throws,
      every page is posted in order and the items all reach the channel. */
  lemma ScheduleTaskDecision(body: Option<ScheduleTask>, discord: Discord, sendThrows: set<nat>)
    ensures HandleScheduleTask(body, discord, sendThrows).outcome == Ack <==> body.Some?
    ensures body.Some? && !Reachable(discord(body.value.serverId, body.value.channelId))
            ==> HandleScheduleTask(body, discord, sendThrows).posts == []
    ensures body.Some? && Reachable(discord(body.value.serverId, body.value.channelId)) && sendThrows == {}
            ==> PostedEmbeds(HandleScheduleTask(body, discord, sendThrows).posts)
                == NewsEmbeds(body.value.news, body.value.market + " News Update", None)
                && AllFields(PostedEmbeds(HandleScheduleTask(body, discord, sendThrows).posts)) == body.value.news
  {
    if body.Some? && Reachable(discord(body.value.serverId, body.value.channelId)) && sendThrows == {} {
      var t := body.value;
      var embeds := NewsEmbeds(t.news, t.market + " News Update", None);
      SentPagesNoFailure(t.channelId, Mention(t.roleId), embeds, |embeds|);
      assert embeds[..|embeds|] == embeds;
      PagesConcatenate(t.news, t.market + " News Update", None);
    }
  }

  // ---------------------------------------------------------------------
  // The service object

  /** `MessageBrokerService`: the connection and channel handles, the two
      queues as RabbitMQ holds them, and the log of posts made to Discord. */
  class MessageBroker {
    /** `connection` is set. */
    var connected: bool
    /** `channel` is set. */
    var channelOpen: bool
    var scheduleQueue: seq<Option<ScheduleTask>>
    var alertQueue: seq<Option<AlertMessage>>
    var posts: seq<Post>

    constructor ()
      ensures !connected && !channelOpen
      ensures scheduleQueue == [] && alertQueue == [] && posts == []
    {
      connected := false;
      channelOpen := false;
      scheduleQueue := [];
      alertQueue := [];
      posts := [];
    }

    /** `connect`: on success both handles are set; a failure is rethrown and
        leaves them as they were. */
    method Connect(brokerReachable: bool) returns (r: Result<()>)
      modifies this
      ensures r.Ok? <==> brokerReachable
      ensures brokerReachable ==> connected && channelOpen
      ensures !brokerReachable ==> connected == old(connected) && channelOpen == old(channelOpen)
      ensures scheduleQueue == old(scheduleQueue) && alertQueue == old(alertQueue) && posts == old(posts)
    {
      if !brokerReachable {
        return Err("Failed to connect to RabbitMQ");
      }
      connected := true;
      channelOpen := true;
      r := Ok(());
    }

    /** `publishScheduleTask`. */
    method PublishScheduleTask(schedule: Schedule, news: seq<NewsItem>) returns (r: Result<()>)
      modifies this
      ensures r.Ok? <==> channelOpen
      ensures scheduleQueue == if channelOpen
        then old(scheduleQueue) + [Some(ScheduleTask(schedule.id, schedule.serverId, schedule.channelId,
                                                     news, schedule.market, schedule.roleId))]
        else old(scheduleQueue)
      ensures alertQueue == old(alertQueue) && posts == old(posts)
      ensures connected == old(connected) && channelOpen == old(channelOpen)
    {
      if !channelOpen {
        return Err("RabbitMQ channel not initialized");
      }
      scheduleQueue := scheduleQueue + [Some(ScheduleTask(schedule.id, schedule.serverId, schedule.channelId,
                                                          news, schedule.market, schedule.roleId))];
      r := Ok(());
    }

    /** `publishNewsAlert`. */
    method PublishNewsAlert(item: NewsItem, alertType: string, channelId: string, serverId: string)
      returns (r: Result<()>)
      modifies this
      ensures r.Ok? <==> channelOpen
      ensures alertQueue == if channelOpen
        then old(alertQueue) + [Some(SingleAlertMessage(item, alertType, channelId, serverId))]
        else old(alertQueue)
      ensures scheduleQueue == old(scheduleQueue) && posts == old(posts)
      ensures connected == old(connected) && channelOpen == old(channelOpen)
    {
      if !channelOpen {
        return Err("RabbitMQ channel not initialized");
      }
      alertQueue := alertQueue + [Some(SingleAlertMessage(item, alertType, channelId, serverId))];
      r := Ok(());
    }

    /** `publishGroupedNewsAlert`. */
    method PublishGroupedNewsAlert(g: GroupedAlert) returns (r: Result<()>)
      modifies this
      ensures r.Ok? <==> channelOpen
      ensures alertQueue == if channelOpen then old(alertQueue) + [Some(GroupedAlertMessage(g))] else old(alertQueue)
      ensures scheduleQueue == old(scheduleQueue) && posts == old(posts)
      ensures connected == old(connected) && channelOpen == old(channelOpen)
    {
      if !channelOpen {
        return Err("RabbitMQ channel not initialized");
      }
      alertQueue := alertQueue + [Some(GroupedAlertMessage(g))];
      r := Ok(());
    }

    /** The schedule consumer handling the message at the head of its queue:
        the callback posts each page, skipping a page whose send throws;
        then the message is acknowledged (removed), or requeued (left at
        the head) when its body does not parse. Without a channel the
        consumer cannot run. */
    method DeliverScheduleTask(discord: Discord, sendThrows: set<nat>) returns (r: Result<Option<Outcome>>)
      modifies this
      ensures !old(channelOpen) ==> r.Err?
      ensures old(channelOpen) && old(scheduleQueue) == [] ==> r == Ok(None)
      ensures old(channelOpen) && old(scheduleQueue) != [] ==>
        var h := HandleScheduleTask(old(scheduleQueue)[0], discord, sendThrows);
        r == Ok(Some(h.outcome))
        && posts == old(posts) + h.posts
        && scheduleQueue == (if h.outcome == Ack then old(scheduleQueue)[1..] else old(scheduleQueue))
      ensures !(old(channelOpen) && old(scheduleQueue) != []) ==>
        posts == old(posts) && scheduleQueue == old(scheduleQueue)
      ensures alertQueue == old(alertQueue)
      ensures connected == old(connected) && channelOpen == old(channelOpen)
    {
      if !channelOpen {
        return Err("RabbitMQ channel not initialized");
      }
      if scheduleQueue == [] {
        return Ok(None);
      }
      var body := scheduleQueue[0];
      if body.None? {
        return Ok(Some(Requeue));
      }
      var t := body.value;
      if Reachable(discord(t.serverId, t.channelId)) {
        var embeds := BuildNewsEmbeds(t.news, t.market + " News Update", None);
        PostPages(t.channelId, Mention(t.roleId), embeds, sendThrows);
      }
      scheduleQueue := scheduleQueue[1..];
      r := Ok(Some(Ack));
    }

    /** The callback's page loop: each page is sent in turn, and a page
        whose send throws is skipped. */
    method PostPages(channelId: string, content: Option<string>, embeds: seq<Embed>, sendThrows: set<nat>)
      modifies this
      ensures posts == old(posts) + SentPages(channelId, content, embeds, sendThrows, |embeds|)
      ensures scheduleQueue == old(scheduleQueue) && alertQueue == old(alertQueue)
      ensures connected == old(connected) && channelOpen == old(channelOpen)
    {
      var i := 0;
      while i < |embeds|
        invariant 0 <= i <= |embeds|
        invariant scheduleQueue == old(scheduleQueue) && alertQueue == old(alertQueue)
        invariant connected == old(connected) && channelOpen == old(channelOpen)
        invariant posts == old(posts) + SentPages(channelId, content, embeds, sendThrows, i)
      {
        if i !in sendThrows {
          posts := posts + [Post(channelId, content, embeds[i])];
        }
        i := i + 1;
      }
    }

    /** The news-alert consumer handling the message at the head of its
        queue, as written: see `HandleNewsAlert`. */
    method DeliverNewsAlert(discord: Discord, sendThrows: set<nat>) returns (r: Result<Option<Outcome>>)
      modifies this
      ensures !old(channelOpen) ==> r.Err?
      ensures old(channelOpen) && old(alertQueue) == [] ==> r == Ok(None)
      ensures old(channelOpen) && old(alertQueue) != [] ==>
        var h := HandleNewsAlert(old(alertQueue)[0], discord, sendThrows);
        r == Ok(Some(h.outcome))
        && posts == old(posts) + h.posts
        && alertQueue == (if h.outcome == Ack then old(alertQueue)[1..] else old(alertQueue))
      ensures !(old(channelOpen) && old(alertQueue) != []) ==>
        posts == old(posts) && alertQueue == old(alertQueue)
      ensures scheduleQueue == old(scheduleQueue)
      ensures connected == old(connected) && channelOpen == old(channelOpen)
    {
      if !channelOpen {
        return Err("RabbitMQ channel not initialized");
      }
      if alertQueue == [] {
        return Ok(None);
      }
      var h := HandleNewsAlert(alertQueue[0], discord, sendThrows);
      posts := posts + h.posts;
      if h.outcome == Ack {
        alertQueue := alertQueue[1..];
      }
      r := Ok(Some(h.outcome));
    }

    /** `disconnect`: closes and clears the channel, then the connection; an
        error while closing is swallowed and stops the rest. */
    method Disconnect(channelCloseThrows: bool, connectionCloseThrows: bool)
      modifies this
      ensures channelOpen == (old(channelOpen) && channelCloseThrows)
      ensures connected == (old(connected) && ((old(channelOpen) && channelCloseThrows) || connectionCloseThrows))
      ensures scheduleQueue == old(scheduleQueue) && alertQueue == old(alertQueue) && posts == old(posts)
    {
      if channelOpen {
        if channelCloseThrows {
          return;
        }
        channelOpen := false;
      }
      if connected {
        if connectionCloseThrows {
          return;
        }
        connected := false;
      }
    }
  }

  /** The static `instance` slot of `MessageBrokerService`. */
  class BrokerRegistry {
    var instance: MessageBroker?

    constructor ()
      ensures instance == null
    {
      instance := null;
    }

    /** `getInstance`: the first call creates the service, every later call
        returns that same object. */
    method GetInstance() returns (b: MessageBroker)
      modifies this
      ensures old(instance) != null ==> b == old(instance)
      ensures old(instance) == null ==> fresh(b) && !b.connected && !b.channelOpen
                                        && b.scheduleQueue == [] && b.alertQueue == [] && b.posts == []
      ensures instance == b
    {
      if instance == null {
        instance := new MessageBroker();
      }
      b := instance;
    }
  }
}
