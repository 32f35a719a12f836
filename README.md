# Economic news bot — a Dafny model of its core

The economic news bot posts economic-calendar events to Discord. The model
covers these parts of it:

- **Worker jobs.**
  - The daily fetch upserts the week's events into the event table.
  - The weekly cleanup deletes events older than 30 days.
  - The per-minute alert job finds the events due in five minutes or due
    now. It matches them against every alert subscription and publishes
    one grouped message per subscribed channel. An in-memory set of
    "event id–alert type" keys keeps it from sending an event twice.
- **Message broker.**
  - Two durable queues: schedule digests and news alerts.
  - The publishers, and the two consumers that fetch the Discord
    destination, render the news as paged embeds, post them, and
    acknowledge or requeue the message.
  - `buildNewsEmbeds` (25 fields per embed) and `getFormattedTime`.
- **Alert store.** The alert repository and the alert service:
  - find, create, update, delete and delete-many;
  - a create that registers the server and the channel first, then
    updates the channel's existing alert instead of adding a second one.
- **Bot commands.**
  - `/create-alert`, `/edit-alert`, `/list-alerts`, `/list-schedules`
    and `/edit-schedule`: their guards, option parsing (`parseEnumArray`),
    replies and embeds.
  - The delete buttons of the two listings, and the collector that deletes,
    lists again and redraws.
  - The chunking of the AI analysis into Discord-sized messages.
- **Dashboard.**
  - The schedule form: validation schema, initial values, impact and
    currency toggles.
  - The schedule table: cells, empty state, and the two-click delete
    confirmation with its three-second auto-cancel.

Modelling choices:

- **Stateful objects are classes.** The broker, the jobs, the repository,
  the service, a listing's collector and the table's confirmation state
  are classes whose methods update fields. Each method is specified
  against a function, and the properties are proved about that function.
- **Pure code is functions.** Embed building, parsing, validation and
  command decisions are functions with lemmas.
- **The outside world is a parameter.** This covers Discord (guild,
  channel and permission lookups, sends that throw), the database
  (queries that throw), the news API and the clock. An `Option`/`Result`
  parameter stands for each outcome.
- **Times are integer seconds** on the naive clock the event table uses
  (milliseconds in the dashboard).
- **Enums are parameters.** The values of the Prisma enums (currencies,
  impacts, time zones, …) are sequences of strings passed in, except
  `AlertType`, which is a datatype.

Observations that are not claimed as defects:

- `/edit-alert` and the service's update and delete find an alert by id
  alone. An administrator of one server can edit or delete another
  server's alert if they know its id.
- `/edit-alert` accepts an `alert_type` option that parses to no valid
  value. It then stores an empty list, and that alert never fires.
  `/create-alert` instead falls back to both types.
- An update through the service can give two alerts the same
  server–channel pair. Only create keeps at most one alert per channel.
- `/list-schedules` has no administrator check; it relies on Discord's
  default member permissions.
- The form schema's `z.number()` accepts fractional hours and minutes.
  The model uses integers.
- The literals in `listAlerts.ts` carry mis-encoded emoji. The model uses
  the intended ✅, ❌ and 🗑️.
- The two alert titles in `messagebroker.service.ts` (lines 141 and 144)
  are mis-encoded too: the program sends "ðŸ”” NEWS IN 5 MINUTES" and
  "ðŸš¨ NEWS DROPPING RIGHT NOW". `Broker.FiveMinutesTitle` and
  `Broker.NewsDropTitle` use the intended 🔔 and 🚨.

## Model

| member | source | states |
|---|---|---|
| EnumParse.ParseEnumArray | packages/api/src/models/index.ts:31-40 | an absent or empty input parses to []; every result is one of the valid values; there are at most as many results as comma-separated pieces |
| EnumParse.ParsePieces | packages/api/src/models/index.ts:36-39 | every parsed value is one of the input's pieces, trimmed and upper-cased |
| EnumParse.KeepValid | packages/api/src/models/index.ts:39 | the filter keeps exactly the valid elements, with their multiplicities, and nothing else |
| EnumParse.ParseConcat | packages/api/src/models/index.ts:36-39 | parsing "a,b" is parsing a, then b: the order of the input is kept |
| EnumParse.ParseIgnoresCaseAndSpaces | packages/api/src/models/index.ts:38 | inputs whose pieces differ only in letter case or surrounding white space parse alike |
| EnumParse.ParseDependsOnNormalizedPieces | packages/api/src/models/index.ts:36-39 | the parse depends only on the normalised pieces |
| EnumParse.ReparseJoined | packages/api/src/models/index.ts:31-40 | joining a parse result with "," and parsing again gives the same list, when the valid values are canonical |
| Text.SplitJoin | packages/api/src/models/index.ts:37 | splitting the join of pieces that contain no separator gives the pieces back |
| Broker.StyleIdentifiesCadence | packages/messaging/src/messagebroker.service.ts:137-146 | orange exactly for FIVE_MINUTES_BEFORE, red exactly for ON_NEWS_DROP, cyan otherwise, and only cyan keeps the given title |
| Broker.PageCountIsCeiling | packages/messaging/src/messagebroker.service.ts:178 | the page count is the least number of 25-field pages that hold all items |
| Broker.BuildNewsEmbeds | packages/messaging/src/messagebroker.service.ts:135-205 | the page loop returns exactly the specified embeds |
| Broker.NewsEmbeds | packages/messaging/src/messagebroker.service.ts:148-155 | there is always at least one embed |
| Broker.PageLoop | packages/messaging/src/messagebroker.service.ts:176-203 | one page per 25 items, page p holding items 25p up to 25p+24 with the page suffix |
| Broker.EmptyNewsEmbed | packages/messaging/src/messagebroker.service.ts:148-155 | an empty list gives one embed with the "no news" description and no fields |
| Broker.PageShape | packages/messaging/src/messagebroker.service.ts:180-202 | each page holds 1 to 25 items and the chosen colour, and its title gets a "(Page i/n)" suffix exactly when there are more than 25 items |
| Broker.PagesConcatenate | packages/messaging/src/messagebroker.service.ts:180-202 | the pages' fields concatenate back to the news list, in order |
| Broker.PagesPrefix | packages/messaging/src/messagebroker.service.ts:186-188 | the first k pages hold the first 25k items |
| Broker.ThirtyItemsTwoPages | packages/messaging/src/messagebroker.service.ts:176-202 | an illustration of the paging on one size: thirty items make two pages, of 25 and 5 |
| Broker.Hour12 | packages/messaging/src/messagebroker.service.ts:220 | `hours % 12 \|\| 12` lies in 1..12 and agrees with the hour modulo 12 |
| Broker.PaddedMinuteValue | packages/messaging/src/messagebroker.service.ts:218 | the padded minute is two characters and reads back as the minute |
| Broker.FormattedTimeReadBack | packages/messaging/src/messagebroker.service.ts:214-222 | the formatted time reads back as the 12-hour hour, ':' and the minute, then " PM" exactly for hours 12 to 23 |
| Broker.AlertNewsRoundTrip | packages/messaging/src/messagebroker.service.ts:244-289 | the consumer recovers the published item, or the grouped events, from each publisher's message |
| Broker.NewsAlertDecision | packages/messaging/src/messagebroker.service.ts:296-368 | requeue exactly when the body does not parse, a lookup throws, or the send throws; an unreachable destination is acknowledged with no post; at most one post, to the message's channel, with the role mention and the first page's events |
| Broker.ScheduleTaskDecision | packages/messaging/src/messagebroker.service.ts:43-102 | only an unparsable body is requeued; an unreachable destination posts nothing; with no failing send every page is posted in order, carrying every news item |
| Broker.SentPagesBound | packages/messaging/src/messagebroker.service.ts:91-98 | a failing send skips its page only, and never posts a page twice or out of the list |
| Broker.SentPagesNoFailure | packages/messaging/src/messagebroker.service.ts:91-98 | with no failure, every embed is posted, in order |
| Broker.NewsAlertDropsSecondPage | packages/messaging/src/messagebroker.service.ts:354-361 | as written, a grouped alert with 26 events posts a single embed that lacks the 26th event |
| Broker.AllPagesDeliverEveryEvent | packages/messaging/src/messagebroker.service.ts:349-361 | corrected handler: to a reachable channel, every event of the message is posted, in order |
| Broker.PagesUntilFailureAll | packages/messaging/src/messagebroker.service.ts:349-361 | corrected handler with no failure: one post per page, in order |
| Broker.MessageBroker.constructor | packages/messaging/src/messagebroker.service.ts:7-11 | a new service is disconnected and has empty queues |
| Broker.MessageBroker.Connect | packages/messaging/src/messagebroker.service.ts:20-35 | both handles are set on success; a failure is reported and changes nothing |
| Broker.MessageBroker.PublishScheduleTask | packages/messaging/src/messagebroker.service.ts:114-133 | fails without a channel; otherwise appends the schedule's message to the schedule queue |
| Broker.MessageBroker.PublishNewsAlert | packages/messaging/src/messagebroker.service.ts:244-264 | fails without a channel; otherwise appends the single-event message to the alert queue |
| Broker.MessageBroker.PublishGroupedNewsAlert | packages/messaging/src/messagebroker.service.ts:266-289 | fails without a channel; otherwise appends the grouped message, flagged as grouped |
| Broker.MessageBroker.DeliverScheduleTask | packages/messaging/src/messagebroker.service.ts:224-242 | the head message is handled; its posts are appended; it leaves the queue on ack and stays on requeue |
| Broker.MessageBroker.DeliverNewsAlert | packages/messaging/src/messagebroker.service.ts:291-373 | the head alert is handled; its posts are appended; it leaves the queue on ack and stays on requeue |
| Broker.MessageBroker.PostPages | packages/messaging/src/messagebroker.service.ts:91-98 | the posts grow by exactly the pages whose send does not throw, in order, and nothing else changes |
| Broker.MessageBroker.Disconnect | packages/messaging/src/messagebroker.service.ts:375-388 | the channel, then the connection, is closed and cleared; a close that throws stops the rest |
| Broker.BrokerRegistry.GetInstance | packages/messaging/src/messagebroker.service.ts:13-18 | the first call creates a fresh service, and every later call returns that same one |
| SendAlerts.KeyInjective | apps/news-worker/src/jobs/send-alerts.job.ts:134 | two dedup keys are equal exactly when the event ids and the alert types are equal |
| SendAlerts.MatchingMember | apps/news-worker/src/jobs/send-alerts.job.ts:132-150 | an event matches a subscription exactly when it is unsent for this type and passes the currency and impact filters (an empty filter accepts all) |
| SendAlerts.MatchingEmpty | apps/news-worker/src/jobs/send-alerts.job.ts:132-152 | nothing is published for a subscription exactly when no event matches it |
| SendAlerts.DedupPerAlertType | apps/news-worker/src/jobs/send-alerts.job.ts:134-137 | keys recorded for one alert type never suppress the other type |
| SendAlerts.ConfigsForMember | apps/news-worker/src/jobs/send-alerts.job.ts:110-120 | the subscriptions consulted are exactly those listing the alert type |
| SendAlerts.DeliveriesMatch | apps/news-worker/src/jobs/send-alerts.job.ts:130-172 | no more messages than subscriptions; each message goes to a subscription of the pass, is non-empty and carries only due, accepted, previously unsent events |
| SendAlerts.DeliveriesFromDistinctConfigs | apps/news-worker/src/jobs/send-alerts.job.ts:130-172 | at most one message per subscription: message k comes from the subscription at position `Publishers(...)[k]`, and these positions strictly increase |
| SendAlerts.EveryAcceptedEventDelivered | apps/news-worker/src/jobs/send-alerts.job.ts:130-179 | an event that a subscription of the pass accepts and that was unsent is published under its id, to that subscription or an earlier one; with distinct ids, that event itself is published |
| SendAlerts.DeliveriesMarked | apps/news-worker/src/jobs/send-alerts.job.ts:173-177 | every published event's key is recorded afterwards |
| SendAlerts.DeliveriesDisjoint | apps/news-worker/src/jobs/send-alerts.job.ts:130-179 | two messages of one pass never carry the same event |
| SendAlerts.RunSentGrows | apps/news-worker/src/jobs/send-alerts.job.ts:174-177 | a pass adds exactly the keys of the events it publishes, and nothing else |
| SendAlerts.RunSaturates | apps/news-worker/src/jobs/send-alerts.job.ts:130-179 | after a pass, no subscription matches any event again |
| SendAlerts.SecondRunPublishesNothing | apps/news-worker/src/jobs/send-alerts.job.ts:130-179 | repeating a pass with its recorded keys publishes nothing |
| SendAlerts.GroupedSecondCallSilent | apps/news-worker/src/jobs/send-alerts.job.ts:104-186 | below the 1000-key limit, a second call for the same events publishes nothing |
| SendAlerts.TargetsAreMinutes | apps/news-worker/src/jobs/send-alerts.job.ts:44-47 | both targets are whole minutes; the drop target is the current minute and the five-minute target is five minutes later |
| SendAlerts.EventsAtMember | apps/news-worker/src/jobs/send-alerts.job.ts:52-56 | the events queried are exactly those stored at the target time |
| SendAlerts.SendAlertsJob.constructor | apps/news-worker/src/jobs/send-alerts.job.ts:20-24 | an empty key set and the broker singleton |
| SendAlerts.SendAlertsJob.CleanupSentAlerts | apps/news-worker/src/jobs/send-alerts.job.ts:188-194 | the key set is cleared when it holds more than 1000 keys |
| SendAlerts.SendAlertsJob.MarkSent | apps/news-worker/src/jobs/send-alerts.job.ts:174-177 | adds the keys of the given events |
| SendAlerts.SendAlertsJob.PublishOne | apps/news-worker/src/jobs/send-alerts.job.ts:132-178 | one loop iteration performs the specified step, or stops at a failed publish with nothing changed |
| SendAlerts.SendAlertsJob.PublishPerConfig | apps/news-worker/src/jobs/send-alerts.job.ts:130-179 | with the channel open, the key set and the alert queue end as the specified pass; with it closed, the loop stops at the first subscription with matches |
| SendAlerts.SendAlertsJob.SendGroupedAlerts | apps/news-worker/src/jobs/send-alerts.job.ts:104-186 | the key set and the alert queue end as specified, with a failing query or publish swallowed |
| SendAlerts.SendAlertsJob.SendDueAlerts | apps/news-worker/src/jobs/send-alerts.job.ts:40-102 | a failing event query is an error with nothing changed; otherwise the events at the target are handed to the grouped send when there are any |
| SendAlerts.SendAlertsJob.Execute | apps/news-worker/src/jobs/send-alerts.job.ts:26-100 | the five-minute cadence runs at its own clock reading and query, then the on-drop cadence at a second reading and query, with the keys of the first passed to the second; a failing event query is rethrown, in the first pass with nothing changed and in the second with the first pass's messages and keys kept |
| SendAlerts.SecondSubscriberMissesEvent | apps/news-worker/src/jobs/send-alerts.job.ts:130-179 | as written, of two unfiltered subscriptions only the first receives an event |
| SendAlerts.EverySubscriberReached | apps/news-worker/src/jobs/send-alerts.job.ts:130-179 | corrected loop: every subscription whose filters accept an unsent event receives it |
| SendAlerts.PerChannelMarked | apps/news-worker/src/jobs/send-alerts.job.ts:173-177 | corrected loop: every published event is recorded |
| SendAlerts.PerChannelSecondRunPublishesNothing | apps/news-worker/src/jobs/send-alerts.job.ts:130-179 | corrected loop: repeating a pass with its keys publishes nothing |
| EventStore.UpsertEffect | apps/news-worker/src/jobs/fetch-news.job.ts:71-94 | an upsert by natural key overwrites forecast and previous of an existing row, or creates a row with a new id; every other row is unchanged |
| EventStore.UpsertValid | apps/news-worker/src/jobs/fetch-news.job.ts:70-94 | rows stay keyed by their natural key with distinct ids below the counter |
| EventStore.Retain | apps/news-worker/src/jobs/cleanup.job.ts:22-28 | keeps exactly the rows dated at or after the cutoff, unchanged |
| EventStore.RetainSplits | apps/news-worker/src/jobs/cleanup.job.ts:22-32 | the kept and expired rows partition the table, and the count deleted is the difference |
| EventStore.RetainIdempotent | apps/news-worker/src/jobs/cleanup.job.ts:22-28 | retaining twice is retaining once |
| EventStore.EventTable.Upsert | apps/news-worker/src/jobs/fetch-news.job.ts:71-94 | the table becomes the specified upsert |
| EventStore.EventTable.DeleteOlderThan | apps/news-worker/src/jobs/cleanup.job.ts:22-28 | the table keeps the retained rows, and the count is the number of expired rows |
| FetchNews.Ingest | apps/news-worker/src/jobs/fetch-news.job.ts:50-103 | every item is counted once, as upserted or as skipped |
| FetchNews.IngestValid | apps/news-worker/src/jobs/fetch-news.job.ts:54-103 | the table stays well formed |
| FetchNews.IngestRow | apps/news-worker/src/jobs/fetch-news.job.ts:54-103 | a key holds the forecast and previous of the last item stored under it, or is untouched when none was stored |
| FetchNews.IngestNoCreate | apps/news-worker/src/jobs/fetch-news.job.ts:71-94 | a run whose stored items are all known creates no row |
| FetchNews.IngestIdempotent | apps/news-worker/src/jobs/fetch-news.job.ts:38-112 | running the same fetch twice leaves the table as after once |
| FetchNews.FetchNewsJob.FetchAndStoreNewsForMarket | apps/news-worker/src/jobs/fetch-news.job.ts:38-112 | a failed fetch is an error with the table unchanged; otherwise the table and the counts are those of the ingest |
| FetchNews.FetchNewsJob.Execute | apps/news-worker/src/jobs/fetch-news.job.ts:20-36 | only the FOREX market is fetched and stored; an error is rethrown |
| Cleanup.Cutoff | apps/news-worker/src/jobs/cleanup.job.ts:13-19 | the cutoff lies exactly 30 days before now |
| Cleanup.CleanupJob.Execute | apps/news-worker/src/jobs/cleanup.job.ts:15-39 | rows older than the cutoff are deleted and counted; a failing delete is rethrown with nothing changed |
| Cleanup.CleanupKeeps | apps/news-worker/src/jobs/cleanup.job.ts:19-28 | a row survives exactly when it is dated at or after 30 days before now |
| Cleanup.SecondCleanupDeletesNothing | apps/news-worker/src/jobs/cleanup.job.ts:22-28 | a second cleanup at the same time deletes nothing |
| AlertRepository.FindFirst | packages/api/src/repositories/newsAlert.repository.ts:26-41 | returns a matching alert, and none exactly when no alert matches |
| AlertRepository.FindMany | packages/api/src/repositories/newsAlert.repository.ts:19-24 | returns exactly the matching alerts |
| AlertRepository.Without | packages/api/src/repositories/newsAlert.repository.ts:56-67 | keeps exactly the non-matching alerts; kept and matching counts add up |
| AlertRepository.FullPatchOverwrites | packages/api/src/repositories/newsAlert.repository.ts:48-54 | an update with every field of the data replaces the whole alert except its id, and a role the data leaves out stays as stored |
| AlertRepository.UpdateWhere | packages/api/src/repositories/newsAlert.repository.ts:48-54 | an update keeps the number of alerts and every id |
| AlertRepository.DeleteRemovesOne | packages/api/src/repositories/newsAlert.repository.ts:56-60 | with distinct ids, deleting an existing id removes exactly one alert |
| AlertRepository.CreateValid | packages/api/src/repositories/newsAlert.repository.ts:43-46 | a create keeps ids distinct and below the counter |
| AlertRepository.UpdateValid | packages/api/src/repositories/newsAlert.repository.ts:48-54 | an update keeps the table well formed |
| AlertRepository.DeleteValid | packages/api/src/repositories/newsAlert.repository.ts:56-67 | a delete, of one alert or of many, keeps the table well formed |
| AlertRepository.NewsAlertRepository.FindById | packages/api/src/repositories/newsAlert.repository.ts:12-17 | the alert with that id, or none exactly when no alert has it |
| AlertRepository.NewsAlertRepository.FindByServerId | packages/api/src/repositories/newsAlert.repository.ts:19-24 | exactly the server's alerts |
| AlertRepository.NewsAlertRepository.FindByChannelId | packages/api/src/repositories/newsAlert.repository.ts:26-31 | an alert of the channel, or none exactly when the channel has none |
| AlertRepository.NewsAlertRepository.FindByServerIdAndChannelId | packages/api/src/repositories/newsAlert.repository.ts:33-41 | an alert of the pair, or none exactly when the pair has none |
| AlertRepository.NewsAlertRepository.Create | packages/api/src/repositories/newsAlert.repository.ts:43-46 | appends the new alert under a fresh id; the table stays well formed |
| AlertRepository.NewsAlertRepository.Update | packages/api/src/repositories/newsAlert.repository.ts:48-54 | fails exactly for an unknown id; otherwise patches that alert and returns it; the table stays well formed |
| AlertRepository.NewsAlertRepository.Delete | packages/api/src/repositories/newsAlert.repository.ts:56-60 | fails exactly for an unknown id; otherwise removes it; the table stays well formed |
| AlertRepository.NewsAlertRepository.DeleteMany | packages/api/src/repositories/newsAlert.repository.ts:62-67 | removes the server's alerts and returns how many there were; the table stays well formed |
| AlertService.CheckChannelExists | packages/api/src/services/newsAlert.service.ts:165-174 | the channel found by id counts only when it belongs to the server |
| AlertService.UpsertAlertKeepsOnePerChannel | packages/api/src/services/newsAlert.service.ts:53-71 | create updates the pair's alert when there is one, keeping its id and, when the data gives no role, its role; it appends otherwise; the table stays well formed with one alert per pair |
| AlertService.CreateNeverDuplicatesPair | packages/api/src/services/newsAlert.service.ts:53-71 | after a create the pair has exactly one alert |
| AlertService.PairSelectsOne | packages/api/src/repositories/newsAlert.repository.ts:33-41 | with one alert per pair, the pair query finds exactly one |
| AlertService.NewsAlertService.CreateNewsAlert | packages/api/src/services/newsAlert.service.ts:27-76 | server and channel are registered as far as the steps get; the alert table changes only on success, as the upsert; any failure is "Failed to create news alert"; the table stays well formed, and one alert per pair is kept |
| AlertService.NewsAlertService.EnsureServer | packages/api/src/services/newsAlert.service.ts:30-36 | the server is registered unless the lookup or the create fails |
| AlertService.NewsAlertService.EnsureChannel | packages/api/src/services/newsAlert.service.ts:39-51 | the channel is registered when it is missing for this server, unless a step fails |
| AlertService.NewsAlertService.UpsertNewsAlert | packages/api/src/services/newsAlert.service.ts:53-71 | the alert table becomes the upsert (an existing alert keeps its id and, when the data gives no role, its role), or stays unchanged on failure; the table stays well formed |
| AlertService.NewsAlertService.UpdateNewsAlert | packages/api/src/services/newsAlert.service.ts:98-115 | an unknown id or a failure is "Failed to update news alert" with nothing changed; otherwise the alert is patched and returned; the table stays well formed |
| AlertService.NewsAlertService.DeleteNewsAlert | packages/api/src/services/newsAlert.service.ts:117-131 | an unknown id or a failure is "Failed to delete news alert"; otherwise the alert is removed and returned as it was; the table stays well formed |
| AlertService.NewsAlertService.DeleteAllNewsAlertsForServer | packages/api/src/services/newsAlert.service.ts:133-142 | the server's alerts are removed and counted; the table stays well formed |
| AlertService.NewsAlertService.ListNewsAlertsForServer | packages/api/src/services/newsAlert.service.ts:78-85 | exactly the server's alerts, or "Failed to list news alerts" |
| AlertService.NewsAlertService.GetNewsAlertByChannelId | packages/api/src/services/newsAlert.service.ts:87-96 | an alert of the channel, none exactly when there is none, or the failure message naming the channel |
| AlertLabels.CadenceLabelsDistinct | apps/discord/src/bot/commands/admin/createAlert.ts:95-104 | the two alert types get different labels, neither of them a raw enum value |
| AlertLabels.ListOrAll | apps/discord/src/bot/commands/admin/createAlert.ts:85 | "All" for an empty list, otherwise the values joined with ", " |
| AlertLabels.AlertFields | apps/discord/src/bot/commands/admin/createAlert.ts:82-107 | the three fields: impact levels, currencies ("All" when empty) and labelled alert types |
| CreateAlert.AlertTypesOrBoth | apps/discord/src/bot/commands/admin/createAlert.ts:35-37 | never empty; the parsed types are kept when there are any |
| CreateAlert.Decide | apps/discord/src/bot/commands/admin/createAlert.ts:14-64 | creates exactly in a server, a text or announcement channel and for an administrator; each guard has its message, in the source's order; the alert targets this server and channel, gives no role, and has valid values and at least one type |
| CreateAlert.MissingOptionsMeanAll | apps/discord/src/bot/commands/admin/createAlert.ts:26-37 | with no options the alert has all impacts, all currencies and both types |
| CreateAlert.ConfirmationEmbed | apps/discord/src/bot/commands/admin/createAlert.ts:77-112 | the confirmation shows the alert's fields and its id in the footer |
| CreateAlert.RepeatedCreateKeepsRole | apps/discord/src/bot/commands/admin/createAlert.ts:58-64 | running the command again for a channel that has an alert keeps that alert's id and role and adds no row |
| CreateAlert.Execute | apps/discord/src/bot/commands/admin/createAlert.ts:14-75 | a rejection changes nothing; otherwise the service's upsert happens and is confirmed, or the failure is reported with the table unchanged; the table stays well formed |
| EditAlert.UpdateHasOnlySuppliedKeys | apps/discord/src/bot/commands/admin/editAlert.ts:37-53 | the update holds exactly the supplied options, each parsed to valid values; it is empty exactly when no option was given |
| EditAlert.AppliedUpdate | apps/discord/src/bot/commands/admin/editAlert.ts:38-53 | applying it changes only the supplied lists and keeps id, server, channel and role |
| EditAlert.BuildAlertUpdate | apps/discord/src/bot/commands/admin/editAlert.ts:38-53 | the field-by-field construction yields the specified update |
| EditAlert.UpdatedEmbed | apps/discord/src/bot/commands/admin/editAlert.ts:79-101 | the embed shows the updated alert's fields and id |
| EditAlert.Rejection | apps/discord/src/bot/commands/admin/editAlert.ts:15-61 | server, then administrator, then "at least one field"; the command proceeds exactly when all pass |
| EditAlert.Execute | apps/discord/src/bot/commands/admin/editAlert.ts:15-111 | a rejection changes nothing; otherwise the alert is updated and shown, or "Failed to edit alert: …" with the table unchanged |
| EditSchedule.FieldValue | apps/discord/src/bot/commands/admin/editSchedule.ts:104-113 | impact and currency values are parsed lists; other fields are passed through |
| EditSchedule.DescribesUnique | apps/discord/src/bot/commands/admin/editSchedule.ts:91-114 | the update is determined by the options given |
| EditSchedule.BuildScheduleUpdate | apps/discord/src/bot/commands/admin/editSchedule.ts:91-114 | the update holds exactly the supplied hour, minute and listed fields |
| EditSchedule.RequiredIsEvery | apps/discord/src/bot/commands/admin/editSchedule.ts:65-69 | the check requires every modelled permission |
| EditSchedule.MissingFrom | apps/discord/src/bot/commands/admin/editSchedule.ts:71 | exactly the required permissions that are not granted |
| EditSchedule.MissingInOrder | apps/discord/src/bot/commands/admin/editSchedule.ts:65-71 | the missing permissions keep the required order |
| EditSchedule.Missing | apps/discord/src/bot/commands/admin/editSchedule.ts:59-90 | nothing is missing when the fetch throws or the channel is not text; otherwise exactly the permissions not granted, in order |
| EditSchedule.Bullets | apps/discord/src/bot/commands/admin/editSchedule.ts:74-84 | one named bullet per missing permission |
| EditSchedule.Execute | apps/discord/src/bot/commands/admin/editSchedule.ts:27-135 | the service is called exactly when the guards pass, the schedule exists and no permission is missing, with the specified update; each other path has its reply; a merge adds the notice |
| DeleteButtons.Rows | apps/discord/src/bot/commands/admin/listAlerts.ts:86-108 | at most 25 buttons in rows of 1 to 5; the button at row i, slot j is item 5i+j's, labelled with its 1-based position |
| DeleteButtons.RowsCover | apps/discord/src/bot/commands/admin/listAlerts.ts:86-108 | every one of the first 25 items has its button, at row k/5, slot k%5 |
| DeleteButtons.LabelsDistinct | apps/discord/src/bot/commands/admin/listAlerts.ts:101 | no two buttons share a label |
| DeleteButtons.ReplaceAbsent | apps/discord/src/bot/commands/admin/listAlerts.ts:131 | a custom id without the prefix is left alone |
| DeleteButtons.CustomIdRoundTrip | apps/discord/src/bot/commands/admin/listAlerts.ts:101 | stripping the prefix gives back the id, whatever it contains |
| DeleteButtons.ButtonLeadsToItem | apps/discord/src/bot/commands/admin/listAlerts.ts:101 | each button leads back to its item's id |
| DeleteButtons.ChunkIds | apps/discord/src/bot/commands/admin/listAlerts.ts:86-91 | the first 25 ids are cut into consecutive slices of five |
| DeleteButtons.BuildRows | apps/discord/src/bot/commands/admin/listAlerts.ts:93-108 | the nested loops build exactly the specified rows |
| DeleteButtons.BuildRow | apps/discord/src/bot/commands/admin/listAlerts.ts:96-106 | one button per id of the slice, in order, numbered on from the slice's start |
| DeleteButtons.Disabled | apps/discord/src/bot/commands/admin/listAlerts.ts:193-210 | the same buttons, each disabled |
| ListAlerts.ListTypeLabels | apps/discord/src/bot/commands/admin/listAlerts.ts:27-36 | each type gets its short label |
| ListAlerts.AlertField | apps/discord/src/bot/commands/admin/listAlerts.ts:38-47 | the field is named after the alert's channel and is not inline |
| ListAlerts.AlertsEmbed | apps/discord/src/bot/commands/admin/listAlerts.ts:19-51 | one field per alert, in order, and the total in the description |
| ListAlerts.ButtonDeletesItsAlert | apps/discord/src/bot/commands/admin/listAlerts.ts:93-137 | button k of a listing is labelled k+1 and deletes alert k |
| ListAlerts.LastDeleteLeavesStaleButton | apps/discord/src/bot/commands/admin/listAlerts.ts:142-150 | as written, deleting the only alert leaves a disabled "Delete #1" button |
| ListAlerts.EndViewShowsOnlyCurrent | apps/discord/src/bot/commands/admin/listAlerts.ts:193-210 | corrected end handler: no buttons after the last delete, and only the shown buttons, disabled |
| ListAlerts.ListAlertsSession.constructor | apps/discord/src/bot/commands/admin/listAlerts.ts:84-119 | the session shows the first listing and its buttons |
| ListAlerts.ListAlertsSession.Collect | apps/discord/src/bot/commands/admin/listAlerts.ts:121-191 | another user's click is refused with nothing deleted; the invoker's click deletes the button's alert, lists again and redraws, or shows the failure notice over the first listing |
| ListAlerts.ListAlertsSession.End | apps/discord/src/bot/commands/admin/listAlerts.ts:193-210 | as written, the first listing's rows, disabled, replace the buttons shown |
| ListAlerts.Execute | apps/discord/src/bot/commands/admin/listAlerts.ts:53-119 | server and administrator guards; a failed listing or an empty one gets its message; otherwise a session over exactly the server's alerts |
| ListSchedules.Ids | apps/discord/src/bot/commands/admin/listSchedules.ts:46-47 | the schedules' ids, in order |
| ListSchedules.ButtonDeletesItsSchedule | apps/discord/src/bot/commands/admin/listSchedules.ts:51-95 | button k of a listing is labelled k+1 and deletes schedule k |
| ListSchedules.LastDeleteLeavesStaleButton | apps/discord/src/bot/commands/admin/listSchedules.ts:100-108 | as written, deleting the only schedule leaves a disabled "Delete #1" button |
| ListSchedules.EndViewShowsOnlyCurrent | apps/discord/src/bot/commands/admin/listSchedules.ts:151-168 | corrected end handler: only the shown buttons, disabled |
| ListSchedules.ListSchedulesSession.constructor | apps/discord/src/bot/commands/admin/listSchedules.ts:42-77 | the session shows the first listing and its buttons |
| ListSchedules.ListSchedulesSession.Collect | apps/discord/src/bot/commands/admin/listSchedules.ts:79-149 | another user's click is refused; the invoker's click deletes the button's id, then shows the new listing, the "all deleted" message, or the failure notice over the first listing |
| ListSchedules.ListSchedulesSession.End | apps/discord/src/bot/commands/admin/listSchedules.ts:151-168 | as written, the first listing's rows, disabled, replace the buttons shown |
| ListSchedules.Execute | apps/discord/src/bot/commands/admin/listSchedules.ts:20-176 | only the server guard; a failed or empty listing gets its message; otherwise a session over the listing |
| Chunks.SplitIntoChunks | apps/discord/src/bot/commands/wip/aiAnalysis.ts:300-345 | a short text is one chunk; otherwise chunks are non-empty, and each fits the limit or is a single unbreakable word; the chunks hold the text's visible characters in order |
| Chunks.PackLine | apps/discord/src/bot/commands/wip/aiAnalysis.ts:309-337 | one line's iteration keeps the chunks packed and their visible text extended by the line |
| Chunks.PlaceWord | apps/discord/src/bot/commands/wip/aiAnalysis.ts:321-328 | placing one word keeps the chunks packed and extends their visible text by the word |
| Chunks.PackWords | apps/discord/src/bot/commands/wip/aiAnalysis.ts:319-330 | the word loop keeps the chunks packed and their visible text extended by the words |
| Chunks.SplitVisible | apps/discord/src/bot/commands/wip/aiAnalysis.ts:306 | splitting at a break loses only break characters |
| Chunks.SendAnalysis | apps/discord/src/bot/commands/wip/aiAnalysis.ts:263-279 | the first chunk edits the reply and the rest follow up, carrying the whole analysis; an empty one gets the error reply |
| ScheduleForm.Toggle | apps/nextjs/src/app/components/schedule-form.tsx:75-87 | a selected value is removed, and any other value is appended |
| ScheduleForm.ToggleTwiceAbsent | apps/nextjs/src/app/components/schedule-form.tsx:75-87 | toggling an unselected value twice restores the selection exactly |
| ScheduleForm.ToggleTwiceSameMembers | apps/nextjs/src/app/components/schedule-form.tsx:75-87 | toggling twice always restores the selected set |
| ScheduleForm.ToggleKeepsDistinct | apps/nextjs/src/app/components/schedule-form.tsx:75-87 | a selection without repeats keeps none |
| ScheduleForm.Failing | apps/nextjs/src/app/components/schedule-form.tsx:17-28 | the issues are exactly those of the failing rules, and there are none exactly when all rules hold |
| ScheduleForm.Issues | apps/nextjs/src/app/components/schedule-form.tsx:17-28 | the form passes exactly when each field satisfies its rule; the two custom messages appear exactly for an empty channel and for no impact |
| ScheduleForm.InitialValues | apps/nextjs/src/app/components/schedule-form.tsx:47-69 | no schedule gives the blank form |
| ScheduleForm.GivenFieldsOverride | apps/nextjs/src/app/components/schedule-form.tsx:47-69 | a schedule with no fields opens the blank form; each of the ten fields takes the schedule's value when given and its own default otherwise |
| ScheduleForm.BlankNeedsOnlyChannel | apps/nextjs/src/app/components/schedule-form.tsx:17-69 | the blank form fails only for its channel |
| ScheduleTable.TwoDigitsRoundTrip | apps/nextjs/src/app/components/schedule-table.tsx:98 | a number below 100 pads to two digits that read back as itself |
| ScheduleTable.TimeCellShape | apps/nextjs/src/app/components/schedule-table.tsx:98 | the time cell is "HH:MM" and reads back as the hour and the minute |
| ScheduleTable.ZoneLabel | apps/nextjs/src/app/components/schedule-table.tsx:103 | every underscore becomes a space, and nothing else changes |
| ScheduleTable.CurrencyCellOf | apps/nextjs/src/app/components/schedule-table.tsx:129-147 | "All" exactly for no currency; otherwise the first three and a "+n" badge exactly when there are more |
| ScheduleTable.CurrencyCellCountsAll | apps/nextjs/src/app/components/schedule-table.tsx:129-147 | the shown currencies plus the badge's number account for all of them |
| ScheduleTable.Render | apps/nextjs/src/app/components/schedule-table.tsx:34-177 | the empty state exactly for no schedules; otherwise one row per schedule, in order, keyed by its id |
| ScheduleTable.DeleteButtonFace | apps/nextjs/src/app/components/schedule-table.tsx:157-173 | a spinner exactly while this schedule is being deleted, else "Confirm?" exactly while it is armed, else "Delete" |
| ScheduleTable.Click | apps/nextjs/src/app/components/schedule-table.tsx:21-32 | a click deletes exactly when its schedule is armed, and then disarms; any other click arms its schedule |
| ScheduleTable.Advance | apps/nextjs/src/app/components/schedule-table.tsx:28-30 | any timer due by then disarms; with none due the armed id stays |
| ScheduleTable.EarlierTimerCutsArming | apps/nextjs/src/app/components/schedule-table.tsx:28-30 | as written, arming "a" at 0 and "b" at 1000 leaves "b" disarmed at 3000 |
| ScheduleTable.ClickRestarting | apps/nextjs/src/app/components/schedule-table.tsx:21-32 | corrected click: arming restarts the single timer, and a delete clears it |
| ScheduleTable.ArmingLastsAutoCancel | apps/nextjs/src/app/components/schedule-table.tsx:26-30 | corrected click: an arming lasts exactly three seconds |
| ScheduleTable.DeleteConfirmation.HandleDeleteClick | apps/nextjs/src/app/components/schedule-table.tsx:21-32 | the state and the deleted id are those of the specified click |
| ScheduleTable.DeleteConfirmation.AdvanceTo | apps/nextjs/src/app/components/schedule-table.tsx:28-30 | the timer loop leaves the specified state |

## Left out

- Discord, RabbitMQ, Prisma and the news API are not modelled. What the code observes of each is a parameter: a lookup result, a thrown error, a queue of messages.
- Logging is not modelled: `console.*` calls and their texts.
- The date in embed fields is not modelled (`getFormattedDate` uses locale month names). `getFormattedTime` is modelled on a local hour and minute, without time zones.
- The flag and impact emoji of the embed fields are not modelled. An item is shown as the `NewsItem` itself.
- `startConsumer` is modelled as its two handlers. Its wiring of the two consumers is not modelled, and neither is `close`, which closes without clearing the handles.
- The command builders (`data` exports), `deferReply`, and the ephemeral flag on deferred replies are not modelled.
- The five-minute (300 000 ms) collector timeout is not modelled. `End` models its effect, whichever way the collector stops.
- The schedule service behind `/edit-schedule` and `/list-schedules` is not part of this model. Its lookup, edit, delete and listing are parameters.
- `buildScheduleConfirmationEmbed` and the schedule listing embed are not part of this model. Schedules are shown as the `Schedule` values.
- The fallback permission name "Unknown" of `/edit-schedule` is not modelled. The required list holds only the three named permissions, so that name is never reached. The rest of the permission-denied reply, `EditSchedule.MissingMessage`, is modelled character for character.
- The Grok request and the French error texts of `/ai-analysis` are left out, except the empty-analysis reply.
- `getAllNewsAlerts`, `getInstance` and `resetInstance` of the alert service are left out. The first forwards to the repository's `FindAll` and rethrows any error as "Failed to get all news alerts", as the other service methods wrap theirs. The others manage the singleton.
- The markup and styling of the dashboard components are not modelled, and neither are the form's submission and the `onEdit` callback.
- A click on a disabled delete button is not delivered by the browser, so `ScheduleTable.DeleteConfirmation.HandleDeleteClick` models only delivered clicks.
- `ScheduleTable.Advance` fires all due timers at once. Browser timer ordering is not modelled, and every due timer has the same effect.
- `SendAlerts.SendAlertsJob.SendDueAlerts` takes the query results as a `Database` value. The Prisma `has` filter is modelled as membership.
- EnumParse.Normalize: `trim` and `toUpperCase` are modelled on ASCII only. JavaScript also strips Unicode white space such as U+00A0 and upper-cases non-ASCII letters, so `" high\u00A0"` parses to nothing here.
- EnumParse.ParseIgnoresCaseAndSpaces: holds for ASCII letter case and ASCII white space only, for the same reason.
- FetchNews.ItemKey: the upper-casing of `impact` and `country` is ASCII only, for the same reason.
- Chunks.SplitIntoChunks: lengths are counted in characters (code points), not in JavaScript's UTF-16 units. A text of 1000 "😀" is 2000 units long in the source, and a chunk can be longer in units than the limit.
- Chunks.SendAnalysis: the 1900 limit is checked on code points, as in `Chunks.SplitIntoChunks`. A chunk that fits here can exceed Discord's 2000 UTF-16 units.
- An explicit `null` role in the create data is not modelled apart from an absent one. No caller of the create passes a role.
- `EditSchedule.Execute` returns the update map handed to the service, not the embed built from its result.

## Findings

| source | as written | input that shows it | evidently intended | confidence | as-written member | corrected member |
|---|---|---|---|---|---|---|
| apps/news-worker/src/jobs/send-alerts.job.ts:130-179 | each event's key is marked sent inside the subscription loop, so a later subscription is filtered against keys added for an earlier one | two subscriptions with no filters and one due event: only the first channel gets it | every subscribed channel receives each due event once | not executed | SendAlerts.SecondSubscriberMissesEvent | SendAlerts.EverySubscriberReached |
| packages/messaging/src/messagebroker.service.ts:354-361 | the news-alert consumer posts only `embeds[0]` | a grouped alert with 26 events: the 26th is never posted | every page is posted, as the schedule consumer does | not executed | Broker.NewsAlertDropsSecondPage | Broker.AllPagesDeliverEveryEvent |
| apps/discord/src/bot/commands/admin/listAlerts.ts:193-210 | the collector's `end` handler puts back the first listing's rows, disabled, whatever the message shows now | list one alert, delete it: the "no alerts remaining" message gets a disabled "Delete #1" button again | disable the buttons currently shown | not executed | ListAlerts.LastDeleteLeavesStaleButton | ListAlerts.EndViewShowsOnlyCurrent |
| apps/discord/src/bot/commands/admin/listSchedules.ts:151-168 | the same `end` handler as the alert listing | list one schedule, delete it: a disabled "Delete #1" button comes back | disable the buttons currently shown | not executed | ListSchedules.LastDeleteLeavesStaleButton | ListSchedules.EndViewShowsOnlyCurrent |
| apps/nextjs/src/app/components/schedule-table.tsx:28-30 | every arming starts a timer that is never cleared, and any timer clears whatever is armed | arm "a" at 0 ms and "b" at 1000 ms: "b" is disarmed at 3000 ms, after two seconds | each arming lasts three seconds | not executed | ScheduleTable.EarlierTimerCutsArming | ScheduleTable.ArmingLastsAutoCancel |
