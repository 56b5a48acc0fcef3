# alert-publisher, modelled in Dafny

The alert publisher takes hazard alerts in. For each alert identity it keeps a tracking
record, the `PublishedAlert` row. It delivers the alert on two channels: cell broadcast and
push notification (FCM, Firebase Cloud Messaging), merges each channel's result into the
record, and later re-drives the channels that failed.

This project models that lifecycle and proves its properties. The model is a sequential
state machine over a store of records keyed by `alertId`; each channel completion is one
atomic merge, taken in any order.

Modules: one per modelled source file, plus `Java` and `Alerts` for the language semantics
and input values those files rely on, `AlertPublisherProperties` for lemmas that relate
several operations, and `PublishedAlertBuilder` for the record the builder makes:

- `Java` (`java.dfy`): the pieces of Java value semantics the code relies on. Null is
  `Option`. `int` is `int32` with two's-complement wrap-around (`Add`). It also has the
  decimal text of a clock reading and ASCII `toLowerCase`.
- `Alerts` (`alerts.dfy`): the inbound alert as the publisher reads it, and the outcome of
  one delivery attempt (delivered with a clock reading, rejected, or an exception).
- `PublishedAlerts` (`published_alert.dfy`): the `PublishStatus` enum and how it is stored by
  name. It defines `AlertRow`, the persisted value, and the mutable `PublishedAlert` entity
  class, whose `Row()` is what a save writes.
- `CellBroadcast` and `FirebaseMessaging`: the channel adapters' result shapes, their
  audience tables, and the FCM priority, channel id and title helpers.
- `Repository`: `save` and the queries as functions over `map<string, AlertRow>`.
- `AlertPublisher`: the service class. It has the store and the emitted result events as
  fields, and methods for `publishAlert`, the two result handlers, `publishResultToKafka`
  and `retryFailedAlerts`. Each method is proved against the specification functions
  beside it (`PublishStep`, `MergeCellBroadcast`, `MergeFcm`, `RetryStore`, `RedrivenIds`).
- `AlertPublisherProperties`: lemmas relating several operations.
- `PublishedAlertBuilder`: the record the builder makes as written (see Findings).

Delivery is asynchronous. `PublishAlert` and `RetryFailedAlerts` return the deliveries they
start as `Dispatch` values: the entity, the channel and the alert sent. The environment
later calls `HandleCellBroadcastResult` or `HandleFcmResult` with that entity and the
channel's result, in either order.

In these places the model follows the code as written:

- A disabled channel reports `success=true`, so its status becomes SUCCESS. No handler ever
  writes SKIPPED.
- A cell broadcast failure replaces the error text. Only an FCM failure appends to it, with
  "; ".
- A retry leaves the FAILED status as it is until the new result is merged. It does not
  reset the status to IN_PROGRESS.
- `publishAlert` does not check that the alert id is non-empty. It does not render a message
  from a template: it copies the alert's `message` field.
- A cell broadcast failure adds exactly 1 to the failure counter. An FCM result adds its own
  `failureCount`, which is 0 on success and 1 on failure.

## Model

| member | source | states |
|---|---|---|
| Java.Add | src/main/java/com/aiscientist/alert_publisher/service/AlertPublisherService.java:78 | Java `int` addition: the exact sum when it fits in 32 bits |
| Java.AddIsWrappedSum | src/main/java/com/aiscientist/alert_publisher/service/AlertPublisherService.java:102-104 | the counter sum Java keeps is the exact sum reduced modulo 2^32 |
| Java.AddSwap | src/main/java/com/aiscientist/alert_publisher/service/AlertPublisherService.java:78-84 | adding two amounts to an `int` counter gives the same value in either order, overflow included |
| Java.Str | src/main/java/com/aiscientist/alert_publisher/service/CellBroadcastService.java:110 | string concatenation renders a null message as "null" |
| Java.DecimalString | src/main/java/com/aiscientist/alert_publisher/service/CellBroadcastService.java:81 | the decimal text of a clock reading is non-empty digits with no leading zero |
| Java.DecimalStringRoundTrip | src/main/java/com/aiscientist/alert_publisher/service/FirebaseMessagingService.java:69 | reading the decimal text back gives the clock reading |
| Java.DecimalStringInjective | src/main/java/com/aiscientist/alert_publisher/service/CellBroadcastService.java:81 | distinct clock readings have distinct decimal texts |
| Java.ToLowerCase | src/main/java/com/aiscientist/alert_publisher/service/FirebaseMessagingService.java:150 | keeps the length, lowers each letter, leaves no upper-case letter |
| Java.ToLowerCaseIdempotent | src/main/java/com/aiscientist/alert_publisher/service/FirebaseMessagingService.java:150 | lower-casing twice is lower-casing once |
| Alerts.SeverityRank | src/main/java/com/aiscientist/alert_publisher/service/CellBroadcastService.java:133-138 | rank 3 exactly for CRITICAL, 2 exactly for HIGH, 1 exactly for MEDIUM, and never above 3 |
| PublishedAlerts.ParseStatus | src/main/java/com/aiscientist/alert_publisher/model/PublishedAlert.java:75-81 | a stored name parses only to the status stored under that name |
| PublishedAlerts.StatusName | src/main/java/com/aiscientist/alert_publisher/model/PublishedAlert.java:43-49 | a status is stored as one of the five enum names; the name is SUCCESS exactly for SUCCESS and FAILED exactly for FAILED |
| PublishedAlerts.StatusNameRoundTrip | src/main/java/com/aiscientist/alert_publisher/model/PublishedAlert.java:43-49 | a status stored by name reads back as itself |
| PublishedAlerts.StatusNameInjective | src/main/java/com/aiscientist/alert_publisher/repository/PublishedAlertRepository.java:32 | comparing the stored name with 'FAILED' is comparing the status with FAILED |
| PublishedAlerts.FiveStatuses | src/main/java/com/aiscientist/alert_publisher/model/PublishedAlert.java:75-81 | exactly five names are statuses: PENDING, IN_PROGRESS, SUCCESS, FAILED, SKIPPED |
| PublishedAlerts.PublishedAlert.Row | src/main/java/com/aiscientist/alert_publisher/model/PublishedAlert.java:16-73 | the row a save writes carries the entity's alertId |
| PublishedAlerts.PublishedAlert.constructor | src/main/java/com/aiscientist/alert_publisher/model/PublishedAlert.java:44-70 | a no-arg-constructed record starts PENDING on both channels, with every counter 0 and no message ids, error or retry time |
| PublishedAlerts.PublishedAlert.Built | src/main/java/com/aiscientist/alert_publisher/service/AlertPublisherService.java:43-53 | the built record has the nine given columns, and every other field at its declared initial value |
| PublishedAlerts.PublishedAlert.Load | src/main/java/com/aiscientist/alert_publisher/repository/PublishedAlertRepository.java:38 | an entity loaded from a stored row saves back as that row |
| CellBroadcast.AlertLabel | src/main/java/com/aiscientist/alert_publisher/service/CellBroadcastService.java:50 | the UUID when present, otherwise "UNKNOWN" |
| CellBroadcast.SeverityBasedRecipients | src/main/java/com/aiscientist/alert_publisher/service/CellBroadcastService.java:132-139 | CRITICAL 10,000,000, HIGH 1,000,000, MEDIUM 100,000, otherwise 10,000 (each an iff), always at least 10,000 |
| CellBroadcast.SeverityBasedRecipientsMonotone | src/main/java/com/aiscientist/alert_publisher/service/CellBroadcastService.java:132-139 | a more severe level never gets a smaller estimate |
| CellBroadcast.CalculateRecipientCount | src/main/java/com/aiscientist/alert_publisher/service/CellBroadcastService.java:118-130 | non-earthquakes, and earthquakes with no magnitude, get the severity estimate; an earthquake with a magnitude gets the area estimate |
| CellBroadcast.SimulatedBroadcast | src/main/java/com/aiscientist/alert_publisher/service/CellBroadcastService.java:71-113 | success iff delivered. A success carries the recipient estimate and "CB-" plus the clock reading. Each failure has no id, 0 recipients and its own message |
| CellBroadcast.Broadcast | src/main/java/com/aiscientist/alert_publisher/service/CellBroadcastService.java:49-65 | disabled: success, 0 recipients, "SKIPPED-" plus the label. Enabled: the simulated result. Only an enabled channel fails |
| CellBroadcast.DeliveredIdsDistinct | src/main/java/com/aiscientist/alert_publisher/service/CellBroadcastService.java:81 | deliveries at distinct clock readings carry distinct message ids |
| FirebaseMessaging.CalculateFcmRecipients | src/main/java/com/aiscientist/alert_publisher/service/FirebaseMessagingService.java:157-164 | CRITICAL 500,000, HIGH 200,000, MEDIUM 50,000, otherwise 10,000 (each an iff), always at least 10,000 |
| FirebaseMessaging.CalculateFcmRecipientsMonotone | src/main/java/com/aiscientist/alert_publisher/service/FirebaseMessagingService.java:157-164 | a more severe level never gets a smaller subscriber estimate |
| FirebaseMessaging.GetPriority | src/main/java/com/aiscientist/alert_publisher/service/FirebaseMessagingService.java:143-147 | HIGH iff the severity is CRITICAL or HIGH, otherwise NORMAL |
| FirebaseMessaging.HighPriorityIffLargeAudience | src/main/java/com/aiscientist/alert_publisher/service/FirebaseMessagingService.java:143-164 | HIGH priority iff the estimated audience is at least 200,000 |
| FirebaseMessaging.GetChannelId | src/main/java/com/aiscientist/alert_publisher/service/FirebaseMessagingService.java:149-151 | "alerts_" followed by the severity lower-cased letter by letter |
| FirebaseMessaging.ChannelIdIgnoresCase | src/main/java/com/aiscientist/alert_publisher/service/FirebaseMessagingService.java:149-151 | a lower-cased severity maps to the same channel |
| FirebaseMessaging.BuildNotificationTitle | src/main/java/com/aiscientist/alert_publisher/service/FirebaseMessagingService.java:139-141 | the title is 9 characters longer than severity and type together |
| FirebaseMessaging.TitleShowsSeverityAndType | src/main/java/com/aiscientist/alert_publisher/service/FirebaseMessagingService.java:139-141 | the title is "[" + severity + "] " + alertType + " Alert", and each part can be read back from it |
| FirebaseMessaging.SimulatedNotification | src/main/java/com/aiscientist/alert_publisher/service/FirebaseMessagingService.java:59-106 | success iff delivered. A success has successCount = recipientCount = estimate, 0 failures and an "FCM-" id. Each failure has no id, 0/0/1 counts and its own message |
| FirebaseMessaging.SendNotification | src/main/java/com/aiscientist/alert_publisher/service/FirebaseMessagingService.java:38-53 | disabled: success, "SKIPPED-" plus alertId, every count 0. Enabled: the simulated result. A failure always counts exactly one failure |
| Repository.Save | src/main/java/com/aiscientist/alert_publisher/service/AlertPublisherService.java:55 | the saved row is filed under its alertId, and every other row is kept |
| Repository.SaveShape | src/main/java/com/aiscientist/alert_publisher/model/PublishedAlert.java:21-22 | saving keeps alertId unique, and adds a row iff the alertId was new |
| Repository.FindByAlertId | src/main/java/com/aiscientist/alert_publisher/repository/PublishedAlertRepository.java:22 | present iff the alertId is stored; the row found has that alertId |
| Repository.FindByAlertIdUnique | src/main/java/com/aiscientist/alert_publisher/repository/PublishedAlertRepository.java:22 | the lookup returns a row iff that row is stored with that alertId, so at most one |
| Repository.FindBySeverity | src/main/java/com/aiscientist/alert_publisher/repository/PublishedAlertRepository.java:24 | exactly the stored rows with that severity |
| Repository.FindByAlertType | src/main/java/com/aiscientist/alert_publisher/repository/PublishedAlertRepository.java:26 | exactly the stored rows with that alert type |
| Repository.FindByPublishedAtBetween | src/main/java/com/aiscientist/alert_publisher/repository/PublishedAlertRepository.java:29-30 | exactly the stored rows published within the bounds, both bounds included |
| Repository.HasFailedChannelMeansFailed | src/main/java/com/aiscientist/alert_publisher/repository/PublishedAlertRepository.java:32 | the query's name test holds iff one of the channels is FAILED |
| Repository.FindFailedAlerts | src/main/java/com/aiscientist/alert_publisher/repository/PublishedAlertRepository.java:32-33 | exactly the stored rows with either channel FAILED |
| Repository.FindAlertsForRetry | src/main/java/com/aiscientist/alert_publisher/repository/PublishedAlertRepository.java:35-38 | exactly the stored rows with a FAILED channel and retryCount below the ceiling |
| Repository.RetryRowsAreFailedRowsBelowCeiling | src/main/java/com/aiscientist/alert_publisher/repository/PublishedAlertRepository.java:32-38 | retry rows are a subset of failed rows; a row at or above the ceiling is never picked |
| Repository.PublishedSince | src/main/java/com/aiscientist/alert_publisher/repository/PublishedAlertRepository.java:41 | exactly the stored rows published strictly after the instant |
| Repository.CountPublishedSince | src/main/java/com/aiscientist/alert_publisher/repository/PublishedAlertRepository.java:41-42 | the number of rows published strictly after the instant; so at most the number of rows, and all of them when every row is later |
| Repository.CountPublishedSinceBoundary | src/main/java/com/aiscientist/alert_publisher/repository/PublishedAlertRepository.java:41 | the comparison is strict: saving a new row published at the instant leaves the count unchanged, one published after it adds 1 |
| Repository.CellBroadcastSuccessSince | src/main/java/com/aiscientist/alert_publisher/repository/PublishedAlertRepository.java:44-45 | exactly the stored rows whose cell broadcast status is SUCCESS and that were published strictly after the instant |
| Repository.CountCellBroadcastSuccessSince | src/main/java/com/aiscientist/alert_publisher/repository/PublishedAlertRepository.java:44-46 | the number of rows whose cell broadcast status is SUCCESS, published strictly after the instant; so at most the number of rows, and 0 when none is SUCCESS |
| Repository.FcmSuccessSince | src/main/java/com/aiscientist/alert_publisher/repository/PublishedAlertRepository.java:48-49 | exactly the stored rows whose FCM status is SUCCESS and that were published strictly after the instant |
| Repository.CountFcmSuccessSince | src/main/java/com/aiscientist/alert_publisher/repository/PublishedAlertRepository.java:48-50 | the number of rows whose FCM status is SUCCESS, published strictly after the instant; so at most the number of rows, and 0 when none is SUCCESS |
| Repository.SuccessCountsAtMostPublished | src/main/java/com/aiscientist/alert_publisher/repository/PublishedAlertRepository.java:41-50 | each channel's success count in a window is at most the number published in it, since its rows are among them |
| AlertPublisher.Topic | src/main/java/com/aiscientist/alert_publisher/service/AlertPublisherService.java:122-123 | "alerts.published" iff success, otherwise "alerts.failed" |
| AlertPublisher.ResultEventFor | src/main/java/com/aiscientist/alert_publisher/service/AlertPublisherService.java:122-133 | the event goes on the outcome's topic, keyed by alertId, with the record's severity, type, message and detection time |
| AlertPublisher.NewRecord | src/main/java/com/aiscientist/alert_publisher/service/AlertPublisherService.java:43-53 | the alert's columns, published now, both channels IN_PROGRESS, counters 0, nothing sent or retried |
| AlertPublisher.PublishStep | src/main/java/com/aiscientist/alert_publisher/service/AlertPublisherService.java:36-55 | a tracked alertId leaves the store unchanged; otherwise exactly one record is added |
| AlertPublisher.MergeCellBroadcast | src/main/java/com/aiscientist/alert_publisher/service/AlertPublisherService.java:72-85 | status is SUCCESS iff success, and the message id is set. Recipients are added. Success adds them to successCount. Failure adds 1 failure and replaces the error text |
| AlertPublisher.AppendError | src/main/java/com/aiscientist/alert_publisher/service/AlertPublisherService.java:106-110 | with no earlier text, the message alone; otherwise exactly the earlier text, then "; ", then the message, each read back at its position |
| AlertPublisher.MergeFcm | src/main/java/com/aiscientist/alert_publisher/service/AlertPublisherService.java:96-111 | status is SUCCESS iff success, and the message id is set. All three counts are added regardless of outcome. Failure appends to the error text |
| AlertPublisher.RebuiltMessage | src/main/java/com/aiscientist/alert_publisher/service/AlertPublisherService.java:157-164 | the re-sent alert has the record's columns, no UUID and no magnitude |
| AlertPublisher.Bump | src/main/java/com/aiscientist/alert_publisher/service/AlertPublisherService.java:153-154 | retryCount + 1 and lastRetryAt set; every other field unchanged |
| AlertPublisher.RetryStore | src/main/java/com/aiscientist/alert_publisher/service/AlertPublisherService.java:147-155 | every retry candidate is bumped, every other record kept, no record added |
| AlertPublisher.Redrive | src/main/java/com/aiscientist/alert_publisher/service/AlertPublisherService.java:166-176 | one re-delivery per FAILED channel of the record: none, one or two |
| AlertPublisher.RedrivenIds | src/main/java/com/aiscientist/alert_publisher/service/AlertPublisherService.java:166-176 | a channel is re-driven exactly for the candidates where that channel is FAILED |
| AlertPublisher.RedriveIds | src/main/java/com/aiscientist/alert_publisher/service/AlertPublisherService.java:166-176 | the deliveries for one record include a channel iff that channel is FAILED |
| AlertPublisher.RedriveElements | src/main/java/com/aiscientist/alert_publisher/service/AlertPublisherService.java:157-175 | each re-delivery is for the record's alertId and entity, with the rebuilt alert |
| AlertPublisher.RetryLoopStep | src/main/java/com/aiscientist/alert_publisher/service/AlertPublisherService.java:152-177 | one loop turn extends the bookkeeping done so far by one record, both for the store and for each channel's deliveries |
| AlertPublisher.RetryLoopCount | src/main/java/com/aiscientist/alert_publisher/service/AlertPublisherService.java:166-176 | one loop turn adds one delivery per FAILED channel of its record, which no earlier turn re-drove |
| AlertPublisher.RetrySelection | src/main/java/com/aiscientist/alert_publisher/service/AlertPublisherService.java:148 | the records the retry query returns are exactly the retry candidates |
| AlertPublisher.AlertPublisherService.PublishAlert | src/main/java/com/aiscientist/alert_publisher/service/AlertPublisherService.java:32-67 | duplicate: nothing saved, nothing dispatched. New: the store gains the new record, and one cell broadcast then one FCM delivery share one fresh entity |
| AlertPublisher.AlertPublisherService.HandleCellBroadcastResult | src/main/java/com/aiscientist/alert_publisher/service/AlertPublisherService.java:72-91 | the entity becomes the cell broadcast merge of its old state and is saved; one event is appended on the outcome's topic |
| AlertPublisher.AlertPublisherService.ApplyCellBroadcastResult | src/main/java/com/aiscientist/alert_publisher/service/AlertPublisherService.java:74-85 | the setter calls turn the entity's row into the cell broadcast merge of its old row |
| AlertPublisher.AlertPublisherService.ApplyCellBroadcastOutcome | src/main/java/com/aiscientist/alert_publisher/service/AlertPublisherService.java:74-78 | status, message id and recipient count set; every other field unchanged |
| AlertPublisher.AlertPublisherService.HandleFcmResult | src/main/java/com/aiscientist/alert_publisher/service/AlertPublisherService.java:96-117 | the entity becomes the FCM merge of its old state and is saved; one event is appended on the outcome's topic |
| AlertPublisher.AlertPublisherService.ApplyFcmResult | src/main/java/com/aiscientist/alert_publisher/service/AlertPublisherService.java:98-111 | the setter calls turn the entity's row into the FCM merge of its old row |
| AlertPublisher.AlertPublisherService.ApplyFcmOutcome | src/main/java/com/aiscientist/alert_publisher/service/AlertPublisherService.java:98-101 | FCM status and message id set; every other field unchanged |
| AlertPublisher.AlertPublisherService.ApplyFcmCounts | src/main/java/com/aiscientist/alert_publisher/service/AlertPublisherService.java:102-104 | the three counts added; every other field unchanged |
| AlertPublisher.AlertPublisherService.PublishResultToKafka | src/main/java/com/aiscientist/alert_publisher/service/AlertPublisherService.java:122-133 | exactly one event appended, on the outcome's topic |
| AlertPublisher.AlertPublisherService.RetryRecord | src/main/java/com/aiscientist/alert_publisher/service/AlertPublisherService.java:152-176 | the record is loaded, bumped and saved, and its FAILED channels are dispatched again with a fresh entity |
| AlertPublisher.AlertPublisherService.RetryRecords | src/main/java/com/aiscientist/alert_publisher/service/AlertPublisherService.java:152-177 | after the loop every given record is bumped, and each channel's deliveries are exactly the given records where it FAILED |
| AlertPublisher.AlertPublisherService.RetryFailedAlerts | src/main/java/com/aiscientist/alert_publisher/service/AlertPublisherService.java:147-178 | the store becomes the retry round's store. Each channel is re-driven for exactly the candidates where it FAILED, once per such candidate. Each delivery's entity is the bumped record, sent with the rebuilt alert, and a record's deliveries share one entity |
| AlertPublisherProperties.PublishStepIdempotent | src/main/java/com/aiscientist/alert_publisher/service/AlertPublisherService.java:36-40 | publishing the same alert again, at any time, changes nothing |
| AlertPublisherProperties.PublishStepKeepsRecords | src/main/java/com/aiscientist/alert_publisher/service/AlertPublisherService.java:36-55 | intake never overwrites a tracked record |
| AlertPublisherProperties.CellMergeFrame | src/main/java/com/aiscientist/alert_publisher/service/AlertPublisherService.java:74-85 | the cell broadcast merge leaves the FCM fields and everything it does not set untouched |
| AlertPublisherProperties.FcmMergeFrame | src/main/java/com/aiscientist/alert_publisher/service/AlertPublisherService.java:98-111 | the FCM merge leaves the cell broadcast fields and everything it does not set untouched |
| AlertPublisherProperties.MergesNeverSkip | src/main/java/com/aiscientist/alert_publisher/service/AlertPublisherService.java:74-76 | after a merge the channel is SUCCESS or FAILED, never SKIPPED |
| AlertPublisherProperties.DisabledCellBroadcastCountsAsSuccess | src/main/java/com/aiscientist/alert_publisher/service/CellBroadcastService.java:51-59 | a disabled cell broadcast channel sets SUCCESS with the "SKIPPED-" id and changes no counter or error text |
| AlertPublisherProperties.DisabledFcmCountsAsSuccess | src/main/java/com/aiscientist/alert_publisher/service/FirebaseMessagingService.java:39-47 | a disabled FCM channel sets SUCCESS with the "SKIPPED-" id and changes no counter or error text |
| AlertPublisherProperties.CellMergeCountersGrow | src/main/java/com/aiscientist/alert_publisher/service/AlertPublisherService.java:78-84 | with a non-negative audience and no overflow, no counter drops; failures rise by exactly 1 iff the result failed |
| AlertPublisherProperties.FcmMergeCountersGrow | src/main/java/com/aiscientist/alert_publisher/service/AlertPublisherService.java:102-104 | with non-negative counts and no overflow, no counter drops |
| AlertPublisherProperties.RecipientCountWraps | src/main/java/com/aiscientist/alert_publisher/service/AlertPublisherService.java:78 | a recipient count at Integer.MAX_VALUE becomes negative when any audience is added |
| AlertPublisherProperties.MergeOrderAgreesExceptError | src/main/java/com/aiscientist/alert_publisher/service/AlertPublisherService.java:78-110 | merging the two channel results in either order gives the same record except the error text |
| AlertPublisherProperties.ErrorOrderIndependentIff | src/main/java/com/aiscientist/alert_publisher/service/AlertPublisherService.java:84-110 | the error text is the same in both orders iff at least one channel succeeded |
| AlertPublisherProperties.PartialFailureScenario | src/main/java/com/aiscientist/alert_publisher/service/AlertPublisherService.java:72-117 | for a HIGH alert, broadcast delivered and push rejected gives, in either order: SUCCESS/FAILED, 1,000,000 recipients and successes, 1 failure, the FCM error text, and a retry candidate |
| AlertPublisherProperties.RetryBumpsOnce | src/main/java/com/aiscientist/alert_publisher/service/AlertPublisherService.java:153-154 | a picked record's retryCount rises by exactly 1, without overflow; retry time set; statuses and message ids kept |
| AlertPublisherProperties.RetryCeilingRespected | src/main/java/com/aiscientist/alert_publisher/repository/PublishedAlertRepository.java:37 | a record at or above the ceiling is neither changed nor re-driven |
| AlertPublisherProperties.HealthyChannelNotRedriven | src/main/java/com/aiscientist/alert_publisher/service/AlertPublisherService.java:166-176 | a channel that is not FAILED is never re-driven |
| AlertPublisherProperties.RetryScenario | src/main/java/com/aiscientist/alert_publisher/service/AlertPublisherService.java:166-176 | with the broadcast SUCCESS and the push FAILED, only the push is re-driven |
| AlertPublisherProperties.RetryRounds | src/main/java/com/aiscientist/alert_publisher/service/AlertPublisherService.java:147-155 | repeated retry rounds keep the set of tracked alertIds |
| AlertPublisherProperties.RetryRoundsBounded | src/main/java/com/aiscientist/alert_publisher/service/AlertPublisherService.java:147-155 | over any number of rounds, retryCount never drops, never passes the ceiling, and rises at most once per round |
| AlertPublisherProperties.RebuiltMessageEstimate | src/main/java/com/aiscientist/alert_publisher/service/AlertPublisherService.java:157-164 | a re-sent alert is labelled "UNKNOWN" ("SKIPPED-UNKNOWN" when disabled) and sized by severity even for an earthquake |
| PublishedAlertBuilder.BuiltCountersAsWritten | src/main/java/com/aiscientist/alert_publisher/model/PublishedAlert.java:57-70 | as written, the builder leaves all four Integer counters null |
| PublishedAlertBuilder.UnboxedAdd | src/main/java/com/aiscientist/alert_publisher/service/AlertPublisherService.java:78 | adding to a null Integer throws; to a set one it is `int` addition |
| PublishedAlertBuilder.MergeCellCountersAsWritten | src/main/java/com/aiscientist/alert_publisher/service/AlertPublisherService.java:78-84 | the cell broadcast handler throws when a counter it reads is null |
| PublishedAlertBuilder.MergeFcmCountersAsWritten | src/main/java/com/aiscientist/alert_publisher/service/AlertPublisherService.java:102-104 | the FCM handler completes iff all three counters are set |
| PublishedAlertBuilder.BuilderRecordNeverMergesOrRetries | src/main/java/com/aiscientist/alert_publisher/service/AlertPublisherService.java:43-53 | as written, a built record throws on its first merge of either channel and is never selected for retry |
| PublishedAlertBuilder.SelectedForRetryAsWritten | src/main/java/com/aiscientist/alert_publisher/repository/PublishedAlertRepository.java:36-37 | a NULL retry count is never selected; a set one is selected iff a channel FAILED and the count is below the ceiling |
| PublishedAlertBuilder.SetCountersMergeAsModelled | src/main/java/com/aiscientist/alert_publisher/service/AlertPublisherService.java:78-104 | with set counters, the as-written updates and retry test agree with the model's merges and retry candidate test |
| PublishedAlertBuilder.CorrectedRecordMergesAndRetries | src/main/java/com/aiscientist/alert_publisher/model/PublishedAlert.java:57-70 | a record starting at 0 counts exactly its first result, and a failed channel makes it a retry candidate iff that result failed |

## Left out

- Kafka: the intake consumer, and the `kafkaTemplate.send`/`whenComplete` I/O. The model
  keeps only the event a result produces (topic, key, payload), appended to `events`.
- Asynchrony: `@Async`, `Mono.subscribe`, `CompletableFuture` and `Thread.sleep`. Each merge
  is one atomic step applied in any order. Two callbacks updating the same entity at the
  same time, and the lost updates that can cause, are not modelled. Neither are two
  concurrent `publishAlert` calls racing past the duplicate check into the unique
  constraint.
- Randomness and clocks: `Math.random`, `System.currentTimeMillis` and `LocalDateTime.now`
  become parameters (`ChannelAttempt`, `now`).
- AlertPublisher.AlertPublisherService.RetryFailedAlerts: one `now` serves the whole round,
  so every record of a round gets the same `lastRetryAt`. The source reads the clock once
  per record (`AlertPublisherService.java:154`), so its records can get different, later times.
- Spring's `@Async` proxy: `broadcast` is `@Async` (`CellBroadcastService.java:48-49`,
  enabled at `AlertPublisherApplication.java:22`) but returns a `Mono`. The model assumes the
  call returns the adapter's `Mono` and that `subscribe` runs the handler with its result.
  Spring's async proxy only supports `void` and `Future` return types. If the proxy does not
  hand the `Mono` back, the `.subscribe` at `AlertPublisherService.java:59-60` fails after the
  save at `:55` and the transaction rolls back. The proxy is not modelled.
- Reactor `timeout`/`retry`/`onErrorResume` in the cell broadcast adapter: only the failure
  result it ends with is modelled (`Errored`).
- The earthquake area estimate: it is floating point (`Math.PI`, `pow`, a double-to-int
  cast). It is the parameter `quakeEstimate`.
- FCM SDK message construction (`buildFcmMessage`) and `WebClient` setup: foreign libraries.
  The helpers it calls are modelled.
- The REST controller, the application bootstrap, `@Transactional`, the generated numeric
  `id` column, and the column length limits on `message` and `errorMessage`.
- `AlertMessage` does not declare every field the service reads. The model uses an abstract
  alert with the fields read.
- `publishedAt` and `lastRetryAt` are set from `LocalDateTime` but declared `Instant`. Both
  are one integer time line in the model.
- Severity is a required column and is modelled as a non-null string. The null-string
  `switch` and `toLowerCase` failures are not modelled.
- Java.ToLowerCase: only ASCII letters are lowered. `String.toLowerCase` is locale- and
  Unicode-aware.
- AlertPublisher.AlertPublisherService.RetryFailedAlerts: the query's `List` order is not
  modelled. Records are processed in any order, so the dispatch sequence's order is not
  stated. Each channel's deliveries are stated as a set of alertIds, with the total number of
  deliveries equal to the sizes of those sets together.
- AlertPublisherProperties.CellMergeCountersGrow: monotone only under a no-overflow
  hypothesis, because Java `int` counters wrap (RecipientCountWraps).
- AlertPublisherProperties.FcmMergeCountersGrow: monotone only under a no-overflow
  hypothesis, for the same reason.
- PublishedAlerts.PublishedAlert.constructor: the Java no-arg constructor leaves the
  required columns null until set. The model takes them as arguments.
- Repository: `count*Since` return `Long`; the model uses unbounded naturals.

## Findings

| source | as written | input that shows it | evidently intended | confidence | as-written member | corrected member |
|---|---|---|---|---|---|---|
| src/main/java/com/aiscientist/alert_publisher/model/PublishedAlert.java:57-70 | `@Builder` without `@Builder.Default`, so the built record's `Integer` counters are null; `AlertPublisherService.java:78` and `:102` then unbox null, and `retryCount < :maxRetries` is unknown for NULL | any alert on first sight: its first channel result throws before the record is saved, so it stays IN_PROGRESS and is never picked for retry | counters start at 0, as the field initialisers say | not executed | PublishedAlertBuilder.BuilderRecordNeverMergesOrRetries | PublishedAlertBuilder.CorrectedRecordMergesAndRetries |
