/** The alert publishing service: idempotent intake of an alert, creation of
    its tracking record, fan-out to the two channels, merging of each
    channel's result into the record, and the retry round that re-drives
    the channels that failed. Channel completions arrive as separate calls
    in any order; each merge is one atomic step. */
module AlertPublisher {
  import opened Java
  import opened Alerts
  import opened PublishedAlerts
  import opened CellBroadcast
  import opened FirebaseMessaging
  import opened Repository

  datatype Channel = CellBroadcastChannel | FcmChannel

  /** A channel delivery the service has started: when it completes, its
      result is merged into `alert`, the entity for `alertId`. */
  datatype Dispatch = Dispatch(alertId: string, alert: PublishedAlert, channel: Channel,
                               message: AlertMessage)

  /** One outbound result event: the topic, the record key, and the alert
      summary the event carries. */
  datatype ResultEvent = ResultEvent(topic: string, key: string, severity: string,
                                     alertType: string, message: Option<string>,
                                     detectedAt: Instant)

  /** The topic a channel outcome is reported on. */
  function Topic(success: bool): (topic: string)
    ensures topic == "alerts.published" || topic == "alerts.failed"
    ensures topic == "alerts.published" <==> success
  {
    if success then "alerts.published" else "alerts.failed"
  }

  /** The event reporting one channel outcome for a record. */
  function ResultEventFor(row: AlertRow, success: bool): (e: ResultEvent)
    ensures e.topic == Topic(success) && e.key == row.alertId
    ensures e.severity == row.severity && e.alertType == row.alertType
    ensures e.message == row.message && e.detectedAt == row.detectedAt
  {
    ResultEvent(Topic(success), row.alertId, row.severity, row.alertType, row.message,
                row.detectedAt)
  }

  /** The tracking record created on first sight of an alert: both channels
      in progress, every counter zero, nothing sent or retried yet. */
  function NewRecord(msg: AlertMessage, now: Instant): (row: AlertRow)
    ensures row.alertId == msg.alertId && row.severity == msg.severity
    ensures row.alertType == msg.alertType && row.message == msg.message
    ensures row.details == msg.details && row.detectedAt == msg.detectedAt
    ensures row.publishedAt == now
    ensures row.cellBroadcastStatus == InProgress && row.fcmStatus == InProgress
    ensures row.cellBroadcastMessageId == None && row.fcmMessageId == None
    ensures row.recipientCount == 0 && row.successCount == 0 && row.failureCount == 0
    ensures row.errorMessage == None && row.retryCount == 0 && row.lastRetryAt == None
  {
    AlertRow(msg.alertId, msg.severity, msg.alertType, msg.message, msg.details,
             msg.detectedAt, now, InProgress, InProgress, None, None, 0, 0, 0, None, 0, None)
  }

  /** The store after `publishAlert`: unchanged when the alertId is already
      tracked, otherwise with exactly one new record for it. */
  function PublishStep(store: Store, msg: AlertMessage, now: Instant): (s: Store)
    ensures msg.alertId in store ==> s == store
    ensures msg.alertId !in store ==>
      s == Save(store, NewRecord(msg, now)) && |s| == |store| + 1
    ensures msg.alertId in s
  {
    if FindByAlertId(store, msg.alertId).Some? then store
    else Save(store, NewRecord(msg, now))
  }

  /** The record after merging a cell broadcast result. */
  function MergeCellBroadcast(row: AlertRow, result: CellBroadcastResult): (r: AlertRow)
    ensures r.cellBroadcastStatus == (if result.success then Success else Failed)
    ensures r.cellBroadcastMessageId == result.messageId
    ensures r.recipientCount == Add(row.recipientCount, result.recipientCount)
    ensures result.success ==>
      && r.successCount == Add(row.successCount, result.recipientCount)
      && r.failureCount == row.failureCount && r.errorMessage == row.errorMessage
    ensures !result.success ==>
      && r.successCount == row.successCount
      && r.failureCount == Add(row.failureCount, 1) && r.errorMessage == Some(result.message)
  {
    var r := row.(cellBroadcastStatus := if result.success then Success else Failed,
                  cellBroadcastMessageId := result.messageId,
                  recipientCount := Add(row.recipientCount, result.recipientCount));
    if result.success then
      r.(successCount := Add(r.successCount, result.recipientCount))
    else
      r.(failureCount := Add(r.failureCount, 1), errorMessage := Some(result.message))
  }

  /** The error text after an FCM failure: the earlier text and the new
      message joined by "; ", or the new message alone. */
  function AppendError(previous: Option<string>, message: string): (r: string)
    ensures previous.None? ==> r == message
    ensures previous.Some? ==>
      && |r| == |previous.value| + 2 + |message| && r[..|previous.value|] == previous.value
      && r[|previous.value|..|previous.value| + 2] == "; " && r[|previous.value| + 2..] == message
  {
    if previous.Some? then previous.value + "; " + message else message
  }

  /** The record after merging an FCM result. */
  function MergeFcm(row: AlertRow, result: FcmResult): (r: AlertRow)
    ensures r.fcmStatus == (if result.success then Success else Failed)
    ensures r.fcmMessageId == result.messageId
    ensures r.recipientCount == Add(row.recipientCount, result.recipientCount)
    ensures r.successCount == Add(row.successCount, result.successCount)
    ensures r.failureCount == Add(row.failureCount, result.failureCount)
    ensures result.success ==> r.errorMessage == row.errorMessage
    ensures !result.success ==> r.errorMessage == Some(AppendError(row.errorMessage, result.message))
  {
    var r := row.(fcmStatus := if result.success then Success else Failed,
                  fcmMessageId := result.messageId,
                  recipientCount := Add(row.recipientCount, result.recipientCount),
                  successCount := Add(row.successCount, result.successCount),
                  failureCount := Add(row.failureCount, result.failureCount));
    if result.success then r
    else r.(errorMessage := Some(AppendError(row.errorMessage, result.message)))
  }

  function StatusOf(row: AlertRow, channel: Channel): PublishStatus {
    match channel
    case CellBroadcastChannel => row.cellBroadcastStatus
    case FcmChannel => row.fcmStatus
  }

  /** A record a retry round with this ceiling picks. */
  predicate IsRetryCandidate(row: AlertRow, maxRetries: int32) {
    (row.cellBroadcastStatus == Failed || row.fcmStatus == Failed) && row.retryCount < maxRetries
  }

  /** The alert a retry re-sends, rebuilt from the stored record: it has no
      UUID and no magnitude, since the record keeps neither. */
  function RebuiltMessage(row: AlertRow): (msg: AlertMessage)
    ensures msg.alertId == row.alertId && msg.severity == row.severity
    ensures msg.alertType == row.alertType && msg.message == row.message
    ensures msg.details == row.details && msg.detectedAt == row.detectedAt
    ensures msg.id == None && msg.magnitude == None
  {
    AlertMessage(None, row.alertId, row.severity, row.alertType, None, row.message,
                 row.details, row.detectedAt)
  }

  /** The retry bookkeeping on one picked record. */
  function Bump(row: AlertRow, now: Instant): (r: AlertRow)
    ensures r.retryCount == Add(row.retryCount, 1) && r.lastRetryAt == Some(now)
    ensures r.(retryCount := row.retryCount, lastRetryAt := row.lastRetryAt) == row
  {
    row.(retryCount := Add(row.retryCount, 1), lastRetryAt := Some(now))
  }

  /** The store after one retry round's bookkeeping. */
  function RetryStore(store: Store, maxRetries: int32, now: Instant): (s: Store)
    ensures s.Keys == store.Keys
    ensures Keyed(store) ==> Keyed(s)
    ensures forall k :: k in store && IsRetryCandidate(store[k], maxRetries) ==>
      s[k] == Bump(store[k], now)
    ensures forall k :: k in store && !IsRetryCandidate(store[k], maxRetries) ==>
      s[k] == store[k]
  {
    map k | k in store :: if IsRetryCandidate(store[k], maxRetries) then Bump(store[k], now)
                          else store[k]
  }

  /** The alertIds whose `channel` a retry round re-drives. */
  function RedrivenIds(store: Store, maxRetries: int32, channel: Channel): (ids: set<string>)
    ensures forall k :: k in ids <==>
      k in store && IsRetryCandidate(store[k], maxRetries) && StatusOf(store[k], channel) == Failed
  {
    set k | k in store && IsRetryCandidate(store[k], maxRetries)
                       && StatusOf(store[k], channel) == Failed
  }

  /** The alertIds a sequence of dispatches sends on `channel`. */
  function DispatchedIds(ds: seq<Dispatch>, channel: Channel): set<string>
  {
    if ds == [] then {}
    else DispatchedIds(ds[..|ds| - 1], channel)
         + (if ds[|ds| - 1].channel == channel then {ds[|ds| - 1].alertId} else {})
  }

  lemma DispatchedIdsAppend(ds: seq<Dispatch>, d: Dispatch, channel: Channel)
    ensures DispatchedIds(ds + [d], channel)
         == DispatchedIds(ds, channel) + (if d.channel == channel then {d.alertId} else {})
  {
    assert (ds + [d])[..|ds|] == ds;
  }

  /** The store once the retry bookkeeping has been done for the keys in `done`. */
  ghost function PartialRetry(store: Store, now: Instant, done: set<string>): Store {
    map k | k in store :: if k in done then Bump(store[k], now) else store[k]
  }

  /** The alertIds among `done` whose `channel` has failed. */
  ghost function PartialRedriven(store: Store, done: set<string>, channel: Channel): set<string> {
    set k | k in store && k in done && StatusOf(store[k], channel) == Failed
  }

  lemma PartialRetryStep(store: Store, now: Instant, done: set<string>, k: string)
    requires k in store && Keyed(store)
    ensures Save(PartialRetry(store, now, done), Bump(store[k], now))
         == PartialRetry(store, now, done + {k})
  {
  }

  lemma PartialRedrivenStep(store: Store, done: set<string>, k: string, channel: Channel)
    requires k in store
    ensures PartialRedriven(store, done + {k}, channel)
         == PartialRedriven(store, done, channel)
            + (if StatusOf(store[k], channel) == Failed then {k} else {})
  {
  }

  lemma PartialRetryComplete(store: Store, maxRetries: int32, now: Instant, selected: set<string>)
    requires selected == set k | k in store && IsRetryCandidate(store[k], maxRetries)
    ensures PartialRetry(store, now, selected) == RetryStore(store, maxRetries, now)
    ensures forall c :: PartialRedriven(store, selected, c) == RedrivenIds(store, maxRetries, c)
  {
  }

  /** The alertIds of the stored rows that are among `rows`. */
  function KeysOfRows(store: Store, rows: set<AlertRow>): (keys: set<string>)
    ensures forall k :: k in keys <==> k in store && store[k] in rows
  {
    set k | k in store && store[k] in rows
  }

  /** The dispatches a retry sends for one record: one per FAILED channel,
      cell broadcast first, each with the alert rebuilt from the record. */
  function Redrive(row: AlertRow, alert: PublishedAlert): (ds: seq<Dispatch>)
    ensures |ds| == (if row.cellBroadcastStatus == Failed then 1 else 0)
                    + (if row.fcmStatus == Failed then 1 else 0)
  {
    (if row.cellBroadcastStatus == Failed
     then [Dispatch(row.alertId, alert, CellBroadcastChannel, RebuiltMessage(row))] else [])
    + (if row.fcmStatus == Failed
       then [Dispatch(row.alertId, alert, FcmChannel, RebuiltMessage(row))] else [])
  }

  lemma RedriveIds(row: AlertRow, alert: PublishedAlert, channel: Channel)
    ensures DispatchedIds(Redrive(row, alert), channel)
         == if StatusOf(row, channel) == Failed then {row.alertId} else {}
  {
    var msg := RebuiltMessage(row);
    var cell := if row.cellBroadcastStatus == Failed
                then [Dispatch(row.alertId, alert, CellBroadcastChannel, msg)] else [];
    var fcm := if row.fcmStatus == Failed
               then [Dispatch(row.alertId, alert, FcmChannel, msg)] else [];
    DispatchedIdsConcat(cell, fcm, channel);
    if cell != [] {
      DispatchedIdsAppend([], cell[0], channel);
    }
    if fcm != [] {
      DispatchedIdsAppend([], fcm[0], channel);
    }
  }

  /** One turn of the retry loop keeps its bookkeeping invariants. */
  lemma RetryLoopStep(initial: Store, now: Instant, done: set<string>, k: string,
                      before: Store, after: Store, alert: PublishedAlert,
                      dispatches: seq<Dispatch>, added: seq<Dispatch>,
                      entities: map<string, PublishedAlert>)
    requires Keyed(initial) && k in initial && k !in done
    requires Tracked(dispatches, entities, initial, done)
    requires before == PartialRetry(initial, now, done)
    requires after == Save(before, Bump(initial[k], now))
    requires added == Redrive(Bump(initial[k], now), alert)
    requires DispatchedIds(dispatches, CellBroadcastChannel)
          == PartialRedriven(initial, done, CellBroadcastChannel)
    requires DispatchedIds(dispatches, FcmChannel) == PartialRedriven(initial, done, FcmChannel)
    ensures after == PartialRetry(initial, now, done + {k})
    ensures DispatchedIds(dispatches + added, CellBroadcastChannel)
         == PartialRedriven(initial, done + {k}, CellBroadcastChannel)
    ensures DispatchedIds(dispatches + added, FcmChannel)
         == PartialRedriven(initial, done + {k}, FcmChannel)
    ensures Tracked(dispatches + added, entities[k := alert], initial, done + {k})
  {
    var row := Bump(initial[k], now);
    RedriveElements(row, alert);
    assert Tracked(dispatches + added, entities[k := alert], initial, done + {k}) by {
      forall i | 0 <= i < |dispatches + added|
        ensures (dispatches + added)[i].alertId in done + {k}
      {
        if i >= |dispatches| {
          assert (dispatches + added)[i] == added[i - |dispatches|];
        }
      }
    }
    RedriveIds(row, alert, CellBroadcastChannel);
    RedriveIds(row, alert, FcmChannel);
    PartialRetryStep(initial, now, done, k);
    PartialRedrivenStep(initial, done, k, CellBroadcastChannel);
    PartialRedrivenStep(initial, done, k, FcmChannel);
    DispatchedIdsConcat(dispatches, added, CellBroadcastChannel);
    DispatchedIdsConcat(dispatches, added, FcmChannel);
  }

  /** One turn of the retry loop adds one dispatch per FAILED channel of the
      record it handles, which no earlier turn has redriven. */
  lemma RetryLoopCount(initial: Store, now: Instant, done: set<string>, k: string,
                       alert: PublishedAlert, dispatches: seq<Dispatch>, added: seq<Dispatch>)
    requires k in initial && k !in done
    requires CountsDeliveries(dispatches, initial, done)
    requires added == Redrive(Bump(initial[k], now), alert)
    ensures CountsDeliveries(dispatches + added, initial, done + {k})
  {
    PartialRedrivenStep(initial, done, k, CellBroadcastChannel);
    PartialRedrivenStep(initial, done, k, FcmChannel);
    assert k !in PartialRedriven(initial, done, CellBroadcastChannel);
    assert k !in PartialRedriven(initial, done, FcmChannel);
  }

  lemma RedriveElements(row: AlertRow, alert: PublishedAlert)
    ensures forall i :: 0 <= i < |Redrive(row, alert)| ==>
      && Redrive(row, alert)[i].alertId == row.alertId
      && Redrive(row, alert)[i].alert == alert
      && Redrive(row, alert)[i].message == RebuiltMessage(row)
  {
  }

  /** The dispatches a retry round has sent for the records in `done`, and
      the entity it loaded for each of those records. */
  /** One dispatch per redriven channel of the records in `done`. */
  ghost predicate CountsDeliveries(ds: seq<Dispatch>, initial: Store, done: set<string>)
  {
    |ds| == |PartialRedriven(initial, done, CellBroadcastChannel)|
          + |PartialRedriven(initial, done, FcmChannel)|
  }

  ghost predicate Tracked(ds: seq<Dispatch>, entities: map<string, PublishedAlert>,
                          initial: Store, done: set<string>)
  {
    && entities.Keys == done
    && forall i :: 0 <= i < |ds| ==>
         && ds[i].alertId in done && ds[i].alertId in initial
         && ds[i].alert == entities[ds[i].alertId]
         && ds[i].message == RebuiltMessage(initial[ds[i].alertId])
  }

  lemma RetryFinished(initial: Store, now: Instant, selected: set<string>, store: Store,
                      dispatches: seq<Dispatch>, entities: map<string, PublishedAlert>)
    requires Tracked(dispatches, entities, initial, selected)
    requires store == PartialRetry(initial, now, selected)
    ensures forall i :: 0 <= i < |dispatches| ==>
      && dispatches[i].alertId in store
      && dispatches[i].alertId in entities
      && dispatches[i].alert == entities[dispatches[i].alertId]
      && store[dispatches[i].alertId] == Bump(initial[dispatches[i].alertId], now)
      && dispatches[i].message == RebuiltMessage(initial[dispatches[i].alertId])
  {
  }

  /** The keys of the rows the retry query returns are the retry candidates. */
  lemma RetrySelection(store: Store, maxRetries: int32, rows: set<AlertRow>, keys: set<string>)
    requires Keyed(store)
    requires rows == FindAlertsForRetry(store, maxRetries)
    requires keys == KeysOfRows(store, rows)
    ensures keys == set k | k in store && IsRetryCandidate(store[k], maxRetries)
  {
  }

  lemma {:induction false} DispatchedIdsConcat(a: seq<Dispatch>, b: seq<Dispatch>, channel: Channel)
    ensures DispatchedIds(a + b, channel) == DispatchedIds(a, channel) + DispatchedIds(b, channel)
    decreases |b|
  {
    if b == [] {
      assert a + b == a;
    } else {
      var b' := b[..|b| - 1];
      DispatchedIdsConcat(a, b', channel);
      assert a + b == (a + b') + [b[|b| - 1]];
      DispatchedIdsAppend(a + b', b[|b| - 1], channel);
      assert b == b' + [b[|b| - 1]];
      DispatchedIdsAppend(b', b[|b| - 1], channel);
    }
  }

  /** The service: the tracking store it saves records to and the result
      events it has emitted. */
  class AlertPublisherService {
    var store: Store
    var events: seq<ResultEvent>

    ghost predicate Valid()
      reads this
    {
      Keyed(store)
    }

    constructor (store: Store)
      requires Keyed(store)
      ensures Valid() && this.store == store && events == []
    {
      this.store := store;
      events := [];
    }

    /** `publishAlert`: a tracked alertId is skipped without saving or
        dispatching anything; otherwise one record with both channels in
        progress is saved, and then both channels are dispatched with the
        same entity, whose results the handlers below merge. */
    method PublishAlert(msg: AlertMessage, now: Instant) returns (dispatches: seq<Dispatch>)
      requires Valid()
      modifies this
      ensures Valid()
      ensures store == PublishStep(old(store), msg, now)
      ensures events == old(events)
      ensures msg.alertId in old(store) ==> dispatches == []
      ensures msg.alertId !in old(store) ==>
        && |dispatches| == 2
        && dispatches[0].channel == CellBroadcastChannel && dispatches[1].channel == FcmChannel
        && dispatches[0].alert == dispatches[1].alert && fresh(dispatches[0].alert)
        && dispatches[0].alert.Row() == NewRecord(msg, now)
        && dispatches[0].alertId == dispatches[1].alertId == msg.alertId
        && dispatches[0].message == dispatches[1].message == msg
    {
      if FindByAlertId(store, msg.alertId).Some? {
        return [];
      }
      var alert := new PublishedAlert.Built(msg.alertId, msg.severity, msg.alertType, msg.message,
                                            msg.details, msg.detectedAt, now,
                                            InProgress, InProgress);
      store := Save(store, alert.Row());
      dispatches := [Dispatch(msg.alertId, alert, CellBroadcastChannel, msg),
                     Dispatch(msg.alertId, alert, FcmChannel, msg)];
    }

    /** `handleCellBroadcastResult`: merges the result into the entity,
        saves it and reports the outcome. */
    method HandleCellBroadcastResult(alert: PublishedAlert, result: CellBroadcastResult)
      requires Valid()
      modifies this, alert
      ensures Valid()
      ensures alert.Row() == MergeCellBroadcast(old(alert.Row()), result)
      ensures store == Save(old(store), alert.Row())
      ensures events == old(events) + [ResultEventFor(alert.Row(), result.success)]
    {
      ApplyCellBroadcastResult(alert, result);
      store := Save(store, alert.Row());
      PublishResultToKafka(alert.Row(), result.success);
    }

    /** The setter calls of `handleCellBroadcastResult`: the channel's
        status and message id, the counters, and, on failure, the error. */
    method ApplyCellBroadcastResult(alert: PublishedAlert, result: CellBroadcastResult)
      modifies alert
      ensures alert.Row() == MergeCellBroadcast(old(alert.Row()), result)
    {
      ApplyCellBroadcastOutcome(alert, result);
      if result.success {
        alert.successCount := Add(alert.successCount, result.recipientCount);
      } else {
        alert.failureCount := Add(alert.failureCount, 1);
        alert.errorMessage := Some(result.message);
      }
    }

    /** The status, message id and recipient count a cell broadcast result
        sets whatever its outcome. */
    method ApplyCellBroadcastOutcome(alert: PublishedAlert, result: CellBroadcastResult)
      modifies alert
      ensures alert.Row() == old(alert.Row()).(
        cellBroadcastStatus := if result.success then Success else Failed,
        cellBroadcastMessageId := result.messageId,
        recipientCount := Add(old(alert.recipientCount), result.recipientCount))
    {
      alert.cellBroadcastStatus := if result.success then Success else Failed;
      alert.cellBroadcastMessageId := result.messageId;
      alert.recipientCount := Add(alert.recipientCount, result.recipientCount);
    }

    /** `handleFcmResult`: merges the result into the entity, saves it and
        reports the outcome. */
    method HandleFcmResult(alert: PublishedAlert, result: FcmResult)
      requires Valid()
      modifies this, alert
      ensures Valid()
      ensures alert.Row() == MergeFcm(old(alert.Row()), result)
      ensures store == Save(old(store), alert.Row())
      ensures events == old(events) + [ResultEventFor(alert.Row(), result.success)]
    {
      ApplyFcmResult(alert, result);
      store := Save(store, alert.Row());
      PublishResultToKafka(alert.Row(), result.success);
    }

    /** The setter calls of `handleFcmResult`: the channel's status and
        message id, the three counters, and, on failure, the error text. */
    method ApplyFcmResult(alert: PublishedAlert, result: FcmResult)
      modifies alert
      ensures alert.Row() == MergeFcm(old(alert.Row()), result)
    {
      ApplyFcmOutcome(alert, result);
      ApplyFcmCounts(alert, result);
      if !result.success {
        var errorMsg := AppendError(alert.errorMessage, result.message);
        alert.errorMessage := Some(errorMsg);
      }
    }

    method ApplyFcmOutcome(alert: PublishedAlert, result: FcmResult)
      modifies alert
      ensures alert.Row() == old(alert.Row()).(fcmStatus := if result.success then Success else Failed,
                                                fcmMessageId := result.messageId)
    {
      alert.fcmStatus := if result.success then Success else Failed;
      alert.fcmMessageId := result.messageId;
    }

    method ApplyFcmCounts(alert: PublishedAlert, result: FcmResult)
      modifies alert
      ensures alert.Row() == old(alert.Row()).(
        recipientCount := Add(old(alert.recipientCount), result.recipientCount),
        successCount := Add(old(alert.successCount), result.successCount),
        failureCount := Add(old(alert.failureCount), result.failureCount))
    {
      alert.recipientCount := Add(alert.recipientCount, result.recipientCount);
      alert.successCount := Add(alert.successCount, result.successCount);
      alert.failureCount := Add(alert.failureCount, result.failureCount);
    }

    /** `publishResultToKafka`: emits one event on the outcome's topic. */
    method PublishResultToKafka(row: AlertRow, success: bool)
      modifies this`events
      ensures events == old(events) + [ResultEventFor(row, success)]
    {
      events := events + [ResultEventFor(row, success)];
    }

    /** The body of the retry loop for one selected record: raise its retry
        count, stamp the retry time, save it, and dispatch again each of its
        channels whose status is FAILED. */
    method RetryRecord(k: string, now: Instant) returns (alert: PublishedAlert, added: seq<Dispatch>)
      requires Valid() && k in store
      modifies this
      ensures Valid()
      ensures fresh(alert)
      ensures alert.Row() == Bump(old(store)[k], now)
      ensures store == Save(old(store), alert.Row())
      ensures events == old(events)
      ensures added == Redrive(alert.Row(), alert)
    {
      alert := new PublishedAlert.Load(store[k]);
      alert.retryCount := Add(alert.retryCount, 1);
      alert.lastRetryAt := Some(now);
      store := Save(store, alert.Row());
      var alertMessage := RebuiltMessage(alert.Row());
      var cell: seq<Dispatch> := [];
      if alert.cellBroadcastStatus == Failed {
        cell := [Dispatch(alert.alertId, alert, CellBroadcastChannel, alertMessage)];
      }
      var fcm: seq<Dispatch> := [];
      if alert.fcmStatus == Failed {
        fcm := [Dispatch(alert.alertId, alert, FcmChannel, alertMessage)];
      }
      added := cell + fcm;
    }

    /** The loop of `retryFailedAlerts` over the records the query picked:
        each is handled by `RetryRecord`, in any order. */
    method RetryRecords(keys: set<string>, now: Instant)
      returns (dispatches: seq<Dispatch>, ghost entities: map<string, PublishedAlert>)
      requires Valid() && keys <= store.Keys
      modifies this
      ensures Valid()
      ensures store == PartialRetry(old(store), now, keys)
      ensures DispatchedIds(dispatches, CellBroadcastChannel)
           == PartialRedriven(old(store), keys, CellBroadcastChannel)
      ensures DispatchedIds(dispatches, FcmChannel) == PartialRedriven(old(store), keys, FcmChannel)
      ensures Tracked(dispatches, entities, old(store), keys)
      ensures CountsDeliveries(dispatches, old(store), keys)
      ensures forall j :: j in entities ==> fresh(entities[j]) && j in store && entities[j].Row() == store[j]
      ensures events == old(events)
    {
      var todo := keys;
      ghost var initial, done := store, {};
      entities := map[];
      dispatches := [];
      while todo != {}
        invariant Valid()
        invariant forall j :: j in keys <==> j in todo || j in done
        invariant forall j :: j in todo ==> j !in done
        invariant store == PartialRetry(initial, now, done)
        invariant DispatchedIds(dispatches, CellBroadcastChannel)
               == PartialRedriven(initial, done, CellBroadcastChannel)
        invariant DispatchedIds(dispatches, FcmChannel) == PartialRedriven(initial, done, FcmChannel)
        invariant Tracked(dispatches, entities, initial, done)
        invariant CountsDeliveries(dispatches, initial, done)
        invariant forall j :: j in entities ==> fresh(entities[j]) && j in store && entities[j].Row() == store[j]
        invariant events == old(events)
        decreases todo
      {
        var k :| k in todo;
        ghost var before := store;
        assert store[k] == initial[k];
        var alert, added := RetryRecord(k, now);
        RetryLoopStep(initial, now, done, k, before, store, alert, dispatches, added, entities);
        RetryLoopCount(initial, now, done, k, alert, dispatches, added);
        dispatches := dispatches + added;
        entities := entities[k := alert];
        todo := todo - {k};
        done := done + {k};
      }
      assert done == keys;
    }

    /** `retryFailedAlerts`: every record the retry query picks gets its
        retry count raised by one and its retry time set, and is saved; then
        each of its channels whose status is FAILED, and only those, is
        dispatched again with the alert rebuilt from the record. Statuses
        are left as they are until the new results are merged. */
    method RetryFailedAlerts(maxRetries: int32, now: Instant) returns (dispatches: seq<Dispatch>)
      requires Valid()
      modifies this
      ensures Valid()
      ensures store == RetryStore(old(store), maxRetries, now)
      ensures events == old(events)
      ensures DispatchedIds(dispatches, CellBroadcastChannel)
           == RedrivenIds(old(store), maxRetries, CellBroadcastChannel)
      ensures DispatchedIds(dispatches, FcmChannel)
           == RedrivenIds(old(store), maxRetries, FcmChannel)
      ensures |dispatches| == |RedrivenIds(old(store), maxRetries, CellBroadcastChannel)|
                            + |RedrivenIds(old(store), maxRetries, FcmChannel)|
      ensures forall i :: 0 <= i < |dispatches| ==> fresh(dispatches[i].alert)
      ensures forall i, j ::
        0 <= i < |dispatches| && 0 <= j < |dispatches| && dispatches[i].alertId == dispatches[j].alertId
        ==> dispatches[i].alert == dispatches[j].alert
      ensures forall i :: 0 <= i < |dispatches| ==>
        && dispatches[i].alertId in store
        && dispatches[i].alert.Row() == store[dispatches[i].alertId]
        && dispatches[i].message == RebuiltMessage(old(store)[dispatches[i].alertId])
    {
      var failedAlerts := FindAlertsForRetry(store, maxRetries);
      // The rows the query returned, by their (unique) alertId.
      var keys := KeysOfRows(store, failedAlerts);
      RetrySelection(store, maxRetries, failedAlerts, keys);
      ghost var initial := store;
      ghost var entities;
      dispatches, entities := RetryRecords(keys, now);
      PartialRetryComplete(initial, maxRetries, now, keys);
      RetryFinished(initial, now, keys, store, dispatches, entities);
    }
  }
}
