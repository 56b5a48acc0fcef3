/** Properties of the publishing lifecycle that relate several operations:
    idempotent intake, which fields each merge touches, what a disabled
    channel leaves behind, how the counters grow, how far the two merges
    commute, and what a retry round does to a record. */
module AlertPublisherProperties {
  import opened Java
  import opened Alerts
  import opened PublishedAlerts
  import opened CellBroadcast
  import opened FirebaseMessaging
  import opened Repository
  import opened AlertPublisher

  // ---------------------------------------------------------------------
  // Intake

  /** Publishing the same alert again, at any later time, changes nothing. */
  lemma PublishStepIdempotent(store: Store, msg: AlertMessage, now: Instant, later: Instant)
    ensures PublishStep(PublishStep(store, msg, now), msg, later) == PublishStep(store, msg, now)
  {
  }

  /** Intake never overwrites a record: every record already tracked is
      kept as it was, and the only record it can add is the new one. */
  lemma PublishStepKeepsRecords(store: Store, msg: AlertMessage, now: Instant, k: string)
    requires k in store
    ensures k in PublishStep(store, msg, now) && PublishStep(store, msg, now)[k] == store[k]
  {
  }

  // ---------------------------------------------------------------------
  // What each merge touches

  /** The cell broadcast merge writes only the cell broadcast status and
      message id, the three counters and the error text: the FCM status
      and message id, the alert's own columns and the retry bookkeeping
      are left as they were. */
  lemma CellMergeFrame(row: AlertRow, result: CellBroadcastResult)
    ensures var r := MergeCellBroadcast(row, result);
      && r.fcmStatus == row.fcmStatus && r.fcmMessageId == row.fcmMessageId
      && r.(cellBroadcastStatus := row.cellBroadcastStatus,
            cellBroadcastMessageId := row.cellBroadcastMessageId,
            recipientCount := row.recipientCount, successCount := row.successCount,
            failureCount := row.failureCount, errorMessage := row.errorMessage) == row
  {
  }

  /** The FCM merge writes only the FCM status and message id, the three
      counters and the error text. */
  lemma FcmMergeFrame(row: AlertRow, result: FcmResult)
    ensures var r := MergeFcm(row, result);
      && r.cellBroadcastStatus == row.cellBroadcastStatus
      && r.cellBroadcastMessageId == row.cellBroadcastMessageId
      && r.(fcmStatus := row.fcmStatus, fcmMessageId := row.fcmMessageId,
            recipientCount := row.recipientCount, successCount := row.successCount,
            failureCount := row.failureCount, errorMessage := row.errorMessage) == row
  {
  }

  /** A merge leaves its channel SUCCESS or FAILED: no handler ever records
      SKIPPED, PENDING or IN_PROGRESS. */
  lemma MergesNeverSkip(row: AlertRow, cell: CellBroadcastResult, fcm: FcmResult)
    ensures MergeCellBroadcast(row, cell).cellBroadcastStatus in {Success, Failed}
    ensures MergeFcm(row, fcm).fcmStatus in {Success, Failed}
  {
  }

  /** A disabled cell broadcast channel counts as a success: the record
      shows SUCCESS under the "SKIPPED-" id, and no counter or error text
      changes. */
  lemma DisabledCellBroadcastCountsAsSuccess(row: AlertRow, alert: AlertMessage,
                                             attempt: ChannelAttempt, quakeEstimate: int32)
    ensures var r := MergeCellBroadcast(row, Broadcast(false, alert, attempt, quakeEstimate));
      && r.cellBroadcastStatus == Success
      && r.cellBroadcastMessageId == Some("SKIPPED-" + AlertLabel(alert))
      && r.recipientCount == row.recipientCount && r.successCount == row.successCount
      && r.failureCount == row.failureCount && r.errorMessage == row.errorMessage
  {
  }

  /** A disabled FCM channel counts as a success in the same way. */
  lemma DisabledFcmCountsAsSuccess(row: AlertRow, alert: AlertMessage, attempt: ChannelAttempt)
    ensures var r := MergeFcm(row, SendNotification(false, alert, attempt));
      && r.fcmStatus == Success && r.fcmMessageId == Some("SKIPPED-" + alert.alertId)
      && r.recipientCount == row.recipientCount && r.successCount == row.successCount
      && r.failureCount == row.failureCount && r.errorMessage == row.errorMessage
  {
  }

  // ---------------------------------------------------------------------
  // Counters

  /** With a non-negative audience and no `int` overflow, the cell merge
      never lowers a counter, and it adds exactly one failure per failed
      result. */
  lemma CellMergeCountersGrow(row: AlertRow, result: CellBroadcastResult)
    requires result.recipientCount >= 0
    requires row.recipientCount as int + result.recipientCount as int <= INT_MAX
    requires row.successCount as int + result.recipientCount as int <= INT_MAX
    requires row.failureCount as int < INT_MAX
    ensures var r := MergeCellBroadcast(row, result);
      && r.recipientCount >= row.recipientCount
      && r.successCount >= row.successCount
      && r.failureCount as int == row.failureCount as int + (if result.success then 0 else 1)
  {
  }

  /** With non-negative result counts and no `int` overflow, the FCM merge
      never lowers a counter. */
  lemma FcmMergeCountersGrow(row: AlertRow, result: FcmResult)
    requires result.recipientCount >= 0 && result.successCount >= 0 && result.failureCount >= 0
    requires row.recipientCount as int + result.recipientCount as int <= INT_MAX
    requires row.successCount as int + result.successCount as int <= INT_MAX
    requires row.failureCount as int + result.failureCount as int <= INT_MAX
    ensures var r := MergeFcm(row, result);
      && r.recipientCount >= row.recipientCount
      && r.successCount >= row.successCount
      && r.failureCount >= row.failureCount
  {
  }

  /** Without the no-overflow hypothesis the counters are not monotone: a
      recipient count at `Integer.MAX_VALUE` wraps to a negative value when
      any audience is added. */
  lemma RecipientCountWraps(row: AlertRow, result: CellBroadcastResult)
    requires row.recipientCount as int == INT_MAX && result.recipientCount > 0
    ensures MergeCellBroadcast(row, result).recipientCount < 0
  {
  }

  // ---------------------------------------------------------------------
  // Order of the two merges

  /** The two channel results can be merged in either order: the records
      agree on everything but the error text, overflow included. */
  lemma MergeOrderAgreesExceptError(row: AlertRow, cell: CellBroadcastResult, fcm: FcmResult)
    ensures var a := MergeFcm(MergeCellBroadcast(row, cell), fcm);
            var b := MergeCellBroadcast(MergeFcm(row, fcm), cell);
      a.(errorMessage := b.errorMessage) == b
  {
    var a := MergeFcm(MergeCellBroadcast(row, cell), fcm);
    var b := MergeCellBroadcast(MergeFcm(row, fcm), cell);
    AddSwap(row.recipientCount, cell.recipientCount, fcm.recipientCount);
    assert a.recipientCount == b.recipientCount;
    if cell.success {
      AddSwap(row.successCount, cell.recipientCount, fcm.successCount);
      assert a.successCount == b.successCount;
      assert a.failureCount == b.failureCount;
    } else {
      AddSwap(row.failureCount, 1, fcm.failureCount);
      assert a.successCount == b.successCount;
      assert a.failureCount == b.failureCount;
    }
  }

  /** The error text is order-independent exactly when at least one of the
      two channels succeeded: when both fail, the later cell broadcast
      failure replaces the FCM text, while the later FCM failure appends to
      the cell broadcast text. */
  lemma ErrorOrderIndependentIff(row: AlertRow, cell: CellBroadcastResult, fcm: FcmResult)
    ensures MergeFcm(MergeCellBroadcast(row, cell), fcm).errorMessage
         == MergeCellBroadcast(MergeFcm(row, fcm), cell).errorMessage
        <==> cell.success || fcm.success
  {
    if !cell.success && !fcm.success {
      var joined := AppendError(Some(cell.message), fcm.message);
      assert MergeFcm(MergeCellBroadcast(row, cell), fcm).errorMessage == Some(joined);
      assert MergeCellBroadcast(MergeFcm(row, fcm), cell).errorMessage == Some(cell.message);
      assert |joined| > |cell.message|;
    }
  }

  /** A HIGH non-earthquake alert whose broadcast is delivered and whose
      push notification is rejected ends, in either order, with the cell
      broadcast audience counted, one failure, the FCM error text, and the
      record picked by the next retry round. */
  lemma PartialFailureScenario(msg: AlertMessage, now: Instant, millis: nat,
                               quakeEstimate: int32, maxRetries: int32)
    requires msg.severity == "HIGH" && msg.alertType != "EARTHQUAKE" && maxRetries > 0
    ensures var row := NewRecord(msg, now);
            var cell := Broadcast(true, msg, Delivered(millis), quakeEstimate);
            var fcm := SendNotification(true, msg, Rejected);
            var r := MergeFcm(MergeCellBroadcast(row, cell), fcm);
      && r == MergeCellBroadcast(MergeFcm(row, fcm), cell)
      && r.cellBroadcastStatus == Success && r.fcmStatus == Failed
      && r.recipientCount == 1000000 && r.successCount == 1000000 && r.failureCount == 1
      && r.errorMessage == Some("FCM error: Invalid registration token")
      && r.fcmMessageId == None
      && IsRetryCandidate(r, maxRetries)
  {
    var row := NewRecord(msg, now);
    var cell := Broadcast(true, msg, Delivered(millis), quakeEstimate);
    var fcm := SendNotification(true, msg, Rejected);
    assert cell.recipientCount == 1000000;
    MergeOrderAgreesExceptError(row, cell, fcm);
  }

  // ---------------------------------------------------------------------
  // Retry

  /** A record a retry round picks has its retry count raised by exactly
      one (it was below the ceiling, so it cannot overflow) and its retry
      time set; its statuses and message ids are kept. */
  lemma RetryBumpsOnce(store: Store, maxRetries: int32, now: Instant, k: string)
    requires k in store && IsRetryCandidate(store[k], maxRetries)
    ensures var r := RetryStore(store, maxRetries, now)[k];
      && r.retryCount as int == store[k].retryCount as int + 1
      && r.retryCount <= maxRetries
      && r.lastRetryAt == Some(now)
      && r.cellBroadcastStatus == store[k].cellBroadcastStatus
      && r.fcmStatus == store[k].fcmStatus
      && r.cellBroadcastMessageId == store[k].cellBroadcastMessageId
      && r.fcmMessageId == store[k].fcmMessageId
  {
  }

  /** A record at or above the ceiling is neither changed nor re-driven. */
  lemma RetryCeilingRespected(store: Store, maxRetries: int32, now: Instant, k: string,
                              channel: Channel)
    requires k in store && store[k].retryCount >= maxRetries
    ensures RetryStore(store, maxRetries, now)[k] == store[k]
    ensures k !in RedrivenIds(store, maxRetries, channel)
  {
  }

  /** A channel that has not failed is never re-driven. */
  lemma HealthyChannelNotRedriven(store: Store, maxRetries: int32, k: string, channel: Channel)
    requires k in store && StatusOf(store[k], channel) != Failed
    ensures k !in RedrivenIds(store, maxRetries, channel)
  {
  }

  /** A record whose broadcast succeeded and whose notification failed has
      only its notification re-driven. */
  lemma RetryScenario(store: Store, maxRetries: int32, k: string)
    requires k in store && store[k].cellBroadcastStatus == Success
    requires store[k].fcmStatus == Failed && store[k].retryCount < maxRetries
    ensures k !in RedrivenIds(store, maxRetries, CellBroadcastChannel)
    ensures k in RedrivenIds(store, maxRetries, FcmChannel)
  {
  }

  /** The store after one retry round per clock reading in `times`, with no
      channel results merged in between. */
  function RetryRounds(store: Store, maxRetries: int32, times: seq<Instant>): (s: Store)
    ensures s.Keys == store.Keys
    decreases |times|
  {
    if times == [] then store
    else RetryRounds(RetryStore(store, maxRetries, times[0]), maxRetries, times[1..])
  }

  /** However many retry rounds run, a record's retry count never passes the
      ceiling, never drops, and rises by at most one per round. */
  lemma {:induction false} RetryRoundsBounded(store: Store, maxRetries: int32,
                                              times: seq<Instant>, k: string)
    requires k in store && 0 <= store[k].retryCount <= maxRetries
    ensures var n := RetryRounds(store, maxRetries, times)[k].retryCount;
      && store[k].retryCount <= n <= maxRetries
      && n as int <= store[k].retryCount as int + |times|
    decreases |times|
  {
    if times != [] {
      var next := RetryStore(store, maxRetries, times[0]);
      assert next[k].retryCount as int <= store[k].retryCount as int + 1;
      assert store[k].retryCount <= next[k].retryCount <= maxRetries;
      RetryRoundsBounded(next, maxRetries, times[1..], k);
    }
  }

  /** The alert a retry re-sends has no UUID and no magnitude, so the cell
      broadcast adapter labels it "UNKNOWN" and sizes it by severity, even
      for an earthquake. */
  lemma RebuiltMessageEstimate(row: AlertRow, attempt: ChannelAttempt, quakeEstimate: int32)
    ensures AlertLabel(RebuiltMessage(row)) == "UNKNOWN"
    ensures Broadcast(false, RebuiltMessage(row), attempt, quakeEstimate).messageId
         == Some("SKIPPED-UNKNOWN")
    ensures CalculateRecipientCount(RebuiltMessage(row), quakeEstimate)
         == SeverityBasedRecipients(row.severity)
  {
    assert "SKIPPED-" + "UNKNOWN" == "SKIPPED-UNKNOWN";
  }
}
