/** The counters of a record made by `PublishedAlert.builder()`. The entity
    declares its four counters as boxed `Integer`s initialised to 0, but
    the builder is not told to keep those initialisers, so a built record
    starts with all four null. This module models that starting point as
    written, shows what it does to the handlers and to the retry query, and
    relates it to the record the rest of the model creates, whose counters
    start at 0. */
module PublishedAlertBuilder {
  import opened Java
  import opened Alerts
  import opened PublishedAlerts
  import opened CellBroadcast
  import opened FirebaseMessaging
  import opened AlertPublisher

  /** The four boxed counter columns of a record; None is a null `Integer`. */
  datatype BoxedCounters = BoxedCounters(
    recipientCount: Option<int32>,
    successCount: Option<int32>,
    failureCount: Option<int32>,
    retryCount: Option<int32>)

  /** The counters the builder leaves on the record `publishAlert` saves:
      a field the builder is not given is null, the initialiser ignored. */
  function BuiltCountersAsWritten(): (c: BoxedCounters)
    ensures c.recipientCount.None? && c.successCount.None?
    ensures c.failureCount.None? && c.retryCount.None?
  {
    BoxedCounters(None, None, None, None)
  }

  /** The boxed counters of a record whose counters are all set. */
  function Boxed(row: AlertRow): (c: BoxedCounters)
    ensures c.recipientCount == Some(row.recipientCount) && c.successCount == Some(row.successCount)
    ensures c.failureCount == Some(row.failureCount) && c.retryCount == Some(row.retryCount)
  {
    BoxedCounters(Some(row.recipientCount), Some(row.successCount), Some(row.failureCount),
                  Some(row.retryCount))
  }

  /** `getter() + n` on an `Integer` counter: the counter is unboxed first,
      so a null counter throws (None) and a set one is added with wrap-around. */
  function UnboxedAdd(counter: Option<int32>, n: int32): (r: Option<int32>)
    ensures counter.None? <==> r.None?
    ensures counter.Some? ==> r == Some(Add(counter.value, n))
  {
    match counter
    case None => None
    case Some(v) => Some(Add(v, n))
  }

  /** The counter updates of `handleCellBroadcastResult` on boxed counters:
      None when an unboxing throws, which ends the handler before the record
      is saved or any result event is sent. */
  function MergeCellCountersAsWritten(c: BoxedCounters, result: CellBroadcastResult)
    : (r: Option<BoxedCounters>)
    ensures c.recipientCount.None? ==> r.None?
    ensures result.success && c.successCount.None? ==> r.None?
    ensures !result.success && c.failureCount.None? ==> r.None?
  {
    var recipients := UnboxedAdd(c.recipientCount, result.recipientCount);
    if recipients.None? then None
    else if result.success then
      var successes := UnboxedAdd(c.successCount, result.recipientCount);
      if successes.None? then None
      else Some(c.(recipientCount := recipients, successCount := successes))
    else
      var failures := UnboxedAdd(c.failureCount, 1);
      if failures.None? then None
      else Some(c.(recipientCount := recipients, failureCount := failures))
  }

  /** The counter updates of `handleFcmResult` on boxed counters. */
  function MergeFcmCountersAsWritten(c: BoxedCounters, result: FcmResult)
    : (r: Option<BoxedCounters>)
    ensures r.Some? <==>
      c.recipientCount.Some? && c.successCount.Some? && c.failureCount.Some?
  {
    var recipients := UnboxedAdd(c.recipientCount, result.recipientCount);
    var successes := UnboxedAdd(c.successCount, result.successCount);
    var failures := UnboxedAdd(c.failureCount, result.failureCount);
    if recipients.None? || successes.None? || failures.None? then None
    else Some(c.(recipientCount := recipients, successCount := successes,
                 failureCount := failures))
  }

  /** The retry query's `retryCount < :maxRetries` test in SQL: comparing a
      NULL column is unknown, so such a record is never selected. */
  predicate SelectedForRetryAsWritten(c: BoxedCounters, hasFailedChannel: bool,
                                      maxRetries: int32)
    ensures c.retryCount.None? ==> !SelectedForRetryAsWritten(c, hasFailedChannel, maxRetries)
    ensures c.retryCount.Some? ==>
      (SelectedForRetryAsWritten(c, hasFailedChannel, maxRetries)
       <==> hasFailedChannel && c.retryCount.value < maxRetries)
  {
    hasFailedChannel && c.retryCount.Some? && c.retryCount.value < maxRetries
  }

  /** As written, a record made by the builder can take no channel result:
      the first merge of either channel throws on the null recipient count,
      so the record stays IN_PROGRESS; and even with a FAILED channel the
      retry query never selects it, whatever the ceiling. */
  lemma BuilderRecordNeverMergesOrRetries(cell: CellBroadcastResult, fcm: FcmResult,
                                          maxRetries: int32)
    ensures MergeCellCountersAsWritten(BuiltCountersAsWritten(), cell).None?
    ensures MergeFcmCountersAsWritten(BuiltCountersAsWritten(), fcm).None?
    ensures !SelectedForRetryAsWritten(BuiltCountersAsWritten(), true, maxRetries)
  {
  }

  /** With the counters set, the as-written updates are the model's merges:
      the boxed arithmetic is the same `int` arithmetic once nothing is null. */
  lemma SetCountersMergeAsModelled(row: AlertRow, cell: CellBroadcastResult, fcm: FcmResult,
                                   maxRetries: int32)
    ensures MergeCellCountersAsWritten(Boxed(row), cell) == Some(Boxed(MergeCellBroadcast(row, cell)))
    ensures MergeFcmCountersAsWritten(Boxed(row), fcm) == Some(Boxed(MergeFcm(row, fcm)))
    ensures SelectedForRetryAsWritten(Boxed(row), row.cellBroadcastStatus == Failed
                                      || row.fcmStatus == Failed, maxRetries)
        <==> IsRetryCandidate(row, maxRetries)
  {
    var m := MergeCellBroadcast(row, cell);
    assert Boxed(m).retryCount == Some(row.retryCount);
    var f := MergeFcm(row, fcm);
    assert Boxed(f).retryCount == Some(row.retryCount);
  }

  /** The record the model creates instead, with every counter 0: its first
      merge of either channel counts exactly that result, and a failed
      channel makes it a retry candidate for any positive ceiling. */
  lemma CorrectedRecordMergesAndRetries(msg: AlertMessage, now: Instant,
                                        cell: CellBroadcastResult, fcm: FcmResult,
                                        maxRetries: int32)
    requires maxRetries > 0
    ensures var r := MergeCellBroadcast(NewRecord(msg, now), cell);
      && r.recipientCount == cell.recipientCount
      && r.successCount == (if cell.success then cell.recipientCount else 0)
      && r.failureCount == (if cell.success then 0 else 1)
      && (IsRetryCandidate(r, maxRetries) <==> !cell.success)
    ensures var r := MergeFcm(NewRecord(msg, now), fcm);
      && r.recipientCount == fcm.recipientCount && r.successCount == fcm.successCount
      && r.failureCount == fcm.failureCount
      && (IsRetryCandidate(r, maxRetries) <==> !fcm.success)
  {
  }
}
