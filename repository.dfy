/** The tracking store and the queries run against it. The store is the
    published_alert table, indexed by its unique alertId column; each query
    is the set of rows (or the number of rows) its condition selects. */
module Repository {
  import opened Java
  import opened Alerts
  import opened PublishedAlerts

  type Store = map<string, AlertRow>

  /** Every row is filed under its own alertId, so alertId is unique. */
  predicate Keyed(store: Store) {
    forall k :: k in store ==> store[k].alertId == k
  }

  /** `save`: the row replaces any row with the same alertId, or is added. */
  function Save(store: Store, row: AlertRow): (s: Store)
    ensures forall k :: k in s <==> k in store || k == row.alertId
    ensures s[row.alertId] == row
    ensures forall k :: k in store && k != row.alertId ==> s[k] == store[k]
  {
    store[row.alertId := row]
  }

  /** Saving keeps the store keyed, and adds a row exactly when its alertId
      was not yet tracked. */
  lemma SaveShape(store: Store, row: AlertRow)
    ensures Save(store, row).Keys == store.Keys + {row.alertId}
    ensures Keyed(store) ==> Keyed(Save(store, row))
    ensures row.alertId !in store ==> |Save(store, row)| == |store| + 1
    ensures row.alertId in store ==> |Save(store, row)| == |store|
  {
  }

  function FindByAlertId(store: Store, alertId: string): (r: Option<AlertRow>)
    ensures r.Some? <==> alertId in store
    ensures r.Some? ==> r.value in store.Values
    ensures Keyed(store) && r.Some? ==> r.value.alertId == alertId
  {
    if alertId in store then Some(store[alertId]) else None
  }

  /** In a keyed store at most one row has a given alertId, and the lookup
      returns it. */
  lemma FindByAlertIdUnique(store: Store, alertId: string, row: AlertRow)
    requires Keyed(store)
    ensures FindByAlertId(store, alertId) == Some(row) <==>
      row in store.Values && row.alertId == alertId
  {
    if row in store.Values && row.alertId == alertId {
      var k :| k in store && store[k] == row;
    }
  }

  function FindBySeverity(store: Store, severity: string): (rows: set<AlertRow>)
    ensures forall r :: r in rows <==> r in store.Values && r.severity == severity
  {
    set r | r in store.Values && r.severity == severity
  }

  function FindByAlertType(store: Store, alertType: string): (rows: set<AlertRow>)
    ensures forall r :: r in rows <==> r in store.Values && r.alertType == alertType
  {
    set r | r in store.Values && r.alertType == alertType
  }

  /** BETWEEN includes both bounds. */
  function FindByPublishedAtBetween(store: Store, startDate: Instant, endDate: Instant)
    : (rows: set<AlertRow>)
    ensures forall r :: r in rows <==> r in store.Values && startDate <= r.publishedAt <= endDate
  {
    set r | r in store.Values && startDate <= r.publishedAt && r.publishedAt <= endDate
  }

  /** The failure condition as the queries write it, on the stored names. */
  predicate HasFailedChannel(row: AlertRow) {
    StatusName(row.cellBroadcastStatus) == "FAILED" || StatusName(row.fcmStatus) == "FAILED"
  }

  /** Comparing stored names with 'FAILED' selects exactly the rows where a
      channel's status is Failed. */
  lemma HasFailedChannelMeansFailed(row: AlertRow)
    ensures HasFailedChannel(row) <==> row.cellBroadcastStatus == Failed || row.fcmStatus == Failed
  {
    if StatusName(row.cellBroadcastStatus) == "FAILED" {
      StatusNameInjective(row.cellBroadcastStatus, Failed);
    }
    if StatusName(row.fcmStatus) == "FAILED" {
      StatusNameInjective(row.fcmStatus, Failed);
    }
  }

  function FindFailedAlerts(store: Store): (rows: set<AlertRow>)
    ensures forall r :: r in rows <==>
      r in store.Values && (r.cellBroadcastStatus == Failed || r.fcmStatus == Failed)
  {
    forall r ensures HasFailedChannel(r) <==> r.cellBroadcastStatus == Failed || r.fcmStatus == Failed {
      HasFailedChannelMeansFailed(r);
    }
    set r | r in store.Values && HasFailedChannel(r)
  }

  /** The rows a retry round picks: some channel failed and the retry count
      is still below the ceiling. */
  function FindAlertsForRetry(store: Store, maxRetries: int32): (rows: set<AlertRow>)
    ensures forall r :: r in rows <==>
      && r in store.Values
      && (r.cellBroadcastStatus == Failed || r.fcmStatus == Failed)
      && r.retryCount < maxRetries
  {
    forall r ensures HasFailedChannel(r) <==> r.cellBroadcastStatus == Failed || r.fcmStatus == Failed {
      HasFailedChannelMeansFailed(r);
    }
    set r | r in store.Values && HasFailedChannel(r) && r.retryCount < maxRetries
  }

  /** Every row picked for retry is a failed row, and no row that has used
      up its retries is picked. */
  lemma RetryRowsAreFailedRowsBelowCeiling(store: Store, maxRetries: int32, row: AlertRow)
    ensures FindAlertsForRetry(store, maxRetries) <= FindFailedAlerts(store)
    ensures row.retryCount >= maxRetries ==> row !in FindAlertsForRetry(store, maxRetries)
  {
  }

  /** The rows `publishedAt > :since` selects (strictly after the instant). */
  function PublishedSince(store: Store, since: Instant): (keys: set<string>)
    ensures forall k :: k in keys <==> k in store && store[k].publishedAt > since
  {
    set k | k in store && store[k].publishedAt > since
  }

  /** The rows whose cell broadcast status is stored as 'SUCCESS' and that
      were published strictly after `since`. */
  function CellBroadcastSuccessSince(store: Store, since: Instant): (keys: set<string>)
    ensures forall k :: k in keys <==>
      k in store && store[k].cellBroadcastStatus == Success && store[k].publishedAt > since
  {
    forall k | k in store ensures StatusName(store[k].cellBroadcastStatus) == "SUCCESS"
                                  <==> store[k].cellBroadcastStatus == Success {
      if StatusName(store[k].cellBroadcastStatus) == "SUCCESS" {
        StatusNameInjective(store[k].cellBroadcastStatus, Success);
      }
    }
    set k | k in store && StatusName(store[k].cellBroadcastStatus) == "SUCCESS"
                       && store[k].publishedAt > since
  }

  /** The rows whose FCM status is stored as 'SUCCESS' and that were
      published strictly after `since`. */
  function FcmSuccessSince(store: Store, since: Instant): (keys: set<string>)
    ensures forall k :: k in keys <==>
      k in store && store[k].fcmStatus == Success && store[k].publishedAt > since
  {
    forall k | k in store ensures StatusName(store[k].fcmStatus) == "SUCCESS"
                                  <==> store[k].fcmStatus == Success {
      if StatusName(store[k].fcmStatus) == "SUCCESS" {
        StatusNameInjective(store[k].fcmStatus, Success);
      }
    }
    set k | k in store && StatusName(store[k].fcmStatus) == "SUCCESS"
                       && store[k].publishedAt > since
  }

  /** `countPublishedSince`: the number of rows published strictly after
      `since`; at most every row, and every row when all were published
      after `since`. */
  function CountPublishedSince(store: Store, since: Instant): (n: nat)
    ensures n == |PublishedSince(store, since)|
    ensures n <= |store|
    ensures (forall k :: k in store ==> store[k].publishedAt > since) ==> n == |store|
  {
    var rows := PublishedSince(store, since);
    SubsetCardinality(rows, store.Keys);
    assert (forall k :: k in store ==> store[k].publishedAt > since) ==> rows == store.Keys;
    |rows|
  }

  /** `countCellBroadcastSuccessSince`: the number of rows with cell
      broadcast SUCCESS published strictly after `since`. */
  function CountCellBroadcastSuccessSince(store: Store, since: Instant): (n: nat)
    ensures n == |CellBroadcastSuccessSince(store, since)|
    ensures n <= |store|
    ensures (forall k :: k in store ==> store[k].cellBroadcastStatus != Success) ==> n == 0
  {
    var rows := CellBroadcastSuccessSince(store, since);
    SubsetCardinality(rows, store.Keys);
    assert (forall k :: k in store ==> store[k].cellBroadcastStatus != Success) ==> rows == {};
    |rows|
  }

  /** `countFcmSuccessSince`: the number of rows with FCM SUCCESS published
      strictly after `since`. */
  function CountFcmSuccessSince(store: Store, since: Instant): (n: nat)
    ensures n == |FcmSuccessSince(store, since)|
    ensures n <= |store|
    ensures (forall k :: k in store ==> store[k].fcmStatus != Success) ==> n == 0
  {
    var rows := FcmSuccessSince(store, since);
    SubsetCardinality(rows, store.Keys);
    assert (forall k :: k in store ==> store[k].fcmStatus != Success) ==> rows == {};
    |rows|
  }

  /** The window is open at `since`: a new row published exactly at `since`
      is not counted, while one published after it is counted once. */
  lemma CountPublishedSinceBoundary(store: Store, since: Instant, row: AlertRow)
    requires row.alertId !in store
    ensures row.publishedAt == since ==>
      CountPublishedSince(Save(store, row), since) == CountPublishedSince(store, since)
    ensures row.publishedAt > since ==>
      CountPublishedSince(Save(store, row), since) == CountPublishedSince(store, since) + 1
  {
    var before := PublishedSince(store, since);
    var after := PublishedSince(Save(store, row), since);
    if row.publishedAt == since {
      assert after == before;
    } else if row.publishedAt > since {
      assert after == before + {row.alertId};
    }
  }

  lemma SubsetCardinality<T>(a: set<T>, b: set<T>)
    requires a <= b
    ensures |a| <= |b|
  {
    assert b == a + (b - a);
  }

  /** Neither channel's success count over a window exceeds the number of
      alerts published in that window, so the success rates are at most 100%. */
  lemma SuccessCountsAtMostPublished(store: Store, since: Instant)
    ensures CountCellBroadcastSuccessSince(store, since) <= CountPublishedSince(store, since)
    ensures CountFcmSuccessSince(store, since) <= CountPublishedSince(store, since)
  {
    SubsetCardinality(CellBroadcastSuccessSince(store, since), PublishedSince(store, since));
    SubsetCardinality(FcmSuccessSince(store, since), PublishedSince(store, since));
  }
}
