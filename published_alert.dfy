/** The tracking record: one row per alert identity, its publishing status
    per channel, the aggregate counters and the retry bookkeeping. */
module PublishedAlerts {
  import opened Java
  import opened Alerts

  /** The status of one channel for one alert. */
  datatype PublishStatus = Pending | InProgress | Success | Failed | Skipped

  /** The text a status is stored as (the column is mapped by name). */
  function StatusName(s: PublishStatus): (name: string)
    ensures name in ["PENDING", "IN_PROGRESS", "SUCCESS", "FAILED", "SKIPPED"]
    ensures name == "SUCCESS" <==> s == Success
    ensures name == "FAILED" <==> s == Failed
  {
    match s
    case Pending => "PENDING"
    case InProgress => "IN_PROGRESS"
    case Success => "SUCCESS"
    case Failed => "FAILED"
    case Skipped => "SKIPPED"
  }

  /** `PublishStatus.valueOf`: the status stored under a name, None for a
      name that is not one of the five. */
  function ParseStatus(name: string): (r: Option<PublishStatus>)
    ensures r.Some? ==> StatusName(r.value) == name
  {
    if name == "PENDING" then Some(Pending)
    else if name == "IN_PROGRESS" then Some(InProgress)
    else if name == "SUCCESS" then Some(Success)
    else if name == "FAILED" then Some(Failed)
    else if name == "SKIPPED" then Some(Skipped)
    else None
  }

  /** A stored status reads back as itself. */
  lemma StatusNameRoundTrip(s: PublishStatus)
    ensures ParseStatus(StatusName(s)) == Some(s)
  {
    match s
    case Pending =>
    case InProgress =>
    case Success =>
    case Failed =>
    case Skipped =>
  }

  /** Distinct statuses are stored under distinct names, so comparing the
      stored text with 'FAILED' is comparing the status with Failed. */
  lemma StatusNameInjective(a: PublishStatus, b: PublishStatus)
    requires StatusName(a) == StatusName(b)
    ensures a == b
  {
    StatusNameRoundTrip(a);
    StatusNameRoundTrip(b);
  }

  /** There are exactly five statuses, named as listed. */
  lemma FiveStatuses(name: string)
    ensures ParseStatus(name).Some? <==>
      name in ["PENDING", "IN_PROGRESS", "SUCCESS", "FAILED", "SKIPPED"]
  {
  }

  /** The persisted row: the value `save` writes for an entity. */
  datatype AlertRow = AlertRow(
    alertId: string,
    severity: string,
    alertType: string,
    message: Option<string>,
    details: Option<string>,
    detectedAt: Instant,
    publishedAt: Instant,
    cellBroadcastStatus: PublishStatus,
    fcmStatus: PublishStatus,
    cellBroadcastMessageId: Option<string>,
    fcmMessageId: Option<string>,
    recipientCount: int32,
    successCount: int32,
    failureCount: int32,
    errorMessage: Option<string>,
    retryCount: int32,
    lastRetryAt: Option<Instant>)

  /** The mutable entity the service updates field by field. The five
      required columns (alertId, severity, alertType, detectedAt,
      publishedAt) are never null; the other reference-typed fields may be. */
  class PublishedAlert {
    var alertId: string
    var severity: string
    var alertType: string
    var message: Option<string>
    var details: Option<string>
    var detectedAt: Instant
    var publishedAt: Instant
    var cellBroadcastStatus: PublishStatus
    var fcmStatus: PublishStatus
    var cellBroadcastMessageId: Option<string>
    var fcmMessageId: Option<string>
    var recipientCount: int32
    var successCount: int32
    var failureCount: int32
    var errorMessage: Option<string>
    var retryCount: int32
    var lastRetryAt: Option<Instant>

    /** The row saving this entity writes. */
    function Row(): (r: AlertRow)
      reads this
      ensures r.alertId == alertId
    {
      AlertRow(alertId, severity, alertType, message, details, detectedAt, publishedAt,
               cellBroadcastStatus, fcmStatus, cellBroadcastMessageId, fcmMessageId,
               recipientCount, successCount, failureCount, errorMessage,
               retryCount, lastRetryAt)
    }

    /** `new PublishedAlert()` with the required columns then set: every other
        field holds its declared initial value. */
    constructor (alertId: string, severity: string, alertType: string,
                 detectedAt: Instant, publishedAt: Instant)
      ensures this.alertId == alertId && this.severity == severity && this.alertType == alertType
      ensures this.detectedAt == detectedAt && this.publishedAt == publishedAt
      ensures cellBroadcastStatus == Pending && fcmStatus == Pending
      ensures recipientCount == 0 && successCount == 0 && failureCount == 0 && retryCount == 0
      ensures message == None && details == None && errorMessage == None && lastRetryAt == None
      ensures cellBroadcastMessageId == None && fcmMessageId == None
    {
      this.alertId := alertId;
      this.severity := severity;
      this.alertType := alertType;
      this.detectedAt := detectedAt;
      this.publishedAt := publishedAt;
      message, details := None, None;
      cellBroadcastStatus, fcmStatus := Pending, Pending;
      cellBroadcastMessageId, fcmMessageId := None, None;
      recipientCount, successCount, failureCount := 0, 0, 0;
      errorMessage := None;
      retryCount := 0;
      lastRetryAt := None;
    }

    /** `PublishedAlert.builder()...build()` with the nine columns the
        service sets, and every other field at its declared initial value
        (as `@Builder.Default` would keep it). */
    constructor Built(alertId: string, severity: string, alertType: string,
                      message: Option<string>, details: Option<string>,
                      detectedAt: Instant, publishedAt: Instant,
                      cellBroadcastStatus: PublishStatus, fcmStatus: PublishStatus)
      ensures Row() == AlertRow(alertId, severity, alertType, message, details, detectedAt,
                                publishedAt, cellBroadcastStatus, fcmStatus, None, None,
                                0, 0, 0, None, 0, None)
    {
      this.alertId, this.severity, this.alertType := alertId, severity, alertType;
      this.message, this.details := message, details;
      this.detectedAt, this.publishedAt := detectedAt, publishedAt;
      this.cellBroadcastStatus, this.fcmStatus := cellBroadcastStatus, fcmStatus;
      cellBroadcastMessageId, fcmMessageId := None, None;
      recipientCount, successCount, failureCount := 0, 0, 0;
      errorMessage := None;
      retryCount, lastRetryAt := 0, None;
    }

    /** The entity the persistence layer materialises from a stored row. */
    constructor Load(row: AlertRow)
      ensures Row() == row
    {
      alertId, severity, alertType := row.alertId, row.severity, row.alertType;
      message, details := row.message, row.details;
      detectedAt, publishedAt := row.detectedAt, row.publishedAt;
      cellBroadcastStatus, fcmStatus := row.cellBroadcastStatus, row.fcmStatus;
      cellBroadcastMessageId, fcmMessageId := row.cellBroadcastMessageId, row.fcmMessageId;
      recipientCount, successCount, failureCount := row.recipientCount, row.successCount, row.failureCount;
      errorMessage := row.errorMessage;
      retryCount, lastRetryAt := row.retryCount, row.lastRetryAt;
    }
  }
}
