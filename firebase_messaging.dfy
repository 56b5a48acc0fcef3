/** The push notification (FCM) channel adapter: its result shapes, its
    audience estimate and the notification attributes derived from the
    alert's severity. */
module FirebaseMessaging {
  import opened Java
  import opened Alerts

  /** What the adapter reports back for one alert. */
  datatype FcmResult = FcmResult(
    success: bool,
    messageId: Option<string>,
    recipientCount: int32,
    successCount: int32,
    failureCount: int32,
    message: string)

  /** Android delivery priority. */
  datatype AndroidPriority = High | Normal

  /** Estimated subscriber count by severity level. */
  function CalculateFcmRecipients(alert: AlertMessage): (n: int32)
    ensures n >= 10000
    ensures SeverityRank(alert.severity) == 3 <==> n == 500000
    ensures SeverityRank(alert.severity) == 2 <==> n == 200000
    ensures SeverityRank(alert.severity) == 1 <==> n == 50000
    ensures SeverityRank(alert.severity) == 0 <==> n == 10000
  {
    match alert.severity
    case "CRITICAL" => 500000
    case "HIGH" => 200000
    case "MEDIUM" => 50000
    case _ => 10000
  }

  /** A more severe alert is estimated to reach at least as many subscribers. */
  lemma CalculateFcmRecipientsMonotone(a: AlertMessage, b: AlertMessage)
    requires SeverityRank(a.severity) <= SeverityRank(b.severity)
    ensures CalculateFcmRecipients(a) <= CalculateFcmRecipients(b)
  {
    var ra, na := SeverityRank(a.severity), CalculateFcmRecipients(a);
    var rb, nb := SeverityRank(b.severity), CalculateFcmRecipients(b);
    assert na == [10000, 50000, 200000, 500000][ra];
    assert nb == [10000, 50000, 200000, 500000][rb];
  }

  function GetPriority(severity: string): (p: AndroidPriority)
    ensures p == High <==> SeverityRank(severity) >= 2
  {
    if severity == "CRITICAL" || severity == "HIGH" then High else Normal
  }

  /** High priority is given exactly to the alerts with the two largest
      estimated audiences. */
  lemma HighPriorityIffLargeAudience(alert: AlertMessage)
    ensures GetPriority(alert.severity) == High <==> CalculateFcmRecipients(alert) >= 200000
  {
  }

  /** The Android notification channel: "alerts_" and the lower-cased severity. */
  function GetChannelId(severity: string): (id: string)
    ensures |id| == 7 + |severity|
    ensures id[..7] == "alerts_"
    ensures forall i :: 0 <= i < |severity| ==> id[7 + i] == LowerChar(severity[i])
  {
    "alerts_" + ToLowerCase(severity)
  }

  /** Severities that differ only in letter case share one channel. */
  lemma ChannelIdIgnoresCase(severity: string)
    ensures GetChannelId(ToLowerCase(severity)) == GetChannelId(severity)
  {
    ToLowerCaseIdempotent(severity);
  }

  /** The notification title "[<severity>] <alertType> Alert". */
  function BuildNotificationTitle(alert: AlertMessage): (title: string)
    ensures |title| == |alert.severity| + |alert.alertType| + 9
  {
    "[" + alert.severity + "] " + alert.alertType + " Alert"
  }

  /** The title shows the severity in brackets, then the alert type, then
      " Alert": both fields can be read back from it. */
  lemma TitleShowsSeverityAndType(alert: AlertMessage)
    ensures var t, s := BuildNotificationTitle(alert), |alert.severity|;
      && t[0] == '[' && t[1..s + 1] == alert.severity && t[s + 1..s + 3] == "] "
      && t[s + 3..|t| - 6] == alert.alertType && t[|t| - 6..] == " Alert"
  {
    var t, s := BuildNotificationTitle(alert), |alert.severity|;
    assert t == "[" + alert.severity + "] " + alert.alertType + " Alert";
    assert t[1..s + 1] == alert.severity;
    assert t[s + 3..|t| - 6] == alert.alertType;
  }

  /** The simulated delivery: a delivered attempt reports every estimated
      subscriber as reached under an "FCM-" id; a rejection or an exception
      reports one failure and nobody reached. */
  function SimulatedNotification(alert: AlertMessage, attempt: ChannelAttempt): (r: FcmResult)
    ensures r.success <==> attempt.Delivered?
    ensures r.success ==>
      && r.recipientCount == CalculateFcmRecipients(alert)
      && r.successCount == r.recipientCount && r.failureCount == 0
      && r.messageId.Some? && |r.messageId.value| > 4 && r.messageId.value[..4] == "FCM-"
      && r.messageId.value[4..] == DecimalString(attempt.millis)
    ensures !r.success ==>
      && r.messageId == None && r.recipientCount == 0
      && r.successCount == 0 && r.failureCount == 1
    ensures attempt.Rejected? ==> r.message == "FCM error: Invalid registration token"
    ensures attempt.Errored? ==> r.message == "Error: " + Str(attempt.error)
  {
    match attempt
    case Delivered(millis) =>
      var n := CalculateFcmRecipients(alert);
      FcmResult(true, Some("FCM-" + DecimalString(millis)), n, n, 0,
                "FCM notification sent successfully")
    case Rejected =>
      FcmResult(false, None, 0, 0, 1, "FCM error: Invalid registration token")
    case Errored(error) =>
      FcmResult(false, None, 0, 0, 1, "Error: " + Str(error))
  }

  /** `sendNotification`: a disabled channel reports a successful no-op under
      a "SKIPPED-" id with every count zero (the result builder leaves the
      success and failure counts at their `int` default); an enabled one
      reports its delivery attempt. */
  function SendNotification(enabled: bool, alert: AlertMessage, attempt: ChannelAttempt)
    : (r: FcmResult)
    ensures !enabled ==>
      && r.success && r.messageId == Some("SKIPPED-" + alert.alertId)
      && r.recipientCount == 0 && r.successCount == 0 && r.failureCount == 0
    ensures enabled ==> r == SimulatedNotification(alert, attempt)
    ensures !r.success ==> enabled && r.failureCount == 1
    ensures r.recipientCount >= 0 && r.successCount >= 0 && r.failureCount >= 0
    ensures r.successCount == r.recipientCount
  {
    if !enabled then
      FcmResult(true, Some("SKIPPED-" + alert.alertId), 0, 0, 0, "FCM disabled")
    else
      SimulatedNotification(alert, attempt)
  }
}
