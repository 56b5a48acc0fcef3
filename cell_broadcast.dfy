/** The cell broadcast channel adapter: the result it reports for an alert
    when the channel is disabled, delivered, rejected or fails with an
    error, and its audience estimate. */
module CellBroadcast {
  import opened Java
  import opened Alerts

  /** What the adapter reports back for one alert. */
  datatype CellBroadcastResult = CellBroadcastResult(
    success: bool,
    messageId: Option<string>,
    recipientCount: int32,
    message: string)

  /** The label the adapter names an alert by: its UUID, or "UNKNOWN". */
  function AlertLabel(alert: AlertMessage): (name: string)
    ensures alert.id.Some? ==> name == alert.id.value
    ensures alert.id.None? ==> name == "UNKNOWN"
  {
    if alert.id.Some? then alert.id.value else "UNKNOWN"
  }

  /** Estimated audience by severity level alone. */
  function SeverityBasedRecipients(severity: string): (n: int32)
    ensures n >= 10000
    ensures SeverityRank(severity) == 3 <==> n == 10000000
    ensures SeverityRank(severity) == 2 <==> n == 1000000
    ensures SeverityRank(severity) == 1 <==> n == 100000
    ensures SeverityRank(severity) == 0 <==> n == 10000
  {
    match severity
    case "CRITICAL" => 10000000
    case "HIGH" => 1000000
    case "MEDIUM" => 100000
    case _ => 10000
  }

  /** A more severe alert is estimated to reach at least as many people. */
  lemma SeverityBasedRecipientsMonotone(a: string, b: string)
    requires SeverityRank(a) <= SeverityRank(b)
    ensures SeverityBasedRecipients(a) <= SeverityBasedRecipients(b)
  {
    var ra, na := SeverityRank(a), SeverityBasedRecipients(a);
    var rb, nb := SeverityRank(b), SeverityBasedRecipients(b);
    assert na == [10000, 100000, 1000000, 10000000][ra];
    assert nb == [10000, 100000, 1000000, 10000000][rb];
  }

  /** Estimated audience of a successful broadcast. An earthquake with a
      magnitude is sized by the area its magnitude sweeps, computed in
      floating point and given here as `quakeEstimate`; every other alert
      gets the severity estimate. */
  function CalculateRecipientCount(alert: AlertMessage, quakeEstimate: int32): (n: int32)
    ensures alert.alertType != "EARTHQUAKE" || alert.magnitude.None? ==>
      n == SeverityBasedRecipients(alert.severity)
    ensures alert.alertType == "EARTHQUAKE" && alert.magnitude.Some? ==> n == quakeEstimate
    ensures 0 <= quakeEstimate ==> n >= 0
  {
    if alert.alertType == "EARTHQUAKE" && alert.magnitude.Some? then quakeEstimate
    else SeverityBasedRecipients(alert.severity)
  }

  /** The simulated delivery: a delivered attempt reports the estimated
      audience under a "CB-" id; a rejection or an error reports failure. */
  function SimulatedBroadcast(alert: AlertMessage, attempt: ChannelAttempt, quakeEstimate: int32)
    : (r: CellBroadcastResult)
    ensures r.success <==> attempt.Delivered?
    ensures r.success ==>
      && r.recipientCount == CalculateRecipientCount(alert, quakeEstimate)
      && r.messageId.Some? && |r.messageId.value| > 3 && r.messageId.value[..3] == "CB-"
      && r.messageId.value[3..] == DecimalString(attempt.millis)
    ensures !r.success ==> r.messageId == None && r.recipientCount == 0
    ensures attempt.Rejected? ==> r.message == "Telecom API error: Connection timeout"
    ensures attempt.Errored? ==> r.message == "Error: " + Str(attempt.error)
  {
    match attempt
    case Delivered(millis) =>
      CellBroadcastResult(true, Some("CB-" + DecimalString(millis)),
                          CalculateRecipientCount(alert, quakeEstimate),
                          "Cell Broadcast sent successfully")
    case Rejected =>
      CellBroadcastResult(false, None, 0, "Telecom API error: Connection timeout")
    case Errored(error) =>
      CellBroadcastResult(false, None, 0, "Error: " + Str(error))
  }

  /** `broadcast`: a disabled channel reports a successful no-op under a
      "SKIPPED-" id; an enabled one reports its delivery attempt. */
  function Broadcast(enabled: bool, alert: AlertMessage, attempt: ChannelAttempt,
                     quakeEstimate: int32): (r: CellBroadcastResult)
    ensures !enabled ==>
      r.success && r.recipientCount == 0 && r.messageId == Some("SKIPPED-" + AlertLabel(alert))
    ensures enabled ==> r == SimulatedBroadcast(alert, attempt, quakeEstimate)
    ensures !r.success ==> enabled && r.messageId == None && r.recipientCount == 0
    ensures 0 <= quakeEstimate ==> r.recipientCount >= 0
  {
    if !enabled then
      CellBroadcastResult(true, Some("SKIPPED-" + AlertLabel(alert)), 0, "Cell Broadcast disabled")
    else
      SimulatedBroadcast(alert, attempt, quakeEstimate)
  }

  /** Two deliveries at distinct clock readings carry distinct message ids. */
  lemma DeliveredIdsDistinct(alert: AlertMessage, m: nat, n: nat, quakeEstimate: int32)
    requires m != n
    ensures SimulatedBroadcast(alert, Delivered(m), quakeEstimate).messageId
         != SimulatedBroadcast(alert, Delivered(n), quakeEstimate).messageId
  {
    var a := SimulatedBroadcast(alert, Delivered(m), quakeEstimate).messageId.value;
    var b := SimulatedBroadcast(alert, Delivered(n), quakeEstimate).messageId.value;
    if a == b {
      assert a[3..] == b[3..];
      DecimalStringInjective(m, n);
    }
  }
}
