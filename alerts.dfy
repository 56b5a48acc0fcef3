/** The alert as the publisher reads it, and what one channel delivery
    attempt can come back with. */
module Alerts {
  import opened Java

  /** `java.time.Instant`, abstracted to a point on an integer time line. */
  type Instant = int

  /** The inbound alert. Only the fields the publisher reads are kept:
      `id` is the UUID the cell broadcast adapter labels its results with,
      `alertId` the identity the tracking store is keyed by, and
      `magnitude` is present only for earthquakes. */
  datatype AlertMessage = AlertMessage(
    id: Option<string>,
    alertId: string,
    severity: string,
    alertType: string,
    magnitude: Option<real>,
    message: Option<string>,
    details: Option<string>,
    detectedAt: Instant)

  /** The order of the severity levels both channels size their audience
      by: CRITICAL above HIGH above MEDIUM above every other value. */
  function SeverityRank(severity: string): (rank: nat)
    ensures rank <= 3
    ensures rank == 3 <==> severity == "CRITICAL"
    ensures rank == 2 <==> severity == "HIGH"
    ensures rank == 1 <==> severity == "MEDIUM"
  {
    if severity == "CRITICAL" then 3
    else if severity == "HIGH" then 2
    else if severity == "MEDIUM" then 1
    else 0
  }

  /** How a (simulated) channel delivery ended: delivered, with the clock
      reading in milliseconds that names the message; rejected by the
      simulated provider; or an exception, with its possibly-null message
      (for the cell broadcast channel, after the channel-local retries). */
  datatype ChannelAttempt =
    | Delivered(millis: nat)
    | Rejected
    | Errored(error: Option<string>)
}
