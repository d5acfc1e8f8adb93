/** Retry, lease and retention constants shared by the background workers.
    Every duration is a whole number of seconds. */
module Policy {
  const LEASE: nat := 45
  const SEND_MARGIN: nat := 15
  const CLAIM_TIMEOUT: nat := 5
  const LOCK_TIMEOUT: nat := 10
  const SUBSCRIPTION_CHECK_TIMEOUT: nat := 5
  const CLAIM_CHECK_TIMEOUT: nat := 5
  const TRANSACTION_TIMEOUT: nat := 10
  const CLIENT_TIMEOUT: nat := 10
  const FINALIZATION_BUDGET: nat := 5
  const FINALIZATION_TRIES: nat := 5
  const MAX_ATTEMPTS: nat := 3
  const FAILURE_COOLDOWN: nat := 900
  const CRON_CLAIM: nat := 900
  const CANDIDATE_LIMIT: nat := 10
  const MAX_OPEN_ALERTS: nat := 10
  const PRICE_FRESHNESS: nat := 60
  const DAY: nat := 86400
  const EPOCH_GAP: nat := 7 * DAY
  const SENT_JOB_RETENTION: nat := 30 * DAY
  const FAILED_JOB_RETENTION: nat := 90 * DAY
  const CANCELED_JOB_RETENTION: nat := 30 * DAY
  const SENT_REPLY_RETENTION: nat := 7 * DAY
  const FAILED_REPLY_RETENTION: nat := 30 * DAY
  const PROCESSED_UPDATE_RETENTION: nat := 7 * DAY
  const FAILED_UPDATE_RETENTION: nat := 30 * DAY
  const ALERT_RETENTION: nat := 90 * DAY

  /** Linear backoff of one minute per attempt, capped at ten minutes. */
  function RetryDelay(attempts: int): (d: nat)
    ensures 60 <= d <= 600
    ensures 1 <= attempts <= 10 ==> d == 60 * attempts
    ensures attempts > 10 ==> d == 600
  {
    var n := if attempts < 1 then 1 else attempts;
    if 60 * n > 600 then 600 else 60 * n
  }

  /** The start of the minute a timestamp falls in (`date_trunc('minute', t)`). */
  function Minute(t: int): int { t / 60 }
}
