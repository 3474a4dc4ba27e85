/**
 * The state every adapter inherits from `BaseLLMAdapter`: success and
 * failure counters, latency and cost totals, and the circuit breaker.
 * `adapters/base.py` is not part of this model; the behaviour here is the
 * one its tests pin down (`tests/test_adapters_base.py`), and the Azure
 * and Gemini adapters use it as a value they replace.
 *
 * Times are seconds, latencies milliseconds.
 */
module AdapterHealth {
  import opened Common

  /** `LLMResponse.status`. */
  datatype Status = Success | Error | RateLimited

  /** The parts of an `LLMResponse` the adapters decide. */
  datatype Response = Response(
    status: Status,
    error: Option<string>,
    latencyMs: int,
    costUsd: real,
    modelUsed: Option<string>,
    tokensIn: int,
    tokensOut: int)

  /** What an adapter's `execute` does: return a response, or raise an exception. */
  datatype Outcome = Returned(response: Response) | Raised

  /** `_create_error_response`: the given status and message, no cost and no tokens. */
  function ErrorResponse(error: string, status: Status, latencyMs: int, model: Option<string>): (r: Response)
    ensures r.status == status && r.error == Some(error) && r.costUsd == 0.0
    ensures r.latencyMs == latencyMs && r.modelUsed == model && r.tokensIn == 0 && r.tokensOut == 0
  {
    Response(status, Some(error), latencyMs, 0.0, model, 0, 0)
  }

  /** The inherited adapter state. */
  datatype Health = Health(
    enabled: bool,
    successCount: nat,
    failureCount: nat,
    totalLatencyMs: real,
    totalCostUsd: real,
    consecutiveFailures: nat,
    lastFailureTime: Option<real>,
    breakerOpen: bool,
    breakerOpenTime: Option<real>,
    threshold: int,
    cooldownSeconds: real,
    minSuccessRate: real)

  /** A freshly constructed adapter: nothing recorded, breaker closed. */
  function NewHealth(enabled: bool, threshold: int, cooldownSeconds: real, minSuccessRate: real): (h: Health)
    ensures h.successCount == 0 && h.failureCount == 0 && h.consecutiveFailures == 0 && !h.breakerOpen
    ensures h.enabled == enabled && h.threshold == threshold && h.cooldownSeconds == cooldownSeconds
  {
    Health(enabled, 0, 0, 0.0, 0.0, 0, None, false, None, threshold, cooldownSeconds, minSuccessRate)
  }

  /** `_record_success`: one more success, its latency and cost added, the failure streak cleared. */
  function RecordSuccess(h: Health, latencyMs: real, costUsd: real): (r: Health)
    ensures r.successCount == h.successCount + 1 && r.failureCount == h.failureCount
    ensures r.totalLatencyMs == h.totalLatencyMs + latencyMs && r.totalCostUsd == h.totalCostUsd + costUsd
    ensures r.consecutiveFailures == 0
    ensures r.breakerOpen == h.breakerOpen && r.enabled == h.enabled
  {
    h.(successCount := h.successCount + 1, totalLatencyMs := h.totalLatencyMs + latencyMs,
       totalCostUsd := h.totalCostUsd + costUsd, consecutiveFailures := 0)
  }

  /**
   * `_record_failure`: one more failure at `now`; reaching the threshold of
   * consecutive failures opens the breaker from `now`.
   */
  function RecordFailure(h: Health, now: real): (r: Health)
    ensures r.failureCount == h.failureCount + 1 && r.successCount == h.successCount
    ensures r.consecutiveFailures == h.consecutiveFailures + 1 && r.lastFailureTime == Some(now)
    ensures r.breakerOpen <==> h.breakerOpen || r.consecutiveFailures >= h.threshold
    ensures r.enabled == h.enabled && r.threshold == h.threshold && r.cooldownSeconds == h.cooldownSeconds
    ensures r.minSuccessRate == h.minSuccessRate
  {
    var streak := h.consecutiveFailures + 1;
    var failed := h.(failureCount := h.failureCount + 1, consecutiveFailures := streak, lastFailureTime := Some(now));
    if streak >= h.threshold then failed.(breakerOpen := true, breakerOpenTime := Some(now)) else failed
  }

  /**
   * `_check_circuit_breaker` at `now`: whether the breaker is still open.
   * An open breaker closes (and the failure streak is cleared) once the
   * cooldown has passed, or at once when it has no opening time.
   */
  function CheckBreaker(h: Health, now: real): (r: (bool, Health))
    ensures r.0 <==> h.breakerOpen && h.breakerOpenTime.Some? && now - h.breakerOpenTime.value < h.cooldownSeconds
    ensures r.0 || h.breakerOpen ==> r.1 == h.(breakerOpen := r.0, breakerOpenTime := r.1.breakerOpenTime, consecutiveFailures := r.1.consecutiveFailures)
    ensures !r.0 ==> !r.1.breakerOpen
    ensures r.0 ==> r.1 == h
    ensures h.breakerOpen && !r.0 ==> r.1.consecutiveFailures == 0
    ensures !h.breakerOpen ==> r.1 == h
  {
    if !h.breakerOpen then (false, h)
    else if h.breakerOpenTime.None? || now - h.breakerOpenTime.value >= h.cooldownSeconds then
      (false, h.(breakerOpen := false, breakerOpenTime := None, consecutiveFailures := 0))
    else (true, h)
  }

  /** `get_success_rate`: successes as a percentage of all calls, 100 before any call. */
  function SuccessRate(h: Health): (r: real)
    ensures 0.0 <= r <= 100.0
    ensures h.successCount + h.failureCount == 0 ==> r == 100.0
    ensures h.successCount + h.failureCount > 0 ==> r * (h.successCount + h.failureCount) as real == h.successCount as real * 100.0
  {
    RateOf(h.successCount, h.failureCount)
  }

  /** `success / total * 100`, and 100 when there is no call yet. */
  function RateOf(success: nat, failure: nat): (r: real)
    ensures 0.0 <= r <= 100.0
    ensures success + failure == 0 ==> r == 100.0
    ensures success + failure > 0 ==> r * (success + failure) as real == success as real * 100.0
  {
    var total := success + failure;
    if total > 0 then
      var r := success as real / total as real * 100.0;
      assert r * total as real == success as real * 100.0;
      PercentAtMost100(success, total, r);
      r
    else 100.0
  }

  /** A part's percentage of a positive whole is at most 100. */
  lemma PercentAtMost100(part: nat, whole: nat, r: real)
    requires 0 < whole && part <= whole && r * whole as real == part as real * 100.0
    ensures r <= 100.0
  {
    if r > 100.0 {
      assert r * whole as real > 100.0 * whole as real;
    }
  }

  /** `get_average_latency`: mean latency of the successes, 0 before any. */
  function AverageLatency(h: Health): (r: real)
    ensures h.successCount == 0 ==> r == 0.0
    ensures h.successCount > 0 ==> r * h.successCount as real == h.totalLatencyMs
  {
    if h.successCount > 0 then h.totalLatencyMs / h.successCount as real else 0.0
  }

  /** `reset_metrics`: all counters and totals back to zero and the breaker closed. */
  function ResetMetrics(h: Health): (r: Health)
    ensures r.successCount == 0 && r.failureCount == 0 && r.totalLatencyMs == 0.0 && r.totalCostUsd == 0.0
    ensures r.consecutiveFailures == 0 && !r.breakerOpen
    ensures SuccessRate(r) == 100.0 && AverageLatency(r) == 0.0
    ensures r.enabled == h.enabled && r.threshold == h.threshold && r.cooldownSeconds == h.cooldownSeconds
  {
    h.(successCount := 0, failureCount := 0, totalLatencyMs := 0.0, totalCostUsd := 0.0,
       consecutiveFailures := 0, breakerOpen := false, breakerOpenTime := None)
  }

  /** The number of calls below which `is_healthy` ignores the success rate. */
  const MinSamples := 10

  /**
   * `is_healthy`: enabled, breaker closed, and a success rate no lower than
   * the floor once there are enough calls to judge.
   */
  predicate IsHealthy(h: Health)
    ensures IsHealthy(h) ==> h.enabled && !h.breakerOpen
    ensures IsHealthy(h) && h.successCount + h.failureCount >= MinSamples ==> SuccessRate(h) >= h.minSuccessRate
    ensures h.enabled && !h.breakerOpen && h.successCount + h.failureCount < MinSamples ==> IsHealthy(h)
  {
    h.enabled && !h.breakerOpen
    && (h.successCount + h.failureCount < MinSamples || SuccessRate(h) >= h.minSuccessRate)
  }

  /** `n` failures in a row at `now`. */
  function Failures(h: Health, n: nat, now: real): Health {
    if n == 0 then h else RecordFailure(Failures(h, n - 1, now), now)
  }

  /** `n` successes in a row, each with the given latency and cost. */
  function Successes(h: Health, n: nat, latencyMs: real, costUsd: real): Health {
    if n == 0 then h else RecordSuccess(Successes(h, n - 1, latencyMs, costUsd), latencyMs, costUsd)
  }

  /**
   * After `n` failures the streak has grown by `n`, and the breaker is open
   * exactly when it was already, or when the streak reached the threshold.
   */
  lemma {:induction false} FailuresOpenBreaker(h: Health, n: nat, now: real)
    ensures var r := Failures(h, n, now);
      && r.consecutiveFailures == h.consecutiveFailures + n
      && r.failureCount == h.failureCount + n && r.successCount == h.successCount
      && r.enabled == h.enabled && r.threshold == h.threshold && r.minSuccessRate == h.minSuccessRate
      && (r.breakerOpen <==> h.breakerOpen || (n > 0 && h.consecutiveFailures + n >= h.threshold))
  {
    if n > 0 {
      FailuresOpenBreaker(h, n - 1, now);
    }
  }

  /** `n` successes add `n` to the success count and leave the failures, the streak and the breaker alone (after the first). */
  lemma {:induction false} SuccessesCount(h: Health, n: nat, latencyMs: real, costUsd: real)
    ensures var r := Successes(h, n, latencyMs, costUsd);
      && r.successCount == h.successCount + n && r.failureCount == h.failureCount
      && r.breakerOpen == h.breakerOpen && r.enabled == h.enabled && r.minSuccessRate == h.minSuccessRate
      && (n > 0 ==> r.consecutiveFailures == 0)
  {
    if n > 0 {
      SuccessesCount(h, n - 1, latencyMs, costUsd);
    }
  }

  /**
   * A success resets the streak: from then on the breaker of a closed
   * adapter opens only after a full `threshold` of new failures.
   */
  lemma SuccessRestartsStreak(h: Health, latencyMs: real, costUsd: real, n: nat, now: real)
    requires !h.breakerOpen
    ensures Failures(RecordSuccess(h, latencyMs, costUsd), n, now).breakerOpen <==> n > 0 && n >= h.threshold
  {
    FailuresOpenBreaker(RecordSuccess(h, latencyMs, costUsd), n, now);
  }

  /** Threshold 3: three failures open the breaker; threshold 5: four failures leave it closed. */
  lemma ThresholdExamples(now: real)
    ensures Failures(NewHealth(true, 3, 60.0, 50.0), 3, now).breakerOpen
    ensures !Failures(NewHealth(true, 5, 60.0, 50.0), 4, now).breakerOpen
  {
    FailuresOpenBreaker(NewHealth(true, 3, 60.0, 50.0), 3, now);
    FailuresOpenBreaker(NewHealth(true, 5, 60.0, 50.0), 4, now);
  }

  /** With a 1-second cooldown, a breaker opened by two failures is closed again 1.1 seconds later. */
  lemma CooldownExample(t: real)
    ensures var h := Failures(NewHealth(true, 2, 1.0, 50.0), 2, t);
      h.breakerOpen && h.breakerOpenTime == Some(t)
      && !CheckBreaker(h, t + 1.1).0 && !CheckBreaker(h, t + 1.1).1.breakerOpen
  {
    var h0 := NewHealth(true, 2, 1.0, 50.0);
    FailuresOpenBreaker(h0, 2, t);
    assert Failures(h0, 1, t) == RecordFailure(h0, t);
    assert Failures(h0, 2, t) == RecordFailure(RecordFailure(h0, t), t);
  }

  /**
   * Health judged by the success rate: twenty successes are healthy, five
   * successes against fifteen failures (25%) are not when the floor is above
   * 25%, and three calls are too few to judge.
   */
  lemma HealthExamples(now: real, floor: real)
    requires 25.0 < floor <= 100.0
    ensures IsHealthy(Successes(NewHealth(true, 100, 60.0, floor), 20, 100.0, 0.01))
    ensures !IsHealthy(Failures(Successes(NewHealth(true, 100, 60.0, floor), 5, 100.0, 0.01), 15, now))
    ensures IsHealthy(Failures(Successes(NewHealth(true, 100, 60.0, floor), 1, 100.0, 0.01), 2, now))
  {
    var h0 := NewHealth(true, 100, 60.0, floor);
    SuccessesCount(h0, 20, 100.0, 0.01);
    assert SuccessRate(Successes(h0, 20, 100.0, 0.01)) == 100.0;
    SuccessesCount(h0, 5, 100.0, 0.01);
    var five := Successes(h0, 5, 100.0, 0.01);
    FailuresOpenBreaker(five, 15, now);
    var poor := Failures(five, 15, now);
    assert poor.successCount == 5 && poor.failureCount == 15;
    assert SuccessRate(poor) * 20.0 == 500.0;
    assert SuccessRate(poor) == 25.0;
    SuccessesCount(h0, 1, 100.0, 0.01);
    FailuresOpenBreaker(Successes(h0, 1, 100.0, 0.01), 2, now);
  }

  /** A disabled adapter is never healthy, whatever its record. */
  lemma DisabledUnhealthy(h: Health)
    requires !h.enabled
    ensures !IsHealthy(h)
  {
  }
}
