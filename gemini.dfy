/**
 * The Gemini adapter (`adapters/gemini.py`): the free tier's daily request
 * quota, kept in a record that is reloaded from a file before every check,
 * the order in which `execute` consults the breaker and the quota, and the
 * cost of a call.
 *
 * The quota file is the field `store`; the calendar date is a day number
 * `today` (the source writes it as "%Y-%m-%d"); the Gemini SDK's answer to
 * a call is the oracle `GeminiReply`.
 */
module Gemini {
  import opened Common
  import opened AdapterHealth

  /** `FREE_TIER_DAILY_LIMIT`: requests per day on the free tier. */
  const FreeTierDailyLimit := 1500

  /** `DEFAULT_MODEL`, also the price list used for unknown models. */
  const DefaultModel := "gemini-1.5-flash"

  // ---------------------------------------------------------------------------
  // Pricing
  // ---------------------------------------------------------------------------

  /** USD per million input and output tokens. */
  datatype Rates = Rates(input: real, output: real)

  /** `PRICING`: the three listed models. */
  function PriceOf(model: string): (r: Option<Rates>)
    ensures r.Some? <==> model in {"gemini-1.5-pro", "gemini-1.5-flash", "gemini-2.0-flash-exp"}
    ensures r.Some? ==> r.value.input >= 0.0 && r.value.output >= 0.0
  {
    if model == "gemini-1.5-pro" then Some(Rates(1.25, 5.00))
    else if model == "gemini-1.5-flash" then Some(Rates(0.075, 0.30))
    else if model == "gemini-2.0-flash-exp" then Some(Rates(0.00, 0.00))
    else None
  }

  /**
   * `_calculate_actual_cost`: nothing on the free tier; otherwise the
   * tokens priced per million at the model's rates, an unknown model at the
   * rates of the default model.
   */
  function CalculateActualCost(useFreeTier: bool, model: string, inputTokens: real, outputTokens: real): (r: real)
    ensures useFreeTier ==> r == 0.0
    ensures inputTokens >= 0.0 && outputTokens >= 0.0 ==> r >= 0.0
  {
    if useFreeTier then 0.0
    else
      var rates := if PriceOf(model).Some? then PriceOf(model).value else PriceOf(DefaultModel).value;
      (inputTokens / 1000000.0) * rates.input + (outputTokens / 1000000.0) * rates.output
  }

  /** An unlisted model costs exactly what the default model costs. */
  lemma UnknownModelPricedAsDefault(model: string, inputTokens: real, outputTokens: real)
    requires PriceOf(model).None?
    ensures CalculateActualCost(false, model, inputTokens, outputTokens) == CalculateActualCost(false, DefaultModel, inputTokens, outputTokens)
  {
  }

  /** More tokens never cost less. */
  lemma CostMonotone(useFreeTier: bool, model: string, i: real, o: real, i': real, o': real)
    requires 0.0 <= i <= i' && 0.0 <= o <= o'
    ensures CalculateActualCost(useFreeTier, model, i, o) <= CalculateActualCost(useFreeTier, model, i', o')
  {
    if !useFreeTier {
      var rates := if PriceOf(model).Some? then PriceOf(model).value else PriceOf(DefaultModel).value;
      assert (i / 1000000.0) * rates.input <= (i' / 1000000.0) * rates.input;
      assert (o / 1000000.0) * rates.output <= (o' / 1000000.0) * rates.output;
    }
  }

  /** The price list at one million tokens each way. */
  lemma CostExamples()
    ensures CalculateActualCost(false, "gemini-1.5-pro", 1000000.0, 1000000.0) == 6.25
    ensures CalculateActualCost(false, "gemini-1.5-flash", 1000000.0, 1000000.0) == 0.375
    ensures CalculateActualCost(false, "gemini-2.0-flash-exp", 1000000.0, 1000000.0) == 0.0
    ensures CalculateActualCost(false, "gemini-ultra", 2000000.0, 0.0) == 0.15
    ensures CalculateActualCost(true, "gemini-1.5-pro", 1000000.0, 1000000.0) == 0.0
  {
  }

  // ---------------------------------------------------------------------------
  // The quota record
  // ---------------------------------------------------------------------------

  /**
   * The quota file: absent, unreadable or not JSON, or a record whose
   * "date" and "requests_today" keys may each be missing.
   */
  datatype StoredQuota = Missing | Corrupt | Stored(date: Option<int>, requestsToday: Option<int>)

  /** `quota_data` in memory: its date and, when the key is present, the day's request count. */
  datatype QuotaData = QuotaData(date: int, requestsToday: Option<int>)

  /** A new day's record: no request yet. */
  function FreshQuota(today: int): (q: QuotaData)
    ensures q.date == today && q.requestsToday == Some(0)
  {
    QuotaData(today, Some(0))
  }

  /**
   * `_load_quota_data`: a missing or corrupt file gives a fresh record; a
   * stored record keeps its count only when it is dated today, and is reset
   * to a fresh one otherwise (a missing date counts as another day).
   */
  function LoadQuotaData(stored: StoredQuota, today: int): (q: QuotaData)
    ensures q.date == today
    ensures q.requestsToday != Some(0) ==> stored.Stored? && stored.date == Some(today) && q.requestsToday == stored.requestsToday
    ensures !(stored.Stored? && stored.date == Some(today)) ==> q == FreshQuota(today)
  {
    match stored
    case Stored(date, count) => if date == Some(today) then QuotaData(today, count) else FreshQuota(today)
    case _ => FreshQuota(today)
  }

  /** `_save_quota_data`: the record as written to the file. */
  function Save(q: QuotaData): (s: StoredQuota)
    ensures s.Stored? && s.date == Some(q.date) && s.requestsToday == q.requestsToday
  {
    Stored(Some(q.date), q.requestsToday)
  }

  /** What is saved on a day loads back unchanged that day. */
  lemma SaveLoadRoundTrip(q: QuotaData)
    ensures LoadQuotaData(Save(q), q.date) == q
  {
  }

  /** What is saved on one day loads as a fresh record on any other day. */
  lemma NewDayResets(q: QuotaData, today: int)
    requires today != q.date
    ensures LoadQuotaData(Save(q), today) == FreshQuota(today)
  {
  }

  /** Loading, saving and loading again on the same day changes nothing. */
  lemma LoadSaveLoad(stored: StoredQuota, today: int)
    ensures LoadQuotaData(Save(LoadQuotaData(stored, today)), today) == LoadQuotaData(stored, today)
  {
    SaveLoadRoundTrip(LoadQuotaData(stored, today));
  }

  /**
   * `_check_quota`'s verdict on the reloaded record: allowed while fewer
   * than the daily limit of requests were made; a record without a count
   * raises KeyError.
   */
  function QuotaVerdict(q: QuotaData): (r: Result<bool, string>)
    ensures r.Ok? <==> q.requestsToday.Some?
    ensures r == Ok(true) <==> q.requestsToday.Some? && q.requestsToday.value < FreeTierDailyLimit
  {
    if q.requestsToday.None? then Err("KeyError: 'requests_today'")
    else Ok(q.requestsToday.value < FreeTierDailyLimit)
  }

  /** The limit is exclusive: the 1500th request of a day is the last one allowed. */
  lemma QuotaBoundary(today: int)
    ensures QuotaVerdict(QuotaData(today, Some(1499))) == Ok(true)
    ensures QuotaVerdict(QuotaData(today, Some(1500))) == Ok(false)
    ensures QuotaVerdict(QuotaData(today, Some(1501))) == Ok(false)
    ensures QuotaVerdict(FreshQuota(today)) == Ok(true)
  {
  }

  /** `_increment_quota` on the free tier: one more request today. */
  function Bump(q: QuotaData): (r: QuotaData)
    requires q.requestsToday.Some?
    ensures r.date == q.date && r.requestsToday == Some(q.requestsToday.value + 1)
  {
    q.(requestsToday := Some(q.requestsToday.value + 1))
  }

  /** `n` requests counted in a row. */
  function Bumps(q: QuotaData, n: nat): QuotaData
    requires q.requestsToday.Some?
  {
    if n == 0 then q else Bump(Bumps(q, n - 1))
  }

  /**
   * A day's allowance: after `n` counted requests from a fresh record, the
   * count is `n`, and another request is allowed exactly when `n` is below
   * the daily limit.
   */
  lemma {:induction false} DailyAllowance(today: int, n: nat)
    ensures Bumps(FreshQuota(today), n) == QuotaData(today, Some(n))
    ensures QuotaVerdict(Bumps(FreshQuota(today), n)) == Ok(n < FreeTierDailyLimit)
  {
    if n > 0 {
      DailyAllowance(today, n - 1);
    }
  }

  // ---------------------------------------------------------------------------
  // One call
  // ---------------------------------------------------------------------------

  /** How the SDK call ends: a generated answer, or one of the exceptions `execute` tells apart. */
  datatype GeminiReply =
    | Generated(latencyMs: nat, tokensIn: nat, tokensOut: nat)
    | ResourceExhausted(latencyMs: nat, message: string)
    | InvalidArgument(latencyMs: nat, message: string)
    | Unauthenticated(latencyMs: nat, message: string)
    | OtherError(latencyMs: nat, message: string)

  /**
   * The response `execute` returns once past the breaker and the quota: a
   * success priced by `CalculateActualCost`, or an error naming the
   * exception, rate-limited only for ResourceExhausted.
   */
  function ReplyResponse(model: string, reply: GeminiReply, useFreeTier: bool): (r: Response)
    ensures r.status == Success <==> reply.Generated?
    ensures r.status == RateLimited <==> reply.ResourceExhausted?
    ensures r.modelUsed == Some(model) && r.latencyMs == reply.latencyMs
    ensures reply.Generated? ==>
      && r.error.None? && r.tokensIn == reply.tokensIn && r.tokensOut == reply.tokensOut
      && r.costUsd == CalculateActualCost(useFreeTier, model, reply.tokensIn as real, reply.tokensOut as real)
    ensures !reply.Generated? ==> r.costUsd == 0.0 && r.error.Some?
  {
    match reply
    case Generated(latency, tokensIn, tokensOut) =>
      Response(Success, None, latency, CalculateActualCost(useFreeTier, model, tokensIn as real, tokensOut as real), Some(model), tokensIn, tokensOut)
    case ResourceExhausted(latency, message) =>
      ErrorResponse("Rate limit or quota exceeded: " + message, RateLimited, latency, Some(model))
    case InvalidArgument(latency, message) =>
      ErrorResponse("Invalid request: " + message, Error, latency, Some(model))
    case Unauthenticated(latency, message) =>
      ErrorResponse("Authentication error: " + message, Error, latency, Some(model))
    case OtherError(latency, message) =>
      ErrorResponse("Unexpected error: " + message, Error, latency, Some(model))
  }

  /** The response to a request the quota refuses: rate-limited, with no call made. */
  function QuotaExceeded(): (r: Response)
    ensures r.status == RateLimited && r.costUsd == 0.0 && r.modelUsed.None? && r.tokensIn == 0 && r.tokensOut == 0
  {
    ErrorResponse("Free tier quota exceeded (1500 requests/day). Quota resets at midnight UTC.", RateLimited, 0, None)
  }

  /** The response while the breaker is open. */
  function BreakerOpen(): (r: Response)
    ensures r.status == Error && r.costUsd == 0.0 && r.modelUsed.None?
  {
    ErrorResponse("Circuit breaker open (too many failures)", Error, 0, None)
  }

  // ---------------------------------------------------------------------------
  // The adapter
  // ---------------------------------------------------------------------------

  class GeminiAdapter {
    const useFreeTier: bool
    const defaultModel: string
    /** Whether writing the quota file succeeds; `_save_quota_data` ignores a failed write. */
    const storeWritable: bool
    var health: Health
    var quota: QuotaData
    /** The quota file, shared with other processes. */
    var store: StoredQuota

    /**
     * The constructor: the API key (else the environment's) decides whether
     * the adapter is enabled, the model (else the environment's, else the
     * default) is the default model, and the quota record is loaded.
     */
    constructor(apiKey: string, envApiKey: Option<string>, useFreeTier: bool, model: string, envModel: Option<string>,
                stored: StoredQuota, storeWritable: bool, today: int, threshold: int, cooldownSeconds: real, minSuccessRate: real)
      ensures this.useFreeTier == useFreeTier && this.storeWritable == storeWritable && store == stored
      ensures defaultModel == (if model != "" then model else envModel.GetOr(DefaultModel))
      ensures quota == LoadQuotaData(stored, today)
      ensures health == NewHealth(apiKey != "" || (envApiKey.Some? && envApiKey.value != ""), threshold, cooldownSeconds, minSuccessRate)
    {
      var key := if apiKey != "" then apiKey else envApiKey.GetOr("");
      this.useFreeTier := useFreeTier;
      defaultModel := if model != "" then model else envModel.GetOr(DefaultModel);
      this.storeWritable := storeWritable;
      store := stored;
      quota := LoadQuotaData(stored, today);
      health := NewHealth(key != "", threshold, cooldownSeconds, minSuccessRate);
    }

    /** `_save_quota_data`: write the record, when the file can be written. */
    method SaveQuotaData()
      modifies this`store
      ensures store == (if storeWritable then Save(quota) else old(store))
    {
      if storeWritable {
        store := Save(quota);
      }
    }

    /**
     * `_check_quota`: always allowed on the paid tier; on the free tier the
     * record is reloaded from the file and judged by `QuotaVerdict`.
     */
    method CheckQuota(today: int) returns (allowed: Result<bool, string>)
      modifies this`quota
      ensures quota == (if useFreeTier then LoadQuotaData(store, today) else old(quota))
      ensures allowed == (if useFreeTier then QuotaVerdict(quota) else Ok(true))
    {
      if !useFreeTier {
        return Ok(true);
      }
      quota := LoadQuotaData(store, today);
      allowed := QuotaVerdict(quota);
    }

    /**
     * `_increment_quota`: on the free tier, one more request and the record
     * saved; nothing on the paid tier. A record without a count raises.
     */
    method IncrementQuota() returns (raised: bool)
      modifies this`quota, this`store
      ensures raised <==> useFreeTier && old(quota).requestsToday.None?
      ensures quota == (if useFreeTier && !raised then Bump(old(quota)) else old(quota))
      ensures store == (if useFreeTier && !raised && storeWritable then Save(quota) else old(store))
    {
      if !useFreeTier {
        return false;
      }
      if quota.requestsToday.None? {
        return true;
      }
      quota := Bump(quota);
      SaveQuotaData();
      raised := false;
    }

    /** `reset_quota`: today's record with no request, saved. */
    method ResetQuota(today: int)
      modifies this`quota, this`store
      ensures quota == FreshQuota(today)
      ensures store == (if storeWritable then Save(FreshQuota(today)) else old(store))
    {
      quota := FreshQuota(today);
      SaveQuotaData();
    }

    /**
     * `execute`: the breaker first (it may close after its cooldown), then
     * the quota, and only then the call. A refused request makes no call and
     * counts nothing; a success adds one request to the quota and records
     * its latency and cost; every exception records one failure. The
     * enabled flag is not consulted.
     */
    method Execute(contextModel: Option<string>, reply: GeminiReply, now: real, today: int) returns (outcome: Outcome)
      modifies this`health, this`quota, this`store
      ensures var open := CheckBreaker(old(health), now).0;
        var checked := CheckBreaker(old(health), now).1;
        var loaded := if useFreeTier then LoadQuotaData(old(store), today) else old(quota);
        var verdict := if useFreeTier then QuotaVerdict(loaded) else Ok(true);
        var model := contextModel.GetOr(defaultModel);
        if open then
          outcome == Returned(BreakerOpen()) && health == checked && quota == old(quota) && store == old(store)
        else if verdict.Err? then
          outcome == Raised && health == checked && quota == loaded && store == old(store)
        else if !verdict.value then
          outcome == Returned(QuotaExceeded()) && health == checked && quota == loaded && store == old(store)
        else
          && outcome == Returned(ReplyResponse(model, reply, useFreeTier))
          && (reply.Generated? ==>
                && health == RecordSuccess(checked, reply.latencyMs as real, outcome.response.costUsd)
                && quota == (if useFreeTier then Bump(loaded) else loaded)
                && store == (if useFreeTier && storeWritable then Save(quota) else old(store)))
          && (!reply.Generated? ==> health == RecordFailure(checked, now) && quota == loaded && store == old(store))
    {
      var open := CheckBreaker(health, now).0;
      health := CheckBreaker(health, now).1;
      if open {
        return Returned(BreakerOpen());
      }
      var allowed := CheckQuota(today);
      if allowed.Err? {
        return Raised;
      }
      if !allowed.value {
        return Returned(QuotaExceeded());
      }
      var model := contextModel.GetOr(defaultModel);
      var response := ReplyResponse(model, reply, useFreeTier);
      if reply.Generated? {
        var raised := IncrementQuota();
        assert !raised;
        health := RecordSuccess(health, reply.latencyMs as real, response.costUsd);
      } else {
        health := RecordFailure(health, now);
      }
      outcome := Returned(response);
    }

    /**
     * `check_availability`: unhealthy means unavailable; otherwise on the
     * free tier the reloaded quota decides, and on the paid tier it is
     * available.
     */
    method CheckAvailability(today: int) returns (available: Result<bool, string>)
      modifies this`quota
      ensures !IsHealthy(health) ==> available == Ok(false) && quota == old(quota)
      ensures IsHealthy(health) && !useFreeTier ==> available == Ok(true) && quota == old(quota)
      ensures IsHealthy(health) && useFreeTier ==> quota == LoadQuotaData(store, today) && available == QuotaVerdict(quota)
    {
      if !IsHealthy(health) {
        return Ok(false);
      }
      if useFreeTier {
        available := CheckQuota(today);
        return;
      }
      available := Ok(true);
    }
  }
}
