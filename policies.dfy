/**
 * The policy enforcer of `netrun/llm/policies.py`: provider and tenant
 * policies, the ordered chain of checks `validate_request` runs before a
 * request is sent, the one-minute rate window per provider, the spend
 * counters, the usage log and the usage report.
 *
 * Wall-clock time is a parameter: `now` in seconds for `time.time()` and
 * `datetime.utcnow()`, `today` as a day number for `datetime.utcnow().date()`.
 */
module Policies {
  import opened Common
  import opened Tally
  import opened Pricing
  import opened PyStr

  // ---------------------------------------------------------------------------
  // Policies
  // ---------------------------------------------------------------------------

  /** The provider names `ProviderPolicy.provider` accepts. */
  const KnownProviders: set<string> := {"openai", "anthropic", "azure_openai", "ollama", "bedrock"}

  /** `ProviderPolicy`; a limit of 0 on cost, RPM or TPM means unlimited. */
  datatype ProviderPolicy = ProviderPolicy(
    provider: string,
    allowedModels: seq<string>,
    deniedModels: seq<string>,
    maxTokensPerRequest: int,
    maxCostPerRequest: real,
    rateLimitRpm: int,
    rateLimitTpm: int,
    costTierLimit: Option<CostTier>,
    requireReason: bool,
    enabled: bool)

  /** The field constraints pydantic enforces when a `ProviderPolicy` is built. */
  predicate ValidProviderPolicy(p: ProviderPolicy) {
    && p.provider in KnownProviders
    && 1 <= p.maxTokensPerRequest <= 128000
    && p.maxCostPerRequest >= 0.0
    && p.rateLimitRpm >= 0
    && p.rateLimitTpm >= 0
  }

  /**
   * `ProviderPolicy(provider=provider)`: every field at its default, or a
   * validation error when the name is not one of the five providers.
   */
  function DefaultProviderPolicy(provider: string): (r: Option<ProviderPolicy>)
    ensures r.Some? <==> provider in KnownProviders
    ensures r.Some? ==> ValidProviderPolicy(r.value) && r.value.provider == provider && r.value.enabled
  {
    if provider in KnownProviders then
      Some(ProviderPolicy(provider, [], [], 4096, 1.0, 60, 100000, None, false, true))
    else None
  }

  /** `TenantPolicy`; `dailyBudgetUsd` is `None` when only the monthly budget applies. */
  datatype TenantPolicy = TenantPolicy(
    tenantId: string,
    monthlyBudgetUsd: real,
    dailyBudgetUsd: Option<real>,
    providerPolicies: map<string, ProviderPolicy>,
    defaultProvider: string,
    fallbackToLocal: bool,
    trackUsage: bool,
    alertThresholdPct: real)

  /** The constraints pydantic enforces when a `TenantPolicy` is built; the tenant id is stored stripped. */
  predicate ValidTenantPolicy(t: TenantPolicy) {
    && ValidateTenantId(t.tenantId) == Ok(t.tenantId)
    && t.monthlyBudgetUsd >= 0.0
    && (t.dailyBudgetUsd.Some? ==> t.dailyBudgetUsd.value >= 0.0)
    && (forall k :: k in t.providerPolicies ==> ValidProviderPolicy(t.providerPolicies[k]))
    && 0.0 <= t.alertThresholdPct <= 100.0
  }

  /** The `tenant_id` validator: blank ids are refused, others are stored stripped. */
  function ValidateTenantId(v: string): (r: Result<string, string>)
    ensures r.Ok? ==> r.value != [] && !IsSpace(r.value[0]) && !IsSpace(r.value[|r.value| - 1])
  {
    var t := Strip(v);
    if t == [] then Err("tenant_id cannot be empty") else Ok(t)
  }

  /**
   * An id is accepted exactly when it has a character that is not
   * whitespace, and validating an accepted id again gives it back unchanged.
   */
  lemma {:induction false} TenantIdValidation(v: string)
    ensures ValidateTenantId(v).Ok? <==> exists i :: 0 <= i < |v| && !IsSpace(v[i])
    ensures ValidateTenantId(v).Ok? ==> ValidateTenantId(ValidateTenantId(v).value) == ValidateTenantId(v)
  {
    var l := TrimLeft(v);
    var t := TrimRight(l);
    if t == [] {
      forall i | 0 <= i < |v| ensures IsSpace(v[i]) {
        if i >= |v| - |l| {
          assert v[i] == l[i - (|v| - |l|)];
        }
      }
    } else {
      assert !IsSpace(v[|v| - |l|]);
      assert TrimLeft(t) == t;
      assert TrimRight(t) == t;
    }
  }

  // ---------------------------------------------------------------------------
  // Outcomes of validate_request
  // ---------------------------------------------------------------------------

  /** The rule a `PolicyViolationError` names. */
  datatype Rule = ModelDenied | ModelNotAllowed | TierExceeded | TokensExceeded | CostExceeded | ReasonRequired

  /** Which budget a budget error is about. */
  datatype Scope = Daily | Monthly

  /** Which rate limit a `RateLimitExceededError` is about. */
  datatype Limit = Rpm | Tpm

  /**
   * How `validate_request` ends: it returns (`Allowed`) or raises.
   * `InvalidProvider` is the validation error of building the default
   * policy for a provider name outside the five known ones.
   */
  datatype Outcome =
    | Allowed
    | InvalidProvider
    | ProviderDisabled
    | PolicyViolation(rule: Rule)
    | BudgetExceeded(scope: Scope)
    | FallbackToLocal(scope: Scope)
    | RateLimitExceeded(limit: Limit)

  /**
   * Whether the raised exception is a `PolicyViolationError`: every refusal
   * of the enforcer's own is one, except `FallbackToLocalError`.
   */
  predicate IsPolicyViolationError(o: Outcome) {
    o.ProviderDisabled? || o.PolicyViolation? || o.BudgetExceeded? || o.RateLimitExceeded?
  }

  /**
   * The policy `validate_request` applies to a provider. The default policy
   * is built before the lookup whether or not the tenant has an entry, so a
   * provider outside the five known names fails even when it has one.
   */
  function LookupPolicy(t: TenantPolicy, provider: string): (r: Option<ProviderPolicy>)
    ensures r.None? <==> provider !in KnownProviders
    ensures r.Some? && provider in t.providerPolicies ==> r.value == t.providerPolicies[provider]
    ensures r.Some? && ValidTenantPolicy(t) ==> ValidProviderPolicy(r.value)
  {
    match DefaultProviderPolicy(provider)
    case None => None
    case Some(d) => Some(if provider in t.providerPolicies then t.providerPolicies[provider] else d)
  }

  /** The cost-tier guard: a limit is set and the model's known tier lies above it. */
  predicate TierBlocks(p: ProviderPolicy, model: string) {
    && p.costTierLimit.Some?
    && model in ModelCostTiers
    && TierExceedsLimit(ModelCostTiers[model], p.costTierLimit.value)
  }

  /** The per-request cost guard; a ceiling of 0 means unlimited. */
  predicate CostBlocks(p: ProviderPolicy, model: string, tokens: int) {
    p.maxCostPerRequest > 0.0 && EstimateCost(model, tokens, DefaultInputRatio) > p.maxCostPerRequest
  }

  /** The enabled flag and the denied and allowed lists let the model through. */
  predicate ListsPass(p: ProviderPolicy, model: string) {
    p.enabled && model !in p.deniedModels && (p.allowedModels == [] || model in p.allowedModels)
  }

  /**
   * The guards of `validate_request` that depend on the provider policy
   * alone, in their order: enabled, denied list, allowed list, cost tier,
   * token ceiling, cost ceiling.
   */
  function Screen(p: ProviderPolicy, model: string, tokens: int): (r: Outcome)
    ensures r == Allowed <==>
      && p.enabled
      && model !in p.deniedModels
      && (p.allowedModels == [] || model in p.allowedModels)
      && !TierBlocks(p, model)
      && tokens <= p.maxTokensPerRequest
      && !CostBlocks(p, model, tokens)
    ensures !p.enabled ==> r == ProviderDisabled
    ensures p.enabled && model in p.deniedModels ==> r == PolicyViolation(ModelDenied)
    ensures p.enabled && model !in p.deniedModels && p.allowedModels != [] && model !in p.allowedModels ==>
      r == PolicyViolation(ModelNotAllowed)
    ensures ListsPass(p, model) && TierBlocks(p, model) ==> r == PolicyViolation(TierExceeded)
    ensures ListsPass(p, model) && !TierBlocks(p, model) && tokens > p.maxTokensPerRequest ==>
      r == PolicyViolation(TokensExceeded)
    ensures ListsPass(p, model) && !TierBlocks(p, model) && tokens <= p.maxTokensPerRequest && CostBlocks(p, model, tokens) ==>
      r == PolicyViolation(CostExceeded)
    ensures r == PolicyViolation(TierExceeded) ==> TierBlocks(p, model)
    ensures r == PolicyViolation(TokensExceeded) ==> tokens > p.maxTokensPerRequest
    ensures r == PolicyViolation(CostExceeded) ==> CostBlocks(p, model, tokens)
    ensures r != Allowed ==> IsPolicyViolationError(r)
  {
    if !p.enabled then ProviderDisabled
    else if |p.deniedModels| > 0 && model in p.deniedModels then PolicyViolation(ModelDenied)
    else if |p.allowedModels| > 0 && model !in p.allowedModels then PolicyViolation(ModelNotAllowed)
    else if TierBlocks(p, model) then PolicyViolation(TierExceeded)
    else if tokens > p.maxTokensPerRequest then PolicyViolation(TokensExceeded)
    else if CostBlocks(p, model, tokens) then PolicyViolation(CostExceeded)
    else Allowed
  }

  /**
   * The tier, token and cost scenarios of the policy tests: under a LOW tier
   * limit GPT-4o-mini passes and GPT-4o (MEDIUM) is refused for its tier;
   * under a 2000-token ceiling 1500 tokens pass and 3000 are refused; under a
   * 0.01 cost ceiling 500 GPT-4o-mini tokens pass and 50000 are refused for
   * their cost, not their count.
   */
  lemma ScreenExamples()
    ensures var p := ProviderPolicy("openai", [], [], 4096, 1.0, 60, 100000, Some(Low), false, true);
      && Screen(p, "gpt-4o-mini", 1000) == Allowed
      && Screen(p, "gpt-4o", 1000) == PolicyViolation(TierExceeded)
    ensures var p := ProviderPolicy("openai", [], [], 2000, 1.0, 60, 100000, None, false, true);
      && Screen(p, "gpt-4o-mini", 1500) == Allowed
      && Screen(p, "gpt-4o-mini", 3000) == PolicyViolation(TokensExceeded)
    ensures var p := ProviderPolicy("openai", [], [], 100000, 0.01, 60, 100000, None, false, true);
      && Screen(p, "gpt-4o-mini", 500) == Allowed
      && Screen(p, "gpt-4o-mini", 50000) == PolicyViolation(CostExceeded)
  {
    var p := ProviderPolicy("openai", [], [], 4096, 1.0, 60, 100000, Some(Low), false, true);
    assert !TierBlocks(p, "gpt-4o-mini");
    assert TierBlocks(p, "gpt-4o");
    assert SplitTokens(1000, DefaultInputRatio) == (700, 300);
    assert SplitTokens(1500, DefaultInputRatio) == (1050, 450);
    assert SplitTokens(500, DefaultInputRatio) == (350, 150);
    assert SplitTokens(50000, DefaultInputRatio) == (35000, 15000);
  }

  /** The daily budget the check uses: a budget of 0 is falsy and so no budget at all. */
  function DailyLimit(t: TenantPolicy): (r: Option<real>)
    ensures r.Some? <==> t.dailyBudgetUsd.Some? && t.dailyBudgetUsd.value != 0.0
    ensures r.Some? ==> r.value == t.dailyBudgetUsd.value
  {
    match t.dailyBudgetUsd
    case Some(d) => if d != 0.0 then Some(d) else None
    case None => None
  }

  /**
   * The budget guards: the daily budget first, then the monthly one; a
   * request that would take spend past a budget is sent to the local
   * fallback when the tenant allows it and refused otherwise.
   */
  function BudgetGate(t: TenantPolicy, daily: real, monthly: real, est: real): (r: Outcome)
    ensures r == Allowed <==>
      (DailyLimit(t).Some? ==> daily + est <= DailyLimit(t).value) && monthly + est <= t.monthlyBudgetUsd
    ensures r != Allowed ==> (r.FallbackToLocal? <==> t.fallbackToLocal) && (r.FallbackToLocal? || r.BudgetExceeded?)
    ensures DailyLimit(t).Some? && daily + est > DailyLimit(t).value ==> r.scope == Daily
    ensures t.dailyBudgetUsd == Some(0.0) ==> (r == Allowed <==> monthly + est <= t.monthlyBudgetUsd)
    ensures r.FallbackToLocal? ==> !IsPolicyViolationError(r)
  {
    if DailyLimit(t).Some? && daily + est > DailyLimit(t).value then
      (if t.fallbackToLocal then FallbackToLocal(Daily) else BudgetExceeded(Daily))
    else if monthly + est > t.monthlyBudgetUsd then
      (if t.fallbackToLocal then FallbackToLocal(Monthly) else BudgetExceeded(Monthly))
    else Allowed
  }

  /**
   * The tests' monthly budget case: with 0.95 spent of a 1.00 budget,
   * 2000 Claude 3 Opus tokens are refused, or sent to the local fallback
   * when the tenant allows it; a daily budget of 0 changes nothing.
   */
  lemma MonthlyBudgetExample(t: TenantPolicy)
    requires t.monthlyBudgetUsd == 1.0 && (t.dailyBudgetUsd.None? || t.dailyBudgetUsd == Some(0.0))
    ensures BudgetGate(t, 0.95, 0.95, EstimateCost("claude-3-opus", 2000, DefaultInputRatio)) ==
      (if t.fallbackToLocal then FallbackToLocal(Monthly) else BudgetExceeded(Monthly))
    ensures BudgetGate(t, 0.0, 0.0, EstimateCost("claude-3-opus", 2000, DefaultInputRatio)) == Allowed
  {
    EstimateExamples();
  }

  // ---------------------------------------------------------------------------
  // Rate window
  // ---------------------------------------------------------------------------

  /** Length of the rate window, in seconds. */
  const WindowSeconds: real := 60.0

  /** One provider's entry of `_rate_limit_state`: request times, and (time, tokens) pairs. */
  datatype RateWindow = RateWindow(requests: seq<real>, tokens: seq<(real, int)>)

  /** The entry created for a provider seen for the first time. */
  const EmptyWindow := RateWindow([], [])

  /** The two lists record the same requests: the i-th pair carries the i-th time. */
  predicate Synced(w: RateWindow) {
    && |w.requests| == |w.tokens|
    && forall i :: 0 <= i < |w.requests| ==> w.requests[i] == w.tokens[i].0
  }

  /** Every provider's window keeps its two lists in step. */
  predicate AllSynced(state: map<string, RateWindow>) {
    forall p :: p in state ==> Synced(state[p])
  }

  /** The request times strictly newer than `cutoff`, in order. */
  function NewerTimes(ts: seq<real>, cutoff: real): (r: seq<real>)
    ensures |r| <= |ts|
    ensures forall x :: x in r <==> x in ts && x > cutoff
    ensures (forall i :: 0 <= i < |ts| ==> ts[i] <= cutoff) ==> r == []
    ensures (forall i :: 0 <= i < |ts| ==> ts[i] > cutoff) ==> r == ts
  {
    if ts == [] then [] else (if ts[0] > cutoff then [ts[0]] else []) + NewerTimes(ts[1..], cutoff)
  }

  /**
   * Pruning keeps every newer time as often as it occurs, so the RPM count
   * of a window is fixed even when requests share a timestamp.
   */
  lemma {:induction false} NewerTimesCounts(ts: seq<real>, cutoff: real)
    ensures forall x :: multiset(NewerTimes(ts, cutoff))[x] == if x > cutoff then multiset(ts)[x] else 0
  {
    if ts != [] {
      NewerTimesCounts(ts[1..], cutoff);
      assert ts == [ts[0]] + ts[1..];
    }
  }

  /** The (time, tokens) pairs strictly newer than `cutoff`, in order. */
  function NewerTokens(ts: seq<(real, int)>, cutoff: real): (r: seq<(real, int)>)
    ensures |r| <= |ts|
    ensures forall x :: x in r <==> x in ts && x.0 > cutoff
    ensures (forall i :: 0 <= i < |ts| ==> ts[i].0 <= cutoff) ==> r == []
    ensures (forall i :: 0 <= i < |ts| ==> ts[i].0 > cutoff) ==> r == ts
  {
    if ts == [] then [] else (if ts[0].0 > cutoff then [ts[0]] else []) + NewerTokens(ts[1..], cutoff)
  }

  /** Pruning keeps every newer (time, tokens) pair as often as it occurs, so the TPM sum is fixed. */
  lemma {:induction false} NewerTokensCounts(ts: seq<(real, int)>, cutoff: real)
    ensures forall x :: multiset(NewerTokens(ts, cutoff))[x] == if x.0 > cutoff then multiset(ts)[x] else 0
  {
    if ts != [] {
      NewerTokensCounts(ts[1..], cutoff);
      assert ts == [ts[0]] + ts[1..];
    }
  }

  /** The window after dropping every entry not strictly newer than `cutoff`. */
  function Pruned(w: RateWindow, cutoff: real): RateWindow {
    RateWindow(NewerTimes(w.requests, cutoff), NewerTokens(w.tokens, cutoff))
  }

  /** Sum of the token counts of the pairs. */
  function TokenSum(ts: seq<(real, int)>): int {
    if ts == [] then 0 else ts[0].1 + TokenSum(ts[1..])
  }

  /**
   * One rate-limit check at time `now`: prune the window, refuse when the
   * request count has reached the RPM limit or the tokens would pass the
   * TPM limit (a limit of 0 is unlimited), and otherwise record the request.
   * The window kept is the pruned one, grown by one entry on acceptance.
   */
  function Admit(w: RateWindow, rpm: int, tpm: int, tokens: int, now: real): (r: (Outcome, RateWindow))
    ensures var p := Pruned(w, now - WindowSeconds);
      && (r.0 == Allowed <==> (rpm <= 0 || |p.requests| < rpm) && (tpm <= 0 || TokenSum(p.tokens) + tokens <= tpm))
      && (r.0 != Allowed ==> r.1 == p && r.0.RateLimitExceeded? && IsPolicyViolationError(r.0))
      && (r.0 == Allowed ==> r.1.requests == p.requests + [now] && r.1.tokens == p.tokens + [(now, tokens)])
    ensures rpm <= 0 && tpm <= 0 ==> r.0 == Allowed
  {
    var p := Pruned(w, now - WindowSeconds);
    if rpm > 0 && |p.requests| >= rpm then (RateLimitExceeded(Rpm), p)
    else if tpm > 0 && TokenSum(p.tokens) + tokens > tpm then (RateLimitExceeded(Tpm), p)
    else (Allowed, RateWindow(p.requests + [now], p.tokens + [(now, tokens)]))
  }

  /** Pruning both lists with the same cutoff keeps them in step. */
  lemma {:induction false} PrunedSynced(w: RateWindow, cutoff: real)
    requires Synced(w)
    ensures Synced(Pruned(w, cutoff))
    decreases |w.requests|
  {
    if w.requests != [] {
      var rest := RateWindow(w.requests[1..], w.tokens[1..]);
      assert Synced(rest) by {
        forall i | 0 <= i < |rest.requests| ensures rest.requests[i] == rest.tokens[i].0 {
          assert w.requests[i + 1] == w.tokens[i + 1].0;
        }
      }
      PrunedSynced(rest, cutoff);
      assert w.requests[0] == w.tokens[0].0;
    }
  }

  /** Every check leaves the two lists of the window in step. */
  lemma AdmitSynced(w: RateWindow, rpm: int, tpm: int, tokens: int, now: real)
    requires Synced(w)
    ensures Synced(Admit(w, rpm, tpm, tokens, now).1)
  {
    PrunedSynced(w, now - WindowSeconds);
  }

  /** Dropping pairs with non-negative token counts never raises the sum. */
  lemma {:induction false} PrunedTokenSum(ts: seq<(real, int)>, cutoff: real)
    requires forall i :: 0 <= i < |ts| ==> ts[i].1 >= 0
    ensures 0 <= TokenSum(NewerTokens(ts, cutoff)) <= TokenSum(ts)
  {
    if ts != [] {
      PrunedTokenSum(ts[1..], cutoff);
      var rest := NewerTokens(ts[1..], cutoff);
      if ts[0].0 > cutoff {
        assert NewerTokens(ts, cutoff) == [ts[0]] + rest;
        assert ([ts[0]] + rest)[1..] == rest;
      } else {
        assert NewerTokens(ts, cutoff) == rest;
      }
    }
  }

  /** The counts of a window kept within the provider's RPM and TPM limits. */
  predicate WithinLimits(w: RateWindow, rpm: int, tpm: int) {
    && (rpm > 0 ==> |w.requests| <= rpm)
    && (tpm > 0 ==> TokenSum(w.tokens) <= tpm)
    && (forall i :: 0 <= i < |w.tokens| ==> w.tokens[i].1 >= 0)
  }

  /**
   * The limits are never passed: if the window respects them before a
   * check for a non-negative token count, it respects them after, accepted
   * or not.
   */
  lemma {:induction false} AdmitKeepsLimits(w: RateWindow, rpm: int, tpm: int, tokens: int, now: real)
    requires WithinLimits(w, rpm, tpm) && tokens >= 0
    ensures WithinLimits(Admit(w, rpm, tpm, tokens, now).1, rpm, tpm)
  {
    var p := Pruned(w, now - WindowSeconds);
    PrunedTokenSum(w.tokens, now - WindowSeconds);
    var r := Admit(w, rpm, tpm, tokens, now);
    forall i | 0 <= i < |p.tokens| ensures p.tokens[i].1 >= 0 {
      assert p.tokens[i] in w.tokens;
    }
    if r.0 == Allowed {
      TokenSumAppend(p.tokens, (now, tokens));
    }
  }

  /** Appending one pair adds its count to the sum. */
  lemma {:induction false} TokenSumAppend(ts: seq<(real, int)>, x: (real, int))
    ensures TokenSum(ts + [x]) == TokenSum(ts) + x.1
  {
    if ts == [] {
      assert [x][1..] == [];
    } else {
      assert (ts + [x])[1..] == ts[1..] + [x];
      TokenSumAppend(ts[1..], x);
    }
  }

  /** Entries a minute old or older no longer count: a stale window admits any request within the limits. */
  lemma WindowExpires(w: RateWindow, rpm: int, tpm: int, tokens: int, now: real)
    requires forall i :: 0 <= i < |w.requests| ==> w.requests[i] <= now - WindowSeconds
    requires forall i :: 0 <= i < |w.tokens| ==> w.tokens[i].0 <= now - WindowSeconds
    requires rpm != 0 ==> rpm >= 1
    requires tpm > 0 ==> tokens <= tpm
    ensures Admit(w, rpm, tpm, tokens, now) == (Allowed, RateWindow([now], [(now, tokens)]))
  {
    var p := Pruned(w, now - WindowSeconds);
    assert p == EmptyWindow;
    assert |p.requests| == 0 && TokenSum(p.tokens) == 0;
    assert p.requests + [now] == [now];
    assert p.tokens + [(now, tokens)] == [(now, tokens)];
  }

  /** A window whose entries all lie within the last minute loses nothing to pruning. */
  lemma PruneRecent(w: RateWindow, now: real)
    requires forall i :: 0 <= i < |w.requests| ==> w.requests[i] > now - WindowSeconds
    requires forall i :: 0 <= i < |w.tokens| ==> w.tokens[i].0 > now - WindowSeconds
    ensures Pruned(w, now - WindowSeconds) == w
  {
  }

  /** A check of a window with nothing to prune, within both limits, records the request. */
  lemma AdmitRecorded(w: RateWindow, rpm: int, tpm: int, tokens: int, now: real, w': RateWindow)
    requires Pruned(w, now - WindowSeconds) == w
    requires rpm <= 0 || |w.requests| < rpm
    requires tpm <= 0 || TokenSum(w.tokens) + tokens <= tpm
    requires w' == RateWindow(w.requests + [now], w.tokens + [(now, tokens)])
    ensures Admit(w, rpm, tpm, tokens, now) == (Allowed, w')
  {
  }

  /** The tests' RPM case: with a limit of 2, the third request within a minute is refused. */
  lemma RpmExample(t: real)
    ensures var a := Admit(EmptyWindow, 2, 100000, 100, t);
      var b := Admit(a.1, 2, 100000, 100, t + 1.0);
      var c := Admit(b.1, 2, 100000, 100, t + 2.0);
      a.0 == Allowed && b.0 == Allowed && c.0 == RateLimitExceeded(Rpm)
  {
    var w1 := RateWindow([t], [(t, 100)]);
    var w2 := RateWindow([t, t + 1.0], [(t, 100), (t + 1.0, 100)]);
    PruneRecent(EmptyWindow, t);
    AdmitRecorded(EmptyWindow, 2, 100000, 100, t, w1);
    PruneRecent(w1, t + 1.0);
    assert TokenSum(w1.tokens) == 100 by {
      assert w1.tokens[1..] == [];
    }
    AdmitRecorded(w1, 2, 100000, 100, t + 1.0, w2);
    PruneRecent(w2, t + 2.0);
    assert Admit(w2, 2, 100000, 100, t + 2.0).0 == RateLimitExceeded(Rpm);
  }

  /** The tests' TPM case: with a limit of 1000, requests of 500 and 400 pass and one of 200 is refused. */
  lemma TpmExample(t: real)
    ensures var a := Admit(EmptyWindow, 60, 1000, 500, t);
      var b := Admit(a.1, 60, 1000, 400, t + 1.0);
      var c := Admit(b.1, 60, 1000, 200, t + 2.0);
      a.0 == Allowed && b.0 == Allowed && c.0 == RateLimitExceeded(Tpm)
  {
    var w1 := RateWindow([t], [(t, 500)]);
    var w2 := RateWindow([t, t + 1.0], [(t, 500), (t + 1.0, 400)]);
    PruneRecent(EmptyWindow, t);
    AdmitRecorded(EmptyWindow, 60, 1000, 500, t, w1);
    PruneRecent(w1, t + 1.0);
    assert TokenSum(w1.tokens) == 500 by {
      assert w1.tokens[1..] == [];
    }
    AdmitRecorded(w1, 60, 1000, 400, t + 1.0, w2);
    PruneRecent(w2, t + 2.0);
    assert TokenSum(w2.tokens) == 900 by {
      assert w2.tokens[1..] == [(t + 1.0, 400)];
      assert w2.tokens[1..][1..] == [];
    }
    assert Admit(w2, 60, 1000, 200, t + 2.0).0 == RateLimitExceeded(Tpm);
  }

  // ---------------------------------------------------------------------------
  // Usage records and the usage report
  // ---------------------------------------------------------------------------

  /** `UsageRecord`; `timestamp` in seconds. */
  datatype UsageRecord = UsageRecord(
    timestamp: real,
    tenantId: string,
    provider: string,
    model: string,
    tokensInput: int,
    tokensOutput: int,
    tokensTotal: int,
    costUsd: real,
    latencyMs: real,
    success: bool,
    reason: Option<string>)

  /** Seconds in a day, for `timedelta(days=days)`. */
  const SecondsPerDay: real := 86400.0

  /**
   * The records at or after `cutoff`, in order. The telemetry collector
   * filters its own metric type the same way (`Telemetry.InWindow`); the two
   * stay separate because each module mirrors its own source file and record
   * type.
   */
  function Recent(rs: seq<UsageRecord>, cutoff: real): (r: seq<UsageRecord>)
    ensures |r| <= |rs|
    ensures forall x :: x in r <==> x in rs && x.timestamp >= cutoff
  {
    if rs == [] then []
    else (if rs[0].timestamp >= cutoff then [rs[0]] else []) + Recent(rs[1..], cutoff)
  }

  /** The report's window keeps every recent record as often as it was logged. */
  lemma {:induction false} RecentCounts(rs: seq<UsageRecord>, cutoff: real)
    ensures forall x :: multiset(Recent(rs, cutoff))[x] == if x.timestamp >= cutoff then multiset(rs)[x] else 0
  {
    if rs != [] {
      RecentCounts(rs[1..], cutoff);
      assert rs == [rs[0]] + rs[1..];
    }
  }

  /** What each record adds to the by-provider breakdown. */
  function ProviderItems(rs: seq<UsageRecord>): (r: seq<Item>)
    ensures |r| == |rs|
    ensures forall i :: 0 <= i < |rs| ==> r[i] == Item(rs[i].provider, rs[i].costUsd, rs[i].tokensTotal)
  {
    if rs == [] then [] else ProviderItems(rs[..|rs| - 1]) + [Item(rs[|rs| - 1].provider, rs[|rs| - 1].costUsd, rs[|rs| - 1].tokensTotal)]
  }

  /** What each record adds to the by-model breakdown. */
  function ModelItems(rs: seq<UsageRecord>): (r: seq<Item>)
    ensures |r| == |rs|
    ensures forall i :: 0 <= i < |rs| ==> r[i] == Item(rs[i].model, rs[i].costUsd, rs[i].tokensTotal)
  {
    if rs == [] then [] else ModelItems(rs[..|rs| - 1]) + [Item(rs[|rs| - 1].model, rs[|rs| - 1].costUsd, rs[|rs| - 1].tokensTotal)]
  }

  /** Sum of the latencies of all records. */
  function LatencySum(rs: seq<UsageRecord>): real {
    if rs == [] then 0.0 else LatencySum(rs[..|rs| - 1]) + rs[|rs| - 1].latencyMs
  }

  /** Sum of the latencies of the records for `model`. */
  function ModelLatencySum(rs: seq<UsageRecord>, model: string): real {
    if rs == [] then 0.0
    else ModelLatencySum(rs[..|rs| - 1], model) + (if rs[|rs| - 1].model == model then rs[|rs| - 1].latencyMs else 0.0)
  }

  /** Number of successful records. */
  function SuccessCount(rs: seq<UsageRecord>): (n: nat)
    ensures n <= |rs|
  {
    if rs == [] then 0 else SuccessCount(rs[..|rs| - 1]) + (if rs[|rs| - 1].success then 1 else 0)
  }

  /** The value of a report row: the totals, then the averages a `by_provider` or a `by_model` row carries. */
  datatype RowStats =
    | ProviderStats(totals: Bucket, avgLatencyMs: real, successRate: real)
    | ModelStats(totals: Bucket, avgLatencyMs: real)

  /** `budget_remaining_usd` and `budget_used_pct`, which the report of an empty window lacks. */
  datatype BudgetStatus = BudgetStatus(remainingUsd: real, usedPct: real)

  /**
   * `budget_remaining_usd` is what is left of the monthly budget, never
   * negative; `budget_used_pct` is the spend as a percentage of the budget,
   * or 0 when the budget is 0.
   */
  function BudgetOf(budget: real, spent: real): (b: BudgetStatus)
    ensures b.remainingUsd >= 0.0 && b.remainingUsd >= budget - spent
    ensures b.remainingUsd == 0.0 || b.remainingUsd == budget - spent
    ensures budget > 0.0 ==> b.usedPct * budget == spent * 100.0
    ensures budget <= 0.0 ==> b.usedPct == 0.0
  {
    BudgetStatus(MaxReal(0.0, budget - spent), if budget > 0.0 then spent / budget * 100.0 else 0.0)
  }

  /** The dict `get_usage_report` returns. */
  datatype UsageReport = UsageReport(
    tenantId: string,
    periodDays: int,
    totalRequests: nat,
    totalCostUsd: real,
    totalTokens: int,
    byProvider: seq<Entry<RowStats>>,
    byModel: seq<Entry<RowStats>>,
    budget: Option<BudgetStatus>)

  /** The totals of each row of `by_provider` or `by_model`. */
  function Totals(d: seq<Entry<RowStats>>): (r: seq<Entry<Bucket>>)
    ensures |r| == |d|
    ensures forall i :: 0 <= i < |d| ==> r[i] == Entry(d[i].key, d[i].value.totals)
  {
    if d == [] then [] else Totals(d[..|d| - 1]) + [Entry(d[|d| - 1].key, d[|d| - 1].value.totals)]
  }

  // ---------------------------------------------------------------------------
  // The enforcer
  // ---------------------------------------------------------------------------

  /** `reason` is truthy: present and not the empty string. */
  predicate HasReason(reason: Option<string>) {
    reason.Some? && reason.value != ""
  }

  /** The rate window of `provider` in `state`, empty when it has none yet. */
  function WindowIn(state: map<string, RateWindow>, provider: string): RateWindow {
    if provider in state then state[provider] else EmptyWindow
  }

  /** What `validate_request` reads or changes of an enforcer: its spend counters and its rate windows. */
  datatype Ledger = Ledger(monthlySpend: real, dailySpend: real, lastDailyReset: int, rateState: map<string, RateWindow>)

  /** The arguments of `validate_request` that describe the request. */
  datatype Request = Request(provider: string, model: string, estimatedTokens: int, reason: Option<string>)

  /** `_reset_daily_budget_if_needed`: a strictly later day clears the daily spend. */
  function DailyReset(l: Ledger, today: int): (r: Ledger)
    ensures r.monthlySpend == l.monthlySpend && r.rateState == l.rateState
    ensures r.lastDailyReset >= l.lastDailyReset
    ensures r.lastDailyReset == l.lastDailyReset ==> r == l
    ensures r.lastDailyReset != l.lastDailyReset ==> r.lastDailyReset == today && r.dailySpend == 0.0
  {
    if today > l.lastDailyReset then l.(dailySpend := 0.0, lastDailyReset := today) else l
  }

  /**
   * `validate_request` on the enforcer's state: the outcome and the state
   * it leaves. The guards run in their fixed order and the first refusal
   * ends the check. The daily reset happens only once the policy guards
   * pass, and the rate window changes only once the budget guards pass. A
   * request refused for want of a reason has already been recorded in the
   * rate window.
   */
  function Validate(t: TenantPolicy, l: Ledger, q: Request, now: real, today: int): (r: (Outcome, Ledger))
    ensures var pp := LookupPolicy(t, q.provider);
      r.0 == Allowed <==>
        && pp.Some?
        && Screen(pp.value, q.model, q.estimatedTokens) == Allowed
        && BudgetGate(t, DailyReset(l, today).dailySpend, l.monthlySpend,
                      EstimateCost(q.model, q.estimatedTokens, DefaultInputRatio)) == Allowed
        && Admit(WindowIn(l.rateState, q.provider), pp.value.rateLimitRpm, pp.value.rateLimitTpm, q.estimatedTokens, now).0 == Allowed
        && (pp.value.requireReason ==> HasReason(q.reason))
    ensures LookupPolicy(t, q.provider).None? <==> r == (InvalidProvider, l)
    ensures var pp := LookupPolicy(t, q.provider);
      pp.Some? && Screen(pp.value, q.model, q.estimatedTokens) != Allowed ==>
        r == (Screen(pp.value, q.model, q.estimatedTokens), l)
    ensures var pp := LookupPolicy(t, q.provider);
      pp.Some? && Screen(pp.value, q.model, q.estimatedTokens) == Allowed ==>
        r.1.dailySpend == DailyReset(l, today).dailySpend && r.1.lastDailyReset == DailyReset(l, today).lastDailyReset
    ensures var pp := LookupPolicy(t, q.provider);
      var gate := BudgetGate(t, DailyReset(l, today).dailySpend, l.monthlySpend,
                             EstimateCost(q.model, q.estimatedTokens, DefaultInputRatio));
      pp.Some? && Screen(pp.value, q.model, q.estimatedTokens) == Allowed && gate != Allowed ==>
        r == (gate, DailyReset(l, today))
    ensures var pp := LookupPolicy(t, q.provider);
      && pp.Some? && Screen(pp.value, q.model, q.estimatedTokens) == Allowed
      && BudgetGate(t, DailyReset(l, today).dailySpend, l.monthlySpend,
                    EstimateCost(q.model, q.estimatedTokens, DefaultInputRatio)) == Allowed
      ==> var a := Admit(WindowIn(l.rateState, q.provider), pp.value.rateLimitRpm, pp.value.rateLimitTpm, q.estimatedTokens, now);
          r.1.rateState == l.rateState[q.provider := a.1] && (a.0 != Allowed ==> r.0 == a.0)
    ensures var pp := LookupPolicy(t, q.provider);
      && pp.Some? && Screen(pp.value, q.model, q.estimatedTokens) == Allowed
      && BudgetGate(t, DailyReset(l, today).dailySpend, l.monthlySpend,
                    EstimateCost(q.model, q.estimatedTokens, DefaultInputRatio)) == Allowed
      && Admit(WindowIn(l.rateState, q.provider), pp.value.rateLimitRpm, pp.value.rateLimitTpm, q.estimatedTokens, now).0 == Allowed
      && pp.value.requireReason && !HasReason(q.reason)
      ==> r.0 == PolicyViolation(ReasonRequired)
    ensures r.1.monthlySpend == l.monthlySpend
    ensures r.1 == l || r.1.lastDailyReset > l.lastDailyReset || r.1.rateState != l.rateState
    ensures r.1.lastDailyReset >= l.lastDailyReset
    ensures r.1.rateState == l.rateState || r.1.rateState.Keys == l.rateState.Keys + {q.provider}
    ensures r.0 != Allowed && !r.0.RateLimitExceeded? && r.0 != PolicyViolation(ReasonRequired) ==>
      r.1.rateState == l.rateState
    ensures r.0 == PolicyViolation(ReasonRequired) ==>
      |WindowIn(r.1.rateState, q.provider).requests| == |Pruned(WindowIn(l.rateState, q.provider), now - WindowSeconds).requests| + 1
    ensures AllSynced(l.rateState) ==> AllSynced(r.1.rateState)
  {
    match LookupPolicy(t, q.provider)
    case None => (InvalidProvider, l)
    case Some(pp) =>
      var screen := Screen(pp, q.model, q.estimatedTokens);
      if screen != Allowed then (screen, l)
      else
        var reset := DailyReset(l, today);
        var gate := BudgetGate(t, reset.dailySpend, reset.monthlySpend, EstimateCost(q.model, q.estimatedTokens, DefaultInputRatio));
        if gate != Allowed then (gate, reset)
        else
          var w := WindowIn(l.rateState, q.provider);
          var a := Admit(w, pp.rateLimitRpm, pp.rateLimitTpm, q.estimatedTokens, now);
          var after := reset.(rateState := l.rateState[q.provider := a.1]);
          AdmitStored(l.rateState, w, q.provider, pp.rateLimitRpm, pp.rateLimitTpm, q.estimatedTokens, now);
          if a.0 != Allowed then (a.0, after)
          else if pp.requireReason && !HasReason(q.reason) then (PolicyViolation(ReasonRequired), after)
          else (Allowed, after)
  }

  /** Storing the window a check leaves keeps every window in step. */
  lemma AdmitStored(state: map<string, RateWindow>, w: RateWindow, provider: string, rpm: int, tpm: int, tokens: int, now: real)
    requires w == WindowIn(state, provider)
    ensures AllSynced(state) ==> AllSynced(state[provider := Admit(w, rpm, tpm, tokens, now).1])
  {
    if AllSynced(state) {
      AdmitSynced(w, rpm, tpm, tokens, now);
      StoreSynced(state, provider, Admit(w, rpm, tpm, tokens, now).1);
    }
  }

  /**
   * The rate limits of the provider a request names are never passed: if
   * its window respects them before a check for a non-negative token count,
   * it respects them after, whatever the outcome.
   */
  lemma ValidateKeepsLimits(t: TenantPolicy, l: Ledger, q: Request, now: real, today: int)
    requires LookupPolicy(t, q.provider).Some? && q.estimatedTokens >= 0
    ensures var pp := LookupPolicy(t, q.provider).value;
      WithinLimits(WindowIn(l.rateState, q.provider), pp.rateLimitRpm, pp.rateLimitTpm) ==>
        WithinLimits(WindowIn(Validate(t, l, q, now, today).1.rateState, q.provider), pp.rateLimitRpm, pp.rateLimitTpm)
  {
    var pp := LookupPolicy(t, q.provider).value;
    var w := WindowIn(l.rateState, q.provider);
    if WithinLimits(w, pp.rateLimitRpm, pp.rateLimitTpm) {
      AdmitKeepsLimits(w, pp.rateLimitRpm, pp.rateLimitTpm, q.estimatedTokens, now);
    }
  }

  /** `PolicyEnforcer`: one tenant's policy, its spend counters, its usage log and its rate windows. */
  class PolicyEnforcer {
    const policy: TenantPolicy
    var usageRecords: seq<UsageRecord>
    var monthlySpend: real
    var dailySpend: real
    /** Day number of the last daily reset. */
    var lastDailyReset: int
    var rateState: map<string, RateWindow>

    /** Every rate window keeps its two lists in step. */
    ghost predicate Valid()
      reads this
    {
      AllSynced(rateState)
    }

    /** The spend counters and rate windows, as one value. */
    function State(): Ledger
      reads this
    {
      Ledger(monthlySpend, dailySpend, lastDailyReset, rateState)
    }

    /** A fresh enforcer on day `today`: nothing spent, nothing recorded. */
    constructor (policy: TenantPolicy, today: int)
      requires ValidTenantPolicy(policy)
      ensures Valid()
      ensures this.policy == policy && usageRecords == [] && rateState == map[]
      ensures monthlySpend == 0.0 && dailySpend == 0.0 && lastDailyReset == today
    {
      this.policy := policy;
      usageRecords := [];
      monthlySpend := 0.0;
      dailySpend := 0.0;
      lastDailyReset := today;
      rateState := map[];
    }

    /**
     * `_check_rate_limits`: the provider's window is pruned and stored even
     * when the request is refused; an accepted request is recorded in it.
     */
    method CheckRateLimits(provider: string, p: ProviderPolicy, tokens: int, now: real) returns (out: Outcome)
      requires Valid()
      modifies this`rateState
      ensures Valid()
      ensures var a := Admit(WindowIn(old(rateState), provider), p.rateLimitRpm, p.rateLimitTpm, tokens, now);
        out == a.0 && rateState == old(rateState)[provider := a.1]
    {
      var state := WindowIn(rateState, provider);
      var minuteAgo := now - WindowSeconds;
      var pruned := Pruned(state, minuteAgo);
      ghost var a := Admit(state, p.rateLimitRpm, p.rateLimitTpm, tokens, now);
      AdmitSynced(state, p.rateLimitRpm, p.rateLimitTpm, tokens, now);
      PrunedSynced(state, minuteAgo);
      StoreSynced(rateState, provider, pruned);
      rateState := rateState[provider := pruned];
      if p.rateLimitRpm > 0 && |pruned.requests| >= p.rateLimitRpm {
        assert a == (RateLimitExceeded(Rpm), pruned);
        return RateLimitExceeded(Rpm);
      }
      var tokensInWindow := TokenSum(pruned.tokens);
      if p.rateLimitTpm > 0 && tokensInWindow + tokens > p.rateLimitTpm {
        assert a == (RateLimitExceeded(Tpm), pruned);
        return RateLimitExceeded(Tpm);
      }
      var recorded := RateWindow(pruned.requests + [now], pruned.tokens + [(now, tokens)]);
      assert a == (Allowed, recorded);
      StoreSynced(rateState, provider, recorded);
      rateState := rateState[provider := recorded];
      out := Allowed;
    }

    /** `_reset_daily_budget_if_needed`: a strictly later day clears the daily spend. */
    method ResetDailyBudgetIfNeeded(today: int)
      modifies this`dailySpend, this`lastDailyReset
      ensures State() == DailyReset(old(State()), today)
    {
      if today > lastDailyReset {
        dailySpend := 0.0;
        lastDailyReset := today;
      }
    }

    /** `validate_request`: the outcome and the new state are those `Validate` gives. */
    method ValidateRequest(provider: string, model: string, estimatedTokens: int, reason: Option<string>, now: real, today: int)
      returns (out: Outcome)
      requires Valid()
      modifies this`dailySpend, this`lastDailyReset, this`rateState
      ensures Valid()
      ensures (out, State()) == Validate(policy, old(State()), Request(provider, model, estimatedTokens, reason), now, today)
      ensures usageRecords == old(usageRecords)
    {
      var found := LookupPolicy(policy, provider);
      if found.None? {
        return InvalidProvider;
      }
      var pp := found.value;
      out := Screen(pp, model, estimatedTokens);
      if out != Allowed {
        return;
      }
      var estimatedCost := EstimateCost(model, estimatedTokens, DefaultInputRatio);
      ResetDailyBudgetIfNeeded(today);
      out := BudgetGate(policy, dailySpend, monthlySpend, estimatedCost);
      if out != Allowed {
        return;
      }
      out := CheckRateLimits(provider, pp, estimatedTokens, now);
      if out != Allowed {
        return;
      }
      if pp.requireReason && !HasReason(reason) {
        out := PolicyViolation(ReasonRequired);
      }
    }

    /**
     * `record_usage`: nothing when usage tracking is off; otherwise one
     * record appended and its cost added to both spend counters.
     */
    method RecordUsage(provider: string, model: string, tokensInput: int, tokensOutput: int,
                       costUsd: real, latencyMs: real, success: bool, reason: Option<string>, now: real)
      modifies this`usageRecords, this`monthlySpend, this`dailySpend
      ensures !policy.trackUsage ==>
        usageRecords == old(usageRecords) && monthlySpend == old(monthlySpend) && dailySpend == old(dailySpend)
      ensures policy.trackUsage ==>
        && usageRecords == old(usageRecords) + [UsageRecord(now, policy.tenantId, provider, model, tokensInput,
                                                             tokensOutput, tokensInput + tokensOutput, costUsd,
                                                             latencyMs, success, reason)]
        && monthlySpend == old(monthlySpend) + costUsd
        && dailySpend == old(dailySpend) + costUsd
    {
      if !policy.trackUsage {
        return;
      }
      var record := UsageRecord(now, policy.tenantId, provider, model, tokensInput, tokensOutput,
                                tokensInput + tokensOutput, costUsd, latencyMs, success, reason);
      usageRecords := usageRecords + [record];
      monthlySpend := monthlySpend + costUsd;
      dailySpend := dailySpend + costUsd;
    }

    /** `reset_monthly_budget`. */
    method ResetMonthlyBudget()
      modifies this`monthlySpend
      ensures monthlySpend == 0.0
    {
      monthlySpend := 0.0;
    }

    /**
     * `get_usage_report`: the records of the last `days` days, their totals,
     * the breakdowns by provider and by model (rows in order of first
     * appearance, counts summing to the total), and the budget status.
     * Every provider row carries the average latency and success rate of
     * the whole window, not of that provider; model rows carry their own
     * average latency.
     */
    method GetUsageReport(days: int, now: real) returns (report: UsageReport)
      ensures var recent := Recent(usageRecords, now - days as real * SecondsPerDay);
        recent == [] ==> report == UsageReport(policy.tenantId, days, 0, 0.0, 0, [], [], None)
      ensures var recent := Recent(usageRecords, now - days as real * SecondsPerDay);
        recent != [] ==>
          && report.tenantId == policy.tenantId && report.periodDays == days
          && report.budget == Some(BudgetOf(policy.monthlyBudgetUsd, monthlySpend))
          && SummarizesWindow(report, recent)
    {
      var cutoff := now - days as real * SecondsPerDay;
      var recent := Recent(usageRecords, cutoff);
      if |recent| == 0 {
        return UsageReport(policy.tenantId, days, 0, 0.0, 0, [], [], None);
      }
      report := SummarizeWindow(recent, policy.tenantId, days, BudgetOf(policy.monthlyBudgetUsd, monthlySpend));
    }
  }

  /**
   * What a report says about a non-empty window: its totals, breakdowns
   * whose counts and costs sum to those totals with one row per provider
   * and per model in order of first appearance, every provider row with the
   * window-wide average latency and success rate, and every model row with
   * its own model's average latency.
   */
  ghost predicate SummarizesWindow(report: UsageReport, recent: seq<UsageRecord>)
    requires recent != []
  {
    && report.totalRequests == |recent|
    && report.totalCostUsd == ItemCost(ProviderItems(recent))
    && report.totalTokens == ItemTokens(ProviderItems(recent))
    && Totals(report.byProvider) == TallyAll(ProviderItems(recent))
    && Totals(report.byModel) == TallyAll(ModelItems(recent))
    && Requests(Totals(report.byProvider)) == report.totalRequests
    && Requests(Totals(report.byModel)) == report.totalRequests
    && Cost(Totals(report.byProvider)) == report.totalCostUsd
    && Cost(Totals(report.byModel)) == report.totalCostUsd
    && DistinctKeys(report.byProvider) && DistinctKeys(report.byModel)
    && (forall i :: 0 <= i < |report.byProvider| ==>
          && report.byProvider[i].value.ProviderStats?
          && report.byProvider[i].value.avgLatencyMs == LatencySum(recent) / |recent| as real
          && report.byProvider[i].value.successRate == SuccessCount(recent) as real / |recent| as real * 100.0)
    && (forall i :: 0 <= i < |report.byModel| ==> ModelRowAveraged(report.byModel[i], recent))
  }

  /** The report of a non-empty window, the loops of `get_usage_report` in their order. */
  method SummarizeWindow(recent: seq<UsageRecord>, tenantId: string, days: int, budget: BudgetStatus)
    returns (report: UsageReport)
    requires recent != []
    ensures report.tenantId == tenantId && report.periodDays == days && report.budget == Some(budget)
    ensures SummarizesWindow(report, recent)
  {
    var providers, models := TallyRecords(recent);
    var pitems, mitems := ProviderItems(recent), ModelItems(recent);
    TallyTotals(pitems);
    TallyTotals(mitems);
    ItemsAgree(recent);
    var avgLatency := LatencySum(recent) / |recent| as real;
    var successRate := SuccessCount(recent) as real / |recent| as real * 100.0;
    var byProvider := ProviderRows(providers, avgLatency, successRate);
    var byModel := ModelRows(models, recent);
    DistinctTotals(byProvider, Totals(byProvider));
    DistinctTotals(byModel, Totals(byModel));
    report := UsageReport(tenantId, days, |recent|, ItemCost(pitems), ItemTokens(pitems), byProvider, byModel, Some(budget));
  }

  /** Both breakdowns are fed the same costs and tokens, so their sums agree. */
  lemma {:induction false} ItemsAgree(rs: seq<UsageRecord>)
    ensures ItemCost(ProviderItems(rs)) == ItemCost(ModelItems(rs))
    ensures ItemTokens(ProviderItems(rs)) == ItemTokens(ModelItems(rs))
  {
    if rs != [] {
      ItemsAgree(rs[..|rs| - 1]);
      assert ProviderItems(rs)[..|rs| - 1] == ProviderItems(rs[..|rs| - 1]);
      assert ModelItems(rs)[..|rs| - 1] == ModelItems(rs[..|rs| - 1]);
    }
  }

  /** Storing a window whose lists are in step keeps every window of the state in step. */
  lemma StoreSynced(state: map<string, RateWindow>, provider: string, w: RateWindow)
    requires AllSynced(state) && Synced(w)
    ensures AllSynced(state[provider := w])
  {
  }

  /** The first loop of `get_usage_report`: both breakdowns' counts, costs and tokens, one record at a time. */
  method TallyRecords(recent: seq<UsageRecord>) returns (providers: seq<Entry<Bucket>>, models: seq<Entry<Bucket>>)
    ensures providers == TallyAll(ProviderItems(recent))
    ensures models == TallyAll(ModelItems(recent))
  {
    providers, models := [], [];
    var i := 0;
    while i < |recent|
      invariant 0 <= i <= |recent|
      invariant providers == TallyAll(ProviderItems(recent[..i]))
      invariant models == TallyAll(ModelItems(recent[..i]))
    {
      var r := recent[i];
      assert recent[..i + 1][..i] == recent[..i];
      providers := Add(providers, Item(r.provider, r.costUsd, r.tokensTotal));
      models := Add(models, Item(r.model, r.costUsd, r.tokensTotal));
      i := i + 1;
    }
    assert recent[..|recent|] == recent;
  }

  /** The averaging loop over `by_provider`: every row gets the window-wide latency and success rate. */
  method ProviderRows(providers: seq<Entry<Bucket>>, avgLatency: real, successRate: real)
    returns (rows: seq<Entry<RowStats>>)
    ensures Totals(rows) == providers
    ensures forall k :: 0 <= k < |rows| ==> rows[k].value.ProviderStats? && rows[k].value.avgLatencyMs == avgLatency && rows[k].value.successRate == successRate
  {
    rows := [];
    var j := 0;
    while j < |providers|
      invariant 0 <= j <= |providers|
      invariant Totals(rows) == providers[..j]
      invariant forall k :: 0 <= k < j ==> rows[k].value.ProviderStats? && rows[k].value.avgLatencyMs == avgLatency && rows[k].value.successRate == successRate
    {
      var row := Entry(providers[j].key, ProviderStats(providers[j].value, avgLatency, successRate));
      assert (rows + [row])[..j] == rows;
      rows := rows + [row];
      TakeSnoc(providers, j);
      j := j + 1;
    }
    assert providers[..|providers|] == providers;
  }

  /** A `by_model` row carries the average latency of the window's records for its model. */
  predicate ModelRowAveraged(row: Entry<RowStats>, recent: seq<UsageRecord>) {
    && row.value.ModelStats?
    && CountOf(ModelItems(recent), row.key) > 0
    && row.value.avgLatencyMs == ModelLatencySum(recent, row.key) / CountOf(ModelItems(recent), row.key) as real
  }

  /** The averaging loop over `by_model`: each row gets the average latency of its own model's records. */
  method ModelRows(models: seq<Entry<Bucket>>, recent: seq<UsageRecord>) returns (rows: seq<Entry<RowStats>>)
    requires models == TallyAll(ModelItems(recent))
    ensures Totals(rows) == models
    ensures forall k :: 0 <= k < |rows| ==> ModelRowAveraged(rows[k], recent)
  {
    rows := [];
    var j := 0;
    while j < |models|
      invariant 0 <= j <= |models| && |rows| == j
      invariant Totals(rows) == models[..j]
      invariant forall k :: 0 <= k < j ==> ModelRowAveraged(rows[k], recent)
    {
      var m := models[j].key;
      var count := ModelCount(models, recent, j);
      var row := Entry(m, ModelStats(models[j].value, ModelLatencySum(recent, m) / count as real));
      TotalsSnoc(rows, row);
      AveragedSnoc(rows, row, recent);
      rows := rows + [row];
      TakeSnoc(models, j);
      j := j + 1;
    }
    assert models[..|models|] == models;
  }

  /** Appending a row appends its totals. */
  lemma TotalsSnoc(rows: seq<Entry<RowStats>>, row: Entry<RowStats>)
    ensures Totals(rows + [row]) == Totals(rows) + [Entry(row.key, row.value.totals)]
  {
    assert (rows + [row])[..|rows|] == rows;
  }

  /** Appending a row with its model's average keeps every row averaged. */
  lemma AveragedSnoc(rows: seq<Entry<RowStats>>, row: Entry<RowStats>, recent: seq<UsageRecord>)
    requires forall k :: 0 <= k < |rows| ==> ModelRowAveraged(rows[k], recent)
    ensures ModelRowAveraged(row, recent) ==> forall k :: 0 <= k < |rows| + 1 ==> ModelRowAveraged((rows + [row])[k], recent)
  {
  }

  /** `len(model_records)` for the model of row `j`: never 0, since the row exists. */
  function ModelCount(models: seq<Entry<Bucket>>, recent: seq<UsageRecord>, j: int): (n: nat)
    requires models == TallyAll(ModelItems(recent)) && 0 <= j < |models|
    ensures n == CountOf(ModelItems(recent), models[j].key) && n > 0
  {
    KeyAtIn(models, j);
    TallyKeyed(ModelItems(recent), models[j].key);
    CountOf(ModelItems(recent), models[j].key)
  }

  /** Two dicts with the same keys row by row have the same key set, and are both free of duplicates or not. */
  lemma {:induction false} DistinctTotals<V, W>(d: seq<Entry<V>>, e: seq<Entry<W>>)
    requires |d| == |e| && forall i :: 0 <= i < |d| ==> d[i].key == e[i].key
    ensures KeySet(d) == KeySet(e)
    ensures DistinctKeys(d) <==> DistinctKeys(e)
  {
    if d != [] {
      DistinctTotals(d[1..], e[1..]);
    }
  }
}
