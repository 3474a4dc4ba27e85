# netrun-llm core in Dafny

This project models the request-governance core of the `netrun-llm`
package and proves properties of it:

- **Policy enforcer** (`netrun/llm/policies.py`). `PolicyEnforcer` runs a
  fixed chain of checks before each request:
  1. provider enabled;
  2. denied list, then allowed list;
  3. cost tier;
  4. token ceiling;
  5. per-request cost ceiling;
  6. daily budget, then monthly budget;
  7. the one-minute RPM/TPM window;
  8. reason required.

  It also keeps the spend counters, the usage log and the usage report. The
  cost and tier tables, `estimate_cost` and `get_model_pricing` are in
  `pricing.dfy`. Each exception of the chain is a tagged outcome
  (`ProviderDisabled`, `PolicyViolation`, `BudgetExceeded`,
  `FallbackToLocal`, `RateLimitExceeded`).
- **Telemetry collector** (`netrun/llm/telemetry.py`). The collector keeps
  a bounded FIFO history with a per-tenant index and fills in missing costs
  from the pricing table. It parses periods such as `"1h"` and aggregates a
  window: counts, token and cost totals, insertion-ordered breakdowns, and
  p50/p95/p99 latency by linear interpolation. It also builds the cost
  breakdown.
- **Azure OpenAI adapter** (`netrun/llm/adapters/azure_openai.py`). It
  covers:
  - priority-ordered resource selection;
  - per-resource success and failure counters;
  - the failover loop of `execute`: the primary resource, then at most two
    fallbacks, each called with the fallback's first model;
  - `execute` with a `"model"` in its context, which raises (see
    "## Findings").
- **Gemini adapter** (`netrun/llm/adapters/gemini.py`). It covers:
  - the free tier's daily quota, kept in a file record that is reloaded
    before every check and reset on a new day;
  - the order in which `execute` consults the breaker and the quota;
  - the cost of a call.
- **Adapter health** (`adapter_health.dfy`). The two adapters inherit
  success and failure counters, a circuit breaker and `is_healthy` from a
  base adapter. Its behaviour is taken from the assertions of
  `tests/test_adapters_base.py`.

Python dicts keep insertion order, so every breakdown dict is a sequence of
`Entry(key, value)` rows with distinct keys. Python `int()` on strings and
`str.strip()` are in `pystr.dfy`; Python `sorted()` on floats is in
`sorting.dfy`.

Inputs from the environment become parameters or constants:

- wall-clock time is `now` (seconds) and `today` (a day number);
- each SDK call is an oracle value (`Reply`, `GeminiReply`);
- the Gemini quota file is the field `store`;
- whether Azure authentication and client creation succeeded is given to
  the constructor.

Money and latency are `real`; tokens are `int`.

The source code was followed where the specification reads differently:

- **An unknown provider fails validation.** `validate_request` builds the
  default `ProviderPolicy(provider=provider)` before the dictionary lookup.
  So a provider name outside the five known ones fails pydantic validation
  even when the tenant has an entry for it. This is modelled as the outcome
  `InvalidProvider`.
- **A rejected request still uses up the rate window.** The window records
  the request before the reason check. A request refused for a missing
  reason therefore still counts against RPM and TPM.
- **A daily budget of 0 means no daily budget**, because the check tests
  its truthiness.
- **Provider averages in the usage report are window-wide.** Each
  provider's `avg_latency_ms` and `success_rate` are computed over all
  records of the window.
- **Gemini `execute` never reads the enabled flag**; the Azure adapter
  does.
- **An empty tenant id selects all tenants in `get_stats`**, because the
  empty string is falsy.

## Model

| member | source | states |
|---|---|---|
| Common.Trunc | packages/netrun-llm/netrun/llm/policies.py:520 | int() of a float truncates toward zero: within one of the value, on the side of zero |
| Pricing.SplitTokens | packages/netrun-llm/netrun/llm/policies.py:519-521 | the input and output parts always add up to the tokens; for a ratio in [0, 1] the input part is the truncation of tokens times ratio, between 0 and tokens |
| Pricing.TruncWithin | packages/netrun-llm/netrun/llm/policies.py:520 | truncating a value between 0 and a count gives an integer between 0 and the count, at most the value and within one of it |
| Pricing.ScaledWithin | packages/netrun-llm/netrun/llm/policies.py:520 | a fraction in [0, 1] of a token count lies between 0 and the count |
| Pricing.EstimateCost | packages/netrun-llm/netrun/llm/policies.py:504-523 | 0 for a model outside MODEL_COSTS; otherwise the split tokens priced per thousand at the model's rates; never negative and at most tokens times the larger rate over 1000 |
| Pricing.PriceWithin | packages/netrun-llm/netrun/llm/policies.py:523 | a per-thousand price of non-negative token counts at non-negative rates lies between 0 and all tokens at the larger rate |
| Pricing.RatesNonNegative | packages/netrun-llm/netrun/llm/policies.py:78-109 | every rate in MODEL_COSTS is non-negative |
| Pricing.EstimateExamples | packages/netrun-llm/tests/test_policies.py:507-550 | gpt-4o-mini at 1000 tokens and claude-3-5-sonnet at ratio 0.6 cost the table prices; unknown and local models cost 0; claude-3-opus at 2000 tokens costs 0.066, which pushes a 0.95 spend past a budget of 1 |
| Pricing.TierOrderStrictTotal | packages/netrun-llm/netrun/llm/policies.py:666-669 | "exceeds" on FREE < LOW < MEDIUM < HIGH < PREMIUM is irreflexive, total on distinct tiers and transitive; nothing exceeds PREMIUM and FREE exceeds nothing |
| Pricing.TierExceedsLimit | packages/netrun-llm/netrun/llm/policies.py:666-669 | a tier exceeds a limit only when the two differ, the tier is not FREE and the limit is not PREMIUM; PREMIUM exceeds every other limit and every tier but FREE exceeds a FREE limit |
| Pricing.TablesAgree | packages/netrun-llm/netrun/llm/policies.py:78-146 | MODEL_COSTS and MODEL_COST_TIERS list the same models, and every FREE-tier model costs nothing |
| Pricing.Lower | packages/netrun-llm/netrun/llm/policies.py:742 | the lower-cased name has the same length and each character lower-cased |
| Pricing.PrefixedHit | packages/netrun-llm/netrun/llm/policies.py:749-752 | the prefix loop finds a priced model exactly when some remaining prefix of "azure-", "claude-", "gpt-" turns the name into a MODEL_COSTS key; the name found is the first such prefix plus the model, every earlier prefix having missed |
| Pricing.GetModelPricing | packages/netrun-llm/netrun/llm/policies.py:722-759 | a direct table hit wins; without one, a prefixed hit gives the rates of the first prefixed name in the table, whatever the provider; only when both miss is an ollama or local provider (case-insensitive) priced at (0, 0); the result is None exactly when there is no direct hit, no prefixed hit and the provider is neither ollama nor local |
| Pricing.PricingDirectExamples | packages/netrun-llm/netrun/llm/policies.py:735-739 | the documented examples: openai/gpt-4o gives (0.0025, 0.01) and anthropic/claude-sonnet-4-5-20250929 gives (0.003, 0.015) |
| Pricing.PricingPrefixExample | packages/netrun-llm/netrun/llm/policies.py:749-752 | "4o" is priced as "gpt-4o" through the prefix loop, on a cloud provider and on ollama alike |
| Pricing.UnpricedQwen | packages/netrun-llm/netrun/llm/policies.py:745-752 | "qwen" has no direct or prefixed entry |
| Pricing.PricingLocalExample | packages/netrun-llm/netrun/llm/policies.py:755-756 | an unpriced model on provider "Ollama" is free: the provider match ignores case |
| Pricing.PricingUnknownExample | packages/netrun-llm/netrun/llm/policies.py:758-759 | an unpriced model on a cloud provider has no pricing |
| Policies.DefaultProviderPolicy | packages/netrun-llm/netrun/llm/policies.py:149-226 | a default policy exists exactly for the five known provider names; it is enabled, valid and carries the given name |
| Policies.ValidateTenantId | packages/netrun-llm/netrun/llm/policies.py:299-305 | an accepted tenant id is non-empty with no whitespace at either end |
| Policies.TenantIdValidation | packages/netrun-llm/netrun/llm/policies.py:299-305 | a tenant id is accepted exactly when it has a non-whitespace character, and validating the stored id again changes nothing |
| Policies.LookupPolicy | packages/netrun-llm/netrun/llm/policies.py:421-424 | no policy exactly when the provider is not a known name; otherwise the tenant's entry when present; the policy of a valid tenant is valid |
| Policies.Screen | packages/netrun-llm/netrun/llm/policies.py:426-466 | allowed exactly when enabled, not denied, in the allowed list (or no list), not above the tier limit, within the token ceiling and within the cost ceiling; the first failing guard names the refusal: disabled, then denied (even when also allowed), then not allowed, then the tier (only when a limit is set and the model's known tier is strictly above it), then the token ceiling, then the cost ceiling; each tier, token or cost refusal implies its own guard failed; every refusal is a policy violation |
| Policies.DailyLimit | packages/netrun-llm/netrun/llm/policies.py:470 | a daily limit applies exactly when the daily budget is set and non-zero |
| Policies.ScreenExamples | packages/netrun-llm/tests/test_policies.py:209-290 | the tests' scenarios: under a LOW tier limit gpt-4o-mini passes and gpt-4o is refused for its tier; under a 2000-token ceiling 1500 tokens pass and 3000 are refused for their count; under a 0.01 cost ceiling 500 gpt-4o-mini tokens pass and 50000 are refused for their cost |
| Policies.BudgetGate | packages/netrun-llm/netrun/llm/policies.py:468-493 | allowed exactly when daily spend plus estimate is within the daily limit (if any) and monthly spend plus estimate within the monthly budget; the daily check decides first; a refusal is FallbackToLocal exactly when fallback_to_local is set, and FallbackToLocal is not a policy violation |
| Policies.MonthlyBudgetExample | packages/netrun-llm/tests/test_policies.py:293-328 | with a budget of 1 and 0.95 spent, a claude-3-opus request of 2000 tokens is refused on the monthly budget, and allowed with nothing spent |
| Policies.NewerTimes | packages/netrun-llm/netrun/llm/policies.py:699 | the pruned request times are exactly the old ones strictly newer than the cutoff |
| Policies.NewerTimesCounts | packages/netrun-llm/netrun/llm/policies.py:699 | each newer time is kept as often as it occurred and every older one is dropped (the multisets agree), so the RPM count is fixed even with repeated timestamps |
| Policies.NewerTokens | packages/netrun-llm/netrun/llm/policies.py:700 | the pruned (time, tokens) pairs are exactly the old ones strictly newer than the cutoff |
| Policies.NewerTokensCounts | packages/netrun-llm/netrun/llm/policies.py:700 | each newer pair is kept as often as it occurred and every older one is dropped (the multisets agree), so the TPM sum is fixed |
| Policies.Admit | packages/netrun-llm/netrun/llm/policies.py:694-719 | after pruning entries at least 60 s old, allowed exactly when the count is below a positive RPM limit and the tokens fit a positive TPM limit; a refusal keeps the pruned window and appends nothing; acceptance appends exactly one time and one (time, tokens) pair; limits of 0 never refuse |
| Policies.PrunedSynced | packages/netrun-llm/netrun/llm/policies.py:699-700 | pruning keeps the two lists of a window in step |
| Policies.AdmitSynced | packages/netrun-llm/netrun/llm/policies.py:694-719 | every rate check keeps the two lists of a window in step |
| Policies.PrunedTokenSum | packages/netrun-llm/netrun/llm/policies.py:700-710 | pruning never raises the window's token sum |
| Policies.AdmitKeepsLimits | packages/netrun-llm/netrun/llm/policies.py:703-719 | a window within its RPM and TPM limits stays within them after any check, accepted or refused |
| Policies.TokenSumAppend | packages/netrun-llm/netrun/llm/policies.py:710-719 | recording a pair adds its tokens to the window sum |
| Policies.WindowExpires | packages/netrun-llm/netrun/llm/policies.py:694-719 | once every entry is a minute old, a request within the limits is admitted into a window holding only itself |
| Policies.PruneRecent | packages/netrun-llm/netrun/llm/policies.py:694-700 | entries all within the last minute survive pruning |
| Policies.AdmitRecorded | packages/netrun-llm/netrun/llm/policies.py:703-719 | a window with nothing to prune and room under both limits records the request |
| Policies.RpmExample | packages/netrun-llm/tests/test_policies.py:437-467 | with an RPM limit of 2, the third request within a minute is refused on RPM |
| Policies.TpmExample | packages/netrun-llm/tests/test_policies.py:469-505 | with a TPM limit of 1000, requests of 500 and 400 pass and one of 200 is refused on TPM |
| Policies.Recent | packages/netrun-llm/netrun/llm/policies.py:586-587 | the report's records are exactly those at or after the cutoff |
| Policies.RecentCounts | packages/netrun-llm/netrun/llm/policies.py:586-587 | each record at or after the cutoff is kept as often as it was logged, and every older one is dropped |
| Policies.ProviderItems | packages/netrun-llm/netrun/llm/policies.py:614-616 | each record adds its provider, cost and total tokens to the provider breakdown |
| Policies.ModelItems | packages/netrun-llm/netrun/llm/policies.py:626-628 | each record adds its model, cost and total tokens to the model breakdown |
| Policies.SuccessCount | packages/netrun-llm/netrun/llm/policies.py:634 | the successful records number at most all records |
| Policies.BudgetOf | packages/netrun-llm/netrun/llm/policies.py:650-652 | the remaining budget is max(0, budget minus spend); the used percentage is spend over budget times 100, and 0 when the budget is not positive |
| Policies.Totals | packages/netrun-llm/netrun/llm/policies.py:607-628 | one row per provider or model row, in order, keeping its key and its requests, cost and tokens |
| Policies.ItemsAgree | packages/netrun-llm/netrun/llm/policies.py:604-628 | the two breakdowns receive the same total cost and tokens |
| Policies.TallyRecords | packages/netrun-llm/netrun/llm/policies.py:604-628 | the accumulation loop builds the insertion-ordered tally of providers and of models |
| Policies.ProviderRows | packages/netrun-llm/netrun/llm/policies.py:631-635 | the provider averaging loop keeps each row's totals and gives every provider the window-wide average latency and success rate |
| Policies.ModelRows | packages/netrun-llm/netrun/llm/policies.py:637-640 | the model averaging loop keeps each row's totals and gives each model the average latency of its own records |
| Policies.TotalsSnoc | packages/netrun-llm/netrun/llm/policies.py:637-640 | appending a row appends its totals |
| Policies.AveragedSnoc | packages/netrun-llm/netrun/llm/policies.py:637-640 | appending a correctly averaged row keeps all rows correctly averaged |
| Policies.ModelCount | packages/netrun-llm/netrun/llm/policies.py:638-640 | each model row's record count is positive, so the division is defined |
| Policies.DistinctTotals | packages/netrun-llm/netrun/llm/policies.py:601-628 | rows with the same keys in the same order have the same key set, and both are duplicate-free or neither |
| Policies.StoreSynced | packages/netrun-llm/netrun/llm/policies.py:698-700 | storing a window whose lists are in step keeps the whole rate state in step |
| Policies.SummarizeWindow | packages/netrun-llm/netrun/llm/policies.py:600-653 | for a non-empty window: total requests, cost and tokens are the record totals; both breakdowns are the tallies, with request counts summing to the total and costs to the total cost; keys are distinct; the provider averages are window-wide and each model row is averaged over its own records |
| Policies.DailyReset | packages/netrun-llm/netrun/llm/policies.py:659-664 | the reset day never moves back; when it moves it becomes today and the daily spend is cleared, otherwise nothing changes; the monthly spend and the rate state never change |
| Policies.Validate | packages/netrun-llm/netrun/llm/policies.py:397-502 | allowed exactly when the policy exists and the screen, the budget gate (after the daily reset), the rate check and the reason check all pass; an unknown provider changes nothing; the refusal returned is the first failing stage's: a screen refusal leaves the ledger as it was, a budget refusal returns the gate's outcome with only the daily reset applied, a rate refusal returns the rate check's outcome with the provider's window replaced by the checked one, and a missing reason after all of these pass gives the reason violation; once the screen passes, the daily spend and reset day are those of the daily reset; the monthly spend never changes and the reset day never moves back; the rate state is left alone on every refusal before the rate check, and otherwise gains at most the provider's key; a request refused for a missing reason still adds its entry to the pruned window; windows stay in step |
| Policies.AdmitStored | packages/netrun-llm/netrun/llm/policies.py:688-719 | storing a checked window keeps the whole rate state in step |
| Policies.ValidateKeepsLimits | packages/netrun-llm/netrun/llm/policies.py:496 | the provider's window stays within its RPM and TPM limits across validate_request |
| Policies.PolicyEnforcer.constructor | packages/netrun-llm/netrun/llm/policies.py:381-395 | a new enforcer has spent nothing, recorded nothing and has no rate windows |
| Policies.PolicyEnforcer.CheckRateLimits | packages/netrun-llm/netrun/llm/policies.py:671-719 | the outcome is that of the window check, and the provider's stored window becomes the checked one |
| Policies.PolicyEnforcer.ResetDailyBudgetIfNeeded | packages/netrun-llm/netrun/llm/policies.py:659-664 | the counters change as the daily reset rule says |
| Policies.PolicyEnforcer.ValidateRequest | packages/netrun-llm/netrun/llm/policies.py:397-502 | the outcome and the new counters and windows are those of the validation chain; the usage log is untouched |
| Policies.PolicyEnforcer.RecordUsage | packages/netrun-llm/netrun/llm/policies.py:549-567 | with usage tracking off nothing changes; otherwise exactly one record with total = input + output tokens is appended, earlier records are kept, and the cost is added to both spends |
| Policies.PolicyEnforcer.ResetMonthlyBudget | packages/netrun-llm/netrun/llm/policies.py:655-657 | the monthly spend is back to 0 |
| Policies.PolicyEnforcer.GetUsageReport | packages/netrun-llm/netrun/llm/policies.py:576-653 | an empty window gives zero totals, empty breakdowns and no budget fields; otherwise the window summary plus the budget status of the monthly budget |
| Tally.Add | packages/netrun-llm/netrun/llm/policies.py:606-616 | adding a record to a breakdown adds its key to the key set, growing the dict by one row exactly when the key is new |
| Tally.KeyAtIn | packages/netrun-llm/netrun/llm/policies.py:601-628 | every row's key is among the dict's keys |
| Tally.AddTotals | packages/netrun-llm/netrun/llm/policies.py:614-616 | one record adds exactly one request, its cost and its tokens to the breakdown totals |
| Tally.AddKeyed | packages/netrun-llm/netrun/llm/policies.py:614-616 | one record changes only its own key's row, by one request and its cost |
| Tally.AddDistinct | packages/netrun-llm/netrun/llm/policies.py:606-613 | adding keeps the keys distinct |
| Tally.TallyTotals | packages/netrun-llm/netrun/llm/policies.py:604-628 | a finished breakdown counts every record once and sums every cost and token once, with distinct keys |
| Tally.TallyKeyed | packages/netrun-llm/netrun/llm/policies.py:604-628 | a key's row counts exactly the records with that key and sums their cost; a key is present exactly when some record has it |
| Tally.Counts | packages/netrun-llm/netrun/llm/telemetry.py:479-491 | the error count dict has the same keys as the tally, with the request counts as values |
| Sorting.Insert | packages/netrun-llm/netrun/llm/telemetry.py:476 | insertion adds one occurrence of the value and nothing else |
| Sorting.InsertAtLeast | packages/netrun-llm/netrun/llm/telemetry.py:476 | inserting a value no smaller than a lower bound keeps the bound |
| Sorting.ConsSorted | packages/netrun-llm/netrun/llm/telemetry.py:476 | a value no larger than the head of a sorted list extends it sorted |
| Sorting.InsertSorted | packages/netrun-llm/netrun/llm/telemetry.py:476 | insertion keeps a list sorted |
| Sorting.Sort | packages/netrun-llm/netrun/llm/telemetry.py:476 | the sorted latencies are ordered and a permutation of the input |
| PyStr.TrimLeft | packages/netrun-llm/netrun/llm/policies.py:303-305 | the result is a suffix, everything dropped is whitespace, and it does not start with whitespace |
| PyStr.TrimRight | packages/netrun-llm/netrun/llm/policies.py:303-305 | the result is a prefix, everything dropped is whitespace, and it does not end with whitespace |
| PyStr.DigitValue | packages/netrun-llm/netrun/llm/telemetry.py:647 | a digit character has a value below 10 |
| PyStr.DigitChar | packages/netrun-llm/netrun/llm/telemetry.py:647 | the digit character of a value below 10 reads back as that value |
| PyStr.ParseSigned | packages/netrun-llm/netrun/llm/telemetry.py:647 | int() of an empty string fails, and an unsigned literal is non-negative |
| PyStr.ParseDigits | packages/netrun-llm/netrun/llm/telemetry.py:647 | a digit body is accepted exactly when it is well-formed: digits with single underscores between digits |
| PyStr.Decimal | packages/netrun-llm/netrun/llm/telemetry.py:647 | str(n) of a natural number is a non-empty digit string |
| PyStr.DecimalValue | packages/netrun-llm/netrun/llm/telemetry.py:647 | the digits of str(n) spell n again |
| PyStr.StripUntrimmed | packages/netrun-llm/netrun/llm/telemetry.py:647 | strip() leaves a string with no whitespace at either end unchanged |
| PyStr.DecimalDigits | packages/netrun-llm/netrun/llm/telemetry.py:647 | str(n) is a well-formed literal for n |
| PyStr.ParseDecimal | packages/netrun-llm/netrun/llm/telemetry.py:647 | int(str(n)) == n for natural n |
| PyStr.MinusLiteral | packages/netrun-llm/netrun/llm/telemetry.py:647 | a minus sign before a digit string survives strip() and negates the value |
| PyStr.ParseNegative | packages/netrun-llm/netrun/llm/telemetry.py:647 | int(str(n)) == n for negative n |
| PyStr.ParseShow | packages/netrun-llm/netrun/llm/telemetry.py:647 | int(str(n)) == n for every integer n |
| Telemetry.CalculateCost | packages/netrun-llm/netrun/llm/telemetry.py:596-623 | 0 when get_model_pricing has nothing; otherwise input and output tokens priced per thousand at the returned rates; a direct MODEL_COSTS hit uses the table rates |
| Telemetry.EstimateIsCalculatedCost | packages/netrun-llm/netrun/llm/telemetry.py:617-623 | for a tabled model, the enforcer's estimate equals the collector's cost of the same split |
| Telemetry.FillCost | packages/netrun-llm/netrun/llm/telemetry.py:399-405 | only the cost may change; it is computed from pricing exactly when the cost is 0 and the total tokens are positive, and left untouched otherwise |
| Telemetry.Finalize | packages/netrun-llm/netrun/llm/telemetry.py:322-329 | total tokens always become input + output and the latency is set; an exception sets success false and the error type and message; without one the outcome fields are kept |
| Telemetry.Rank | packages/netrun-llm/netrun/llm/telemetry.py:630 | the percentile index (n-1)*p/100 lies below n |
| Telemetry.RankMono | packages/netrun-llm/netrun/llm/telemetry.py:630 | a higher percentile has an index no lower |
| Telemetry.ScaleMono | packages/netrun-llm/netrun/llm/telemetry.py:630 | multiplying by a non-negative count preserves order |
| Telemetry.Interpolate | packages/netrun-llm/netrun/llm/telemetry.py:638 | a point part-way along a segment lies on it |
| Telemetry.FractionWithin | packages/netrun-llm/netrun/llm/telemetry.py:637-638 | a fraction of a non-negative length lies between 0 and that length |
| Telemetry.InterpolateMono | packages/netrun-llm/netrun/llm/telemetry.py:638 | further along a segment is no lower |
| Telemetry.Percentile | packages/netrun-llm/netrun/llm/telemetry.py:625-638 | an empty list gives 0; an integral index gives that element; otherwise the value lies between the element at the floor index and the next; always within [min, max] |
| Telemetry.PercentileMonotone | packages/netrun-llm/netrun/llm/telemetry.py:504-506 | on sorted values p50 <= p95 <= p99 (a higher percentile is never smaller) |
| Telemetry.PercentileExample | packages/netrun-llm/tests/test_telemetry.py:357-382 | latencies 100, 200, ..., 1000 give p50 = 550, p95 = 955, p99 = 991 |
| Telemetry.UnitSeconds | packages/netrun-llm/netrun/llm/telemetry.py:650-657 | exactly m, h and d are units, each a positive whole number of minutes; ParsePeriod fixes their values |
| Telemetry.ParsePeriod | packages/netrun-llm/netrun/llm/telemetry.py:640-658 | an empty period is its own error; a non-integer prefix is a format error, checked before the unit; otherwise m, h and d give N times 60, 3600 and 86400 seconds, and any other unit is a unit error |
| Telemetry.PeriodRoundTrip | packages/netrun-llm/netrun/llm/telemetry.py:640-658 | "{N}{unit}" parses back to N units for every integer N and each of m, h, d |
| Telemetry.HourPeriod | packages/netrun-llm/tests/test_telemetry.py:528-536 | "1h" is 3600 seconds |
| Telemetry.WeekPeriod | packages/netrun-llm/tests/test_telemetry.py:537-545 | "7d" is 604800 seconds |
| Telemetry.FiveMinutePeriod | packages/netrun-llm/tests/test_telemetry.py:546-554 | "5m" is 300 seconds |
| Telemetry.DigitPeriod | packages/netrun-llm/netrun/llm/telemetry.py:645-656 | a one-digit count before a unit parses to that many units |
| Telemetry.EmptyPeriodError | packages/netrun-llm/netrun/llm/telemetry.py:642-643 | the empty period is rejected |
| Telemetry.BareUnitError | packages/netrun-llm/tests/test_telemetry.py:555-567 | "h" without a number is a format error |
| Telemetry.UnknownUnitError | packages/netrun-llm/netrun/llm/telemetry.py:657-658 | "5x" is a unit error |
| Telemetry.InWindow | packages/netrun-llm/netrun/llm/telemetry.py:464-466 | the window holds exactly the selected requests at or after the cutoff |
| Telemetry.InWindowCounts | packages/netrun-llm/netrun/llm/telemetry.py:464-466 | each metric at or after the cutoff is kept as often as it was recorded, and every older one is dropped |
| Telemetry.ErrorItems | packages/netrun-llm/netrun/llm/telemetry.py:490-491 | the error breakdown receives at most one item per request |
| Telemetry.OutcomeCounts | packages/netrun-llm/netrun/llm/telemetry.py:490-499 | successful + failed = total, and the counted errors are at most the failures |
| Telemetry.CostSumItems | packages/netrun-llm/netrun/llm/telemetry.py:481-503 | the total cost equals the cost fed to each breakdown |
| Telemetry.CountSumOfCounts | packages/netrun-llm/netrun/llm/telemetry.py:479-491 | the error counts sum to the number of counted errors |
| Telemetry.AggregateConsistent | packages/netrun-llm/netrun/llm/telemetry.py:468-511 | total = successful + failed; provider and model request counts each sum to the total and their costs to the total cost; the counted errors are at most the failures; all keys are distinct; p50 <= p95 <= p99, within the smallest and largest latency |
| Telemetry.Aggregate | packages/netrun-llm/netrun/llm/telemetry.py:468-511 | the aggregate spans the window from the cutoff to now for the tenant asked, counts every selected request, and its successes and failures add up to that count |
| Telemetry.DistinctCounts | packages/netrun-llm/netrun/llm/telemetry.py:479-510 | projecting a tally to its counts keeps the keys and their distinctness |
| Telemetry.Share | packages/netrun-llm/netrun/llm/telemetry.py:544 | a provider's percentage is its cost over the total times 100, and 0 when the total is not positive |
| Telemetry.AvgCost | packages/netrun-llm/netrun/llm/telemetry.py:552 | a model's average cost is its cost over its requests, and 0 without requests |
| Telemetry.ProviderShares | packages/netrun-llm/netrun/llm/telemetry.py:541-547 | one row per provider, in order, with its cost and share |
| Telemetry.ModelCostRows | packages/netrun-llm/netrun/llm/telemetry.py:548-555 | one row per model, in order, with its cost, requests and average cost |
| Telemetry.SharesScale | packages/netrun-llm/netrun/llm/telemetry.py:541-547 | the percentages times the total add up to 100 times the breakdown's cost |
| Telemetry.SharesSum | packages/netrun-llm/netrun/llm/telemetry.py:538-547 | when the provider costs make up a positive total, the percentages sum to 100 |
| Telemetry.SharesSumTo100 | packages/netrun-llm/netrun/llm/telemetry.py:513-556 | whenever anything was spent in the window, the cost breakdown's percentages sum to 100 |
| Telemetry.BreakdownOf | packages/netrun-llm/netrun/llm/telemetry.py:513-556 | the breakdown keeps the total cost and one row per provider and per model, in order and under the same keys; each provider row keeps its cost, and with a positive total its percentage times the total is its cost times 100; each model row keeps its request count |
| Telemetry.OfTenant | packages/netrun-llm/netrun/llm/telemetry.py:410 | a tenant's list holds exactly that tenant's requests |
| Telemetry.OfTenantAppend | packages/netrun-llm/netrun/llm/telemetry.py:409-410 | appending to the history appends to exactly the request's own tenant list |
| Telemetry.NewestKept | packages/netrun-llm/netrun/llm/telemetry.py:409-414 | after recording, the history is the newest min(length, max_history) requests, in order |
| Telemetry.Trimmed | packages/netrun-llm/netrun/llm/telemetry.py:413-414 | the trimmed history is a suffix of the appended one, one shorter exactly when it passed max_history |
| Telemetry.AppendKeepsIndex | packages/netrun-llm/netrun/llm/telemetry.py:409-410 | appending to the history and to the tenant's list keeps the index consistent |
| Telemetry.EvictKeepsIndex | packages/netrun-llm/netrun/llm/telemetry.py:413-418 | the evicted request heads its tenant's list, so removing it there keeps the index consistent |
| Telemetry.IndexEvict | packages/netrun-llm/netrun/llm/telemetry.py:415-418 | eviction keeps every other tenant's list; the evicted request's tenant keeps a suffix of its list, at most one shorter, and loses its head only when that head has the evicted request's id |
| Telemetry.RecordKeepsIndex | packages/netrun-llm/netrun/llm/telemetry.py:409-418 | after a whole record step the index still gives every tenant exactly its requests in the kept history; on eviction the tenant list's head is the evicted request |
| Telemetry.RecordedIndex | packages/netrun-llm/netrun/llm/telemetry.py:408-418 | after record the new request's tenant is in the index, and without an eviction its list is the old one plus the request |
| Telemetry.RecordedIndexOthers | packages/netrun-llm/netrun/llm/telemetry.py:408-418 | record adds at most the new request's tenant and the evicted request's tenant to the index, and every other tenant keeps its list |
| Telemetry.RecordSteps | packages/netrun-llm/netrun/llm/telemetry.py:409-418 | each branch of the eviction gives the trimmed history and updated index, keeps the history within max_history and the index consistent |
| Telemetry.StatsError | packages/netrun-llm/netrun/llm/telemetry.py:458 | a malformed period makes get_stats fail with the parse error |
| Telemetry.StatsAggregated | packages/netrun-llm/netrun/llm/telemetry.py:457-459 | a well-formed period gives the statistics of the window ending now |
| Telemetry.StatsOf | packages/netrun-llm/netrun/llm/telemetry.py:431-466 | get_stats fails exactly when the period does not parse, with the parser's error; otherwise the window ends at now and is exactly the period long |
| Telemetry.WindowStats | packages/netrun-llm/netrun/llm/telemetry.py:462-511 | aggregating the selected requests inside the window gives the window's statistics |
| Telemetry.Selected | packages/netrun-llm/netrun/llm/telemetry.py:463-466 | the tenant's requests for a non-empty tenant id, else the whole history; StatsWindow adds the cutoff |
| Telemetry.StatsWindow | packages/netrun-llm/netrun/llm/telemetry.py:462-466 | a request is counted exactly when it is in the history, at or after the cutoff, and of the tenant when a non-empty tenant id is given |
| Telemetry.TallyStep | packages/netrun-llm/netrun/llm/telemetry.py:481-491 | one more request extends the provider and model tallies by it, and the error tally only when it failed with an error type |
| Telemetry.TallyMetrics | packages/netrun-llm/netrun/llm/telemetry.py:476-491 | the loop builds the provider, model and counted-error tallies in request order |
| Telemetry.Summarize | packages/netrun-llm/netrun/llm/telemetry.py:468-511 | the aggregation gives the window aggregate |
| Telemetry.TelemetryCollector.constructor | packages/netrun-llm/netrun/llm/telemetry.py:256-274 | a new collector has an empty history, index and export log |
| Telemetry.TelemetryCollector.Record | packages/netrun-llm/netrun/llm/telemetry.py:388-429 | the cost-filled request is appended and the oldest evicted past max_history; the index follows; the export callback (when set) receives the request; the index stays consistent |
| Telemetry.TelemetryCollector.TrackRequest | packages/netrun-llm/netrun/llm/telemetry.py:319-330 | the finalised request is recorded as Record states |
| Telemetry.TelemetryCollector.GetStats | packages/netrun-llm/netrun/llm/telemetry.py:431-511 | the result is the statistics of the history for the period and tenant at time now; nothing changes, so calls at the same time agree |
| Telemetry.TelemetryCollector.GetCostBreakdown | packages/netrun-llm/netrun/llm/telemetry.py:513-556 | a period error is passed on; otherwise the breakdown of the same statistics |
| AdapterHealth.ErrorResponse | packages/netrun-llm/tests/test_adapters_base.py:369-384 | an error response has the given status, message and model, no cost and no tokens |
| AdapterHealth.NewHealth | packages/netrun-llm/tests/test_adapters_base.py:174-193 | a new adapter has recorded nothing, its breaker is closed, and it keeps the given enabled flag, threshold and cooldown |
| AdapterHealth.RecordSuccess | packages/netrun-llm/tests/test_adapters_base.py:195-205 | one more success with its latency and cost; the failure streak is cleared |
| AdapterHealth.RecordFailure | packages/netrun-llm/tests/test_adapters_base.py:206-235 | one more failure and one more in the streak, stamped with the time; the breaker is open exactly when it was, or when the streak reaches the threshold |
| AdapterHealth.CheckBreaker | packages/netrun-llm/tests/test_adapters_base.py:236-257 | the breaker reports open exactly when it is open with a timestamp less than the cooldown old; once the cooldown has passed, or when the timestamp is missing, it closes and clears the streak; a closed breaker is untouched |
| AdapterHealth.SuccessRate | packages/netrun-llm/tests/test_adapters_base.py:272-285 | successes as a percentage of all calls, within [0, 100], and 100 before any call |
| AdapterHealth.RateOf | packages/netrun-llm/netrun/llm/adapters/azure_openai.py:472-477 | success / (success + failure) * 100, and 100 without calls, always within [0, 100] |
| AdapterHealth.PercentAtMost100 | packages/netrun-llm/tests/test_adapters_base.py:272-285 | a part's percentage of a whole it does not exceed is at most 100 |
| AdapterHealth.AverageLatency | packages/netrun-llm/tests/test_adapters_base.py:287-299 | the mean latency of the successes, and 0 without any |
| AdapterHealth.IsHealthy | packages/netrun-llm/tests/test_adapters_base.py:319-367 | a healthy adapter is enabled with its breaker closed and, from 10 calls on, a success rate at the floor or above; an enabled adapter with a closed breaker and fewer than 10 calls is healthy |
| AdapterHealth.ResetMetrics | packages/netrun-llm/tests/test_adapters_base.py:301-317 | all counters and totals are zero and the breaker closed, so the rate is 100 and the latency 0; the configuration is kept |
| AdapterHealth.FailuresOpenBreaker | packages/netrun-llm/tests/test_adapters_base.py:216-235 | n failures grow the streak by n, and the breaker is open exactly when it was or the streak has reached the threshold |
| AdapterHealth.SuccessesCount | packages/netrun-llm/tests/test_adapters_base.py:195-205 | n successes add n to the success count, leave failures and breaker alone, and clear the streak |
| AdapterHealth.SuccessRestartsStreak | packages/netrun-llm/tests/test_adapters_base.py:258-270 | after a success the breaker opens again only after a full threshold of new failures |
| AdapterHealth.ThresholdExamples | packages/netrun-llm/tests/test_adapters_base.py:216-235 | threshold 3: three failures open the breaker; threshold 5: four failures leave it closed |
| AdapterHealth.CooldownExample | packages/netrun-llm/tests/test_adapters_base.py:236-257 | with a 1-second cooldown, a breaker opened by two failures is closed 1.1 seconds later |
| AdapterHealth.HealthExamples | packages/netrun-llm/tests/test_adapters_base.py:319-367 | all successes are healthy; a 25% success rate over 20 calls is not; a poor rate over fewer than 10 calls is ignored |
| AdapterHealth.DisabledUnhealthy | packages/netrun-llm/tests/test_adapters_base.py:329-333 | a disabled adapter is never healthy |
| AzureOpenAI.DefaultResources | packages/netrun-llm/netrun/llm/adapters/azure_openai.py:126-158 | three default resources with priorities 1, 2 and 3, in that order |
| AzureOpenAI.InsertByPriority | packages/netrun-llm/netrun/llm/adapters/azure_openai.py:210 | insertion adds one occurrence of the resource and nothing else |
| AzureOpenAI.InsertLowerBound | packages/netrun-llm/netrun/llm/adapters/azure_openai.py:210 | a priority bound on the resource and the list holds after insertion |
| AzureOpenAI.InsertSorted | packages/netrun-llm/netrun/llm/adapters/azure_openai.py:210 | insertion keeps a list ordered by priority |
| AzureOpenAI.SortByPriority | packages/netrun-llm/netrun/llm/adapters/azure_openai.py:210 | sorting by priority gives an ordered permutation |
| AzureOpenAI.FirstMatchIn | packages/netrun-llm/netrun/llm/adapters/azure_openai.py:211-215 | the first match is a member of the list |
| AzureOpenAI.InsertFirstMatch | packages/netrun-llm/netrun/llm/adapters/azure_openai.py:210-215 | inserting a resource changes the first match only when it matches and its priority is no worse |
| AzureOpenAI.SortedFirstMatch | packages/netrun-llm/netrun/llm/adapters/azure_openai.py:210-215 | the first match after the stable sort is the lowest-numbered match, first in list order among equals |
| AzureOpenAI.LowestMatchSpec | packages/netrun-llm/netrun/llm/adapters/azure_openai.py:210-215 | the lowest match is none exactly when nothing matches; otherwise a match with the lowest priority number, first in list order among those |
| AzureOpenAI.ResourceForModelSpec | packages/netrun-llm/netrun/llm/adapters/azure_openai.py:207-215 | a resource is found exactly when some resource lists the model; it has the lowest priority number among those, ties going to list order |
| AzureOpenAI.SelectFallbackSpec | packages/netrun-llm/netrun/llm/adapters/azure_openai.py:217-225 | a fallback is found exactly when some resource name has not failed; it has the lowest priority number among those, ties going to list order |
| AzureOpenAI.ResourceForModel | packages/netrun-llm/netrun/llm/adapters/azure_openai.py:207-215 | the first resource serving the model after the stable sort by priority is the lowest-priority match of the unsorted list (characterised by ResourceForModelSpec) |
| AzureOpenAI.SelectFallback | packages/netrun-llm/netrun/llm/adapters/azure_openai.py:217-225 | the first untried resource after the stable sort by priority is the lowest-priority untried one of the unsorted list (characterised by SelectFallbackSpec) |
| AzureOpenAI.SortExample | packages/netrun-llm/netrun/llm/adapters/azure_openai.py:210 | two resources given out of order are sorted priority 1 first |
| AzureOpenAI.ResourceForModelExamples | packages/netrun-llm/netrun/llm/adapters/azure_openai.py:207-215 | the priority-1 resource serves a model both list; the other serves its own; an unknown model finds nothing |
| AzureOpenAI.FallbackExamples | packages/netrun-llm/netrun/llm/adapters/azure_openai.py:217-225 | with nothing failed the fallback is priority 1; with it failed, priority 2; with both failed, none |
| AzureOpenAI.CountCall | packages/netrun-llm/netrun/llm/adapters/azure_openai.py:227-317 | a call never adds or removes counter keys |
| AzureOpenAI.CountCallEffect | packages/netrun-llm/netrun/llm/adapters/azure_openai.py:238-316 | without a client nothing changes; a completion adds one success and stamps the time; any exception adds one failure; other resources are untouched |
| AzureOpenAI.ResourceResponse | packages/netrun-llm/netrun/llm/adapters/azure_openai.py:227-317 | success exactly when a client exists and the call completed; rate-limited exactly for RateLimitError; the requested model is reported |
| AzureOpenAI.ResourceSuccessRate | packages/netrun-llm/netrun/llm/adapters/azure_openai.py:472-477 | a resource's success rate lies in [0, 100], is 100 before any call, and otherwise times the resource's call count equals its successes times 100 |
| AzureOpenAI.ResourceRateExample | packages/netrun-llm/netrun/llm/adapters/azure_openai.py:472-477 | 8 successes and 2 failures give 80 |
| AzureOpenAI.EffectiveCost | packages/netrun-llm/netrun/llm/adapters/azure_openai.py:432-450 | the pay-as-you-go equivalent is non-negative for non-negative token counts |
| AzureOpenAI.Names | packages/netrun-llm/netrun/llm/adapters/azure_openai.py:373-396 | failed_resources lists the attempted names in order |
| AzureOpenAI.Fallbacks | packages/netrun-llm/netrun/llm/adapters/azure_openai.py:376-398 | at most the budgeted number of fallback calls, and an answer only on a succeeding last call; FallbacksChoice, FallbacksAnswer and FallbacksEnd fix the rest |
| AzureOpenAI.FallbacksChoice | packages/netrun-llm/netrun/llm/adapters/azure_openai.py:379-398 | at most the budgeted number of fallback calls; each goes to the resource chosen given all names failed before it, with that resource's first model |
| AzureOpenAI.ChoiceCons | packages/netrun-llm/netrun/llm/adapters/azure_openai.py:379-398 | the choice property of a first fallback extends to the calls after it |
| AzureOpenAI.FallbacksAnswer | packages/netrun-llm/netrun/llm/adapters/azure_openai.py:379-398 | every fallback call but the last failed, and the loop answers exactly when the last call succeeded |
| AzureOpenAI.FallbacksEnd | packages/netrun-llm/netrun/llm/adapters/azure_openai.py:379-398 | an exhausted loop spent its budget or found no untried resource; a NoModel end (the IndexError) means the chosen resource lists no model |
| AzureOpenAI.ConcatAssoc | packages/netrun-llm/netrun/llm/adapters/azure_openai.py:396 | growing the failed list one name at a time is associative |
| AzureOpenAI.FallbacksDistinct | packages/netrun-llm/netrun/llm/adapters/azure_openai.py:379-398 | with a chooser that skips failed names, no fallback calls a failed or already-called resource |
| AzureOpenAI.ChooserUntried | packages/netrun-llm/netrun/llm/adapters/azure_openai.py:217-225 | _select_fallback_resource never picks a failed name |
| AzureOpenAI.PlanShape | packages/netrun-llm/netrun/llm/adapters/azure_openai.py:360-398 | at most three calls; the primary first with the requested model; each fallback chosen given all earlier names, with its first model |
| AzureOpenAI.ChoicePrepend | packages/netrun-llm/netrun/llm/adapters/azure_openai.py:364-398 | fallbacks after a failed primary are chosen given all earlier names, primary included |
| AzureOpenAI.PlanDistinct | packages/netrun-llm/netrun/llm/adapters/azure_openai.py:360-398 | no resource name is called twice |
| AzureOpenAI.PlanAnswer | packages/netrun-llm/netrun/llm/adapters/azure_openai.py:360-398 | every call but the last failed, and the plan answers exactly when the last call succeeded: the first success is returned |
| AzureOpenAI.PlanEnd | packages/netrun-llm/netrun/llm/adapters/azure_openai.py:376-405 | an exhausted plan made three calls (two without a primary) or ran out of untried resources |
| AzureOpenAI.Plan | packages/netrun-llm/netrun/llm/adapters/azure_openai.py:319-405 | execute makes at most three calls, and the first is to the primary resource with the requested model when there is one |
| AzureOpenAI.ExecutePlanSpec | packages/netrun-llm/netrun/llm/adapters/azure_openai.py:360-398 | at most the primary plus two fallbacks, the primary first, each fallback the lowest-priority untried resource, never the same name twice |
| AzureOpenAI.ExecutePlan | packages/netrun-llm/netrun/llm/adapters/azure_openai.py:319-405 | execute makes at most three calls and never calls the same resource twice |
| AzureOpenAI.CountCalls | packages/netrun-llm/netrun/llm/adapters/azure_openai.py:238-316 | calls keep every client's counters present |
| AzureOpenAI.CallsTo | packages/netrun-llm/netrun/llm/adapters/azure_openai.py:360-398 | a resource is called at most as often as there are calls |
| AzureOpenAI.CountCallsTotal | packages/netrun-llm/netrun/llm/adapters/azure_openai.py:238-316 | every call to a resource with a client adds exactly one to its success or failure count; calls without a client add nothing |
| AzureOpenAI.FallbacksHalt | packages/netrun-llm/netrun/llm/adapters/azure_openai.py:379-390 | the loop ends with no more calls when the budget is spent or no resource is left, and raises when the chosen resource lists no model |
| AzureOpenAI.FallbacksStep | packages/netrun-llm/netrun/llm/adapters/azure_openai.py:380-398 | one fallback call answers the plan on success, and otherwise leaves the rest of the plan to come |
| AzureOpenAI.FallbackTurn | packages/netrun-llm/netrun/llm/adapters/azure_openai.py:380-398 | one loop turn keeps the names, counters and remaining plan in step with the calls made |
| AzureOpenAI.NamesSnoc | packages/netrun-llm/netrun/llm/adapters/azure_openai.py:396 | appending a call appends its name to failed_resources |
| AzureOpenAI.PlanContinues | packages/netrun-llm/netrun/llm/adapters/azure_openai.py:360-378 | after a failed primary, or without one, the fallback loop starts with its two remaining attempts |
| AzureOpenAI.AllFailed | packages/netrun-llm/netrun/llm/adapters/azure_openai.py:400-405 | the all-failed return is an error with no cost and no model; Failover states when it is returned |
| AzureOpenAI.ExecuteRun | packages/netrun-llm/netrun/llm/adapters/azure_openai.py:352-398 | without a context model, the failover plan for the preferred model; with one, a raise before any call whenever there is a resource, and the all-failed end with no call otherwise |
| AzureOpenAI.ContextModelClash | packages/netrun-llm/netrun/llm/adapters/azure_openai.py:353-367 | on the default resources with every call completing, a context model of gpt-4o raises, while the failover for gpt-4o answers from its primary with that model |
| AzureOpenAI.AzureOpenAIAdapter.constructor | packages/netrun-llm/netrun/llm/adapters/azure_openai.py:71-193 | the preferred model is the argument, else the environment's, else gpt-4o; the CLI flag is kept; the given resources, else the defaults; a client and zeroed counters for each created client; no client at all when authentication failed |
| AzureOpenAI.AzureOpenAIAdapter.ExecuteWithResource | packages/netrun-llm/netrun/llm/adapters/azure_openai.py:227-317 | the counters change as CountCall says and the response is ResourceResponse |
| AzureOpenAI.AzureOpenAIAdapter.Failover | packages/netrun-llm/netrun/llm/adapters/azure_openai.py:360-405 | the calls made are those of the plan and counted per resource; an answer returns the last response and records success once; exhaustion returns the "All ... failed after N attempts" error and records failure once; a fallback without models raises with health unchanged |
| AzureOpenAI.AzureOpenAIAdapter.FallbackCalls | packages/netrun-llm/netrun/llm/adapters/azure_openai.py:376-398 | the loop makes exactly the remaining calls of the plan, counts them, and reports how the plan ended, the answer and the failed count |
| AzureOpenAI.AzureOpenAIAdapter.FallbackCall | packages/netrun-llm/netrun/llm/adapters/azure_openai.py:380-396 | no call when no untried resource is left or the chosen one has no model; otherwise one counted call to the lowest-priority untried resource with its first model |
| AzureOpenAI.AzureOpenAIAdapter.Execute | packages/netrun-llm/netrun/llm/adapters/azure_openai.py:319-405 | an open breaker, then a disabled adapter, each return an error with no call and no counter change; without a context model, the failover for the preferred model as Failover states; with one, as written, a raise with nothing counted and health only breaker-checked (the all-failed return when there are no resources) |
| AzureOpenAI.AzureOpenAIAdapter.CheckAvailability | packages/netrun-llm/netrun/llm/adapters/azure_openai.py:452-466 | available exactly when the CLI is authenticated, the breaker is not open and some client exists |
| Gemini.PriceOf | packages/netrun-llm/netrun/llm/adapters/gemini.py:40-44 | exactly the three listed models are priced, at non-negative rates |
| Gemini.CalculateActualCost | packages/netrun-llm/netrun/llm/adapters/gemini.py:424-441 | 0 on the free tier; non-negative for non-negative tokens |
| Gemini.UnknownModelPricedAsDefault | packages/netrun-llm/netrun/llm/adapters/gemini.py:431-433 | an unlisted model costs what gemini-1.5-flash costs |
| Gemini.CostMonotone | packages/netrun-llm/netrun/llm/adapters/gemini.py:424-441 | more tokens never cost less |
| Gemini.CostExamples | packages/netrun-llm/netrun/llm/adapters/gemini.py:435-441 | one million tokens each way cost 6.25 (pro), 0.375 (flash), 0 (2.0-flash-exp); an unknown model at flash rates; nothing on the free tier |
| Gemini.FreshQuota | packages/netrun-llm/netrun/llm/adapters/gemini.py:142-145 | a fresh record is today's with no request |
| Gemini.LoadQuotaData | packages/netrun-llm/netrun/llm/adapters/gemini.py:139-163 | the loaded record is dated today; a missing or corrupt file, or a record of another day, gives a fresh record; a record of today keeps its count |
| Gemini.Save | packages/netrun-llm/netrun/llm/adapters/gemini.py:165-171 | the stored record carries the date and count |
| Gemini.SaveLoadRoundTrip | packages/netrun-llm/netrun/llm/adapters/gemini.py:139-171 | what is saved loads back unchanged the same day |
| Gemini.NewDayResets | packages/netrun-llm/netrun/llm/adapters/gemini.py:151-155 | a record saved on another day loads as a fresh record |
| Gemini.LoadSaveLoad | packages/netrun-llm/netrun/llm/adapters/gemini.py:139-171 | load, save, load on one day changes nothing |
| Gemini.QuotaVerdict | packages/netrun-llm/netrun/llm/adapters/gemini.py:181 | allowed exactly when the count is below 1500; a record without a count raises |
| Gemini.QuotaBoundary | packages/netrun-llm/netrun/llm/adapters/gemini.py:53 | 1499 is allowed, 1500 and 1501 are not, and a fresh record is |
| Gemini.Bump | packages/netrun-llm/netrun/llm/adapters/gemini.py:188 | one more request today, same date |
| Gemini.DailyAllowance | packages/netrun-llm/netrun/llm/adapters/gemini.py:173-189 | after n counted requests from a fresh record the count is n, and another request is allowed exactly when n < 1500 |
| Gemini.ReplyResponse | packages/netrun-llm/netrun/llm/adapters/gemini.py:270-346 | success exactly for a generated answer, priced by the actual cost; rate-limited exactly for ResourceExhausted; any exception costs nothing and carries an error |
| Gemini.QuotaExceeded | packages/netrun-llm/netrun/llm/adapters/gemini.py:222-233 | a quota refusal is rate-limited, with no cost, model or tokens |
| Gemini.BreakerOpen | packages/netrun-llm/netrun/llm/adapters/gemini.py:215-219 | an open breaker gives an error with no cost and no model |
| Gemini.GeminiAdapter.constructor | packages/netrun-llm/netrun/llm/adapters/gemini.py:83-137 | the key (else the environment's) decides enabled; the model, else the environment's, else the default; the quota record is loaded |
| Gemini.GeminiAdapter.SaveQuotaData | packages/netrun-llm/netrun/llm/adapters/gemini.py:165-171 | the file holds the record when writable, and is unchanged otherwise |
| Gemini.GeminiAdapter.CheckQuota | packages/netrun-llm/netrun/llm/adapters/gemini.py:173-181 | the paid tier always allows and changes nothing; the free tier reloads the record and judges it |
| Gemini.GeminiAdapter.IncrementQuota | packages/netrun-llm/netrun/llm/adapters/gemini.py:183-189 | the paid tier changes nothing; the free tier adds exactly one request and saves |
| Gemini.GeminiAdapter.ResetQuota | packages/netrun-llm/netrun/llm/adapters/gemini.py:443-447 | the record is today's with no request, and saved |
| Gemini.GeminiAdapter.Execute | packages/netrun-llm/netrun/llm/adapters/gemini.py:191-346 | the breaker first, then the quota; a refusal makes no call and counts nothing; a success adds one request and records success once; each exception records failure once |
| Gemini.GeminiAdapter.CheckAvailability | packages/netrun-llm/netrun/llm/adapters/gemini.py:378-388 | unavailable when unhealthy; otherwise the quota decides on the free tier, and available on the paid tier |

## Findings

| source | as written | input that shows it | evidently intended | confidence | as-written member | corrected member |
|---|---|---|---|---|---|---|
| packages/netrun-llm/netrun/llm/adapters/azure_openai.py:353-390 | `execute` reads `model` from the context and then forwards the whole context as `**context` beside the positional `model` of `_execute_with_resource` (azure_openai.py:227-233), so the first call raises TypeError (multiple values for `model`) before its body runs: nothing is counted or recorded | `execute(prompt, {"model": "gpt-4o"})` on the default resources, every client created, every call completing | the documented context key picks the model, and the failover runs for it | high; not executed | AzureOpenAI.AzureOpenAIAdapter.Execute, with AzureOpenAI.ExecuteRun and AzureOpenAI.ContextModelClash | AzureOpenAI.AzureOpenAIAdapter.Failover, which runs ExecutePlan (proved by AzureOpenAI.ExecutePlanSpec) for the model it is given |

## Left out

- `adapters/base.py` and `chain.py` are not part of this model. The
  inherited health state follows the assertions of
  `tests/test_adapters_base.py`. `is_healthy`'s success-rate floor is the
  field `minSuccessRate`, and the minimum sample count is 10.
- **Floating point.** Money, latency and percentages are exact `real`s.
  IEEE rounding, `round()` in reports and float equality in tests (for
  example `int(70 * 0.7) == 48`) are not modelled. `int(tokens * ratio)` is
  exact truncation.
- **Text.** Python's `int()` accepts non-ASCII decimal digits; only ASCII
  digits are modelled. `str.lower()` in `get_model_pricing` lower-cases
  ASCII letters only. Whitespace follows `str.isspace` on code points.
- **Time.** Wall-clock time, `datetime.utcnow()`, `time.time()` and
  `perf_counter()` are parameters. Dates are day numbers, so `timedelta`
  arithmetic and month or year edges are not modelled.
- **Environment and SDK.** These are parameters, oracles or constants:
  - the provider SDKs, the network, `DefaultAzureCredential` and
    `az account show`;
  - environment variables, including the `AZURE_OPENAI_RESOURCES` override;
  - SDK `ImportError` handling.
- **Concurrency.** The collector's lock, the process-wide collector
  (`get_collector`, `configure_telemetry`) and `track_request_async` are not
  modelled. The model is single-threaded.
- Telemetry.TelemetryCollector.Record: `record` writes the computed cost
  into the caller's own metrics object (telemetry.py:399-405), so the caller
  sees the filled-in `cost_usd`. Metrics are values here: `Record` stores a
  cost-filled copy and the caller's value is unchanged, so that aliasing is
  not captured.
- **Logging and export.** Logging is not modelled. The export callback is a
  log of the requests it receives; its failures are swallowed, as in the
  source.
- **Dictionaries and identifiers.** `to_dict`, `to_log_context`, the
  `get_metadata` dictionaries (apart from the Azure per-resource success
  rate), `get_quota_status` and uuid request ids are not modelled.
- **Azure and Gemini cost estimates.** `estimate_cost` of both adapters and
  `execute_async` are not modelled. `execute_async` only delegates to
  `execute`.
- `get_tenant_stats` (telemetry.py:558-594) is not modelled: it only reshapes
  `get_stats` and `get_cost_breakdown`.
- `record_usage`'s alert-threshold check is not modelled: its branch does
  nothing.
- **The Gemini quota file.** It is an abstract record with an optional date
  and an optional count. JSON that is not an object, a non-integer
  `requests_today` and extra keys are not modelled.
- **The default provider policy.** Only its validation error is modelled,
  as the outcome `InvalidProvider`. pydantic validation of tenant and
  provider policies is a predicate the enforcer's constructor requires.
- Gemini.CalculateActualCost: the cost formula is stated by
  `CostExamples` and `UnknownModelPricedAsDefault`, not by the function's
  own contract, which states only the free-tier and sign cases.
- AzureOpenAI.EffectiveCost: the rates table is not restated in the
  contract; only non-negativity is proved.
