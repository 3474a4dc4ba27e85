/**
 * The telemetry collector of `netrun/llm/telemetry.py`: per-request
 * metrics, a bounded history with a per-tenant index, aggregated
 * statistics over a time window (counts, token and cost totals,
 * breakdowns, latency percentiles) and the cost breakdown built on them.
 *
 * Times are seconds (`now`, `timestamp`), latencies milliseconds.
 */
module Telemetry {
  import opened Common
  import opened Tally
  import opened Sorting
  import opened Pricing
  import opened PyStr

  // ---------------------------------------------------------------------------
  // Request metrics
  // ---------------------------------------------------------------------------

  /** `LLMRequestMetrics`. */
  datatype RequestMetrics = RequestMetrics(
    requestId: string,
    tenantId: string,
    provider: string,
    model: string,
    userId: Option<string>,
    inputTokens: int,
    outputTokens: int,
    totalTokens: int,
    latencyMs: real,
    timeToFirstTokenMs: Option<real>,
    costUsd: real,
    timestamp: real,
    success: bool,
    errorType: Option<string>,
    errorMessage: Option<string>,
    endpoint: Option<string>,
    streaming: bool,
    cached: bool)

  /**
   * `_calculate_cost`: the price of the tokens at the rates
   * `get_model_pricing` finds, or nothing when it finds none.
   */
  function CalculateCost(provider: string, model: string, inputTokens: int, outputTokens: int): (c: real)
    ensures GetModelPricing(provider, model).None? ==> c == 0.0
    ensures GetModelPricing(provider, model).Some? ==> c == PriceOf(GetModelPricing(provider, model).value, inputTokens, outputTokens)
    ensures model in ModelCosts ==> c == PriceOf(ModelCosts[model], inputTokens, outputTokens)
  {
    match GetModelPricing(provider, model)
    case None => 0.0
    case Some(rates) => PriceOf(rates, inputTokens, outputTokens)
  }

  /**
   * The telemetry cost of a tabled model agrees with the policy estimate:
   * `estimate_cost` is `_calculate_cost` applied to its own input/output split.
   */
  lemma EstimateIsCalculatedCost(provider: string, model: string, tokens: int, ratio: real)
    requires model in ModelCosts
    ensures EstimateCost(model, tokens, ratio) ==
      CalculateCost(provider, model, SplitTokens(tokens, ratio).0, SplitTokens(tokens, ratio).1)
  {
  }

  /**
   * The cost `record` stores: filled in from the pricing table only when
   * none was set and tokens were used; nothing else about the metrics changes.
   */
  function FillCost(m: RequestMetrics): (r: RequestMetrics)
    ensures r.(costUsd := m.costUsd) == m
    ensures m.costUsd == 0.0 && m.totalTokens > 0 ==>
      r.costUsd == CalculateCost(m.provider, m.model, m.inputTokens, m.outputTokens)
    ensures !(m.costUsd == 0.0 && m.totalTokens > 0) ==> r == m
  {
    if m.costUsd == 0.0 && m.totalTokens > 0 then
      m.(costUsd := CalculateCost(m.provider, m.model, m.inputTokens, m.outputTokens))
    else m
  }

  /**
   * What `track_request` does to the tracked metrics on leaving the
   * block: on an exception, marks the request failed with the exception's
   * type and message; always sets the latency and `total_tokens = input + output`.
   */
  function Finalize(m: RequestMetrics, latencyMs: real, failure: Option<(string, string)>): (r: RequestMetrics)
    ensures r.totalTokens == r.inputTokens + r.outputTokens && r.latencyMs == latencyMs
    ensures r.inputTokens == m.inputTokens && r.outputTokens == m.outputTokens && r.costUsd == m.costUsd
    ensures r.requestId == m.requestId && r.tenantId == m.tenantId && r.timestamp == m.timestamp
    ensures failure.Some? ==>
      !r.success && r.errorType == Some(failure.value.0) && r.errorMessage == Some(failure.value.1)
    ensures failure.None? ==>
      r.success == m.success && r.errorType == m.errorType && r.errorMessage == m.errorMessage
  {
    var failed := match failure
      case Some(f) => m.(success := false, errorType := Some(f.0), errorMessage := Some(f.1))
      case None => m;
    failed.(latencyMs := latencyMs, totalTokens := m.inputTokens + m.outputTokens)
  }

  // ---------------------------------------------------------------------------
  // Percentiles
  // ---------------------------------------------------------------------------

  /**
   * The scaled index `(n - 1) * p` of the p-th percentile of `n` values;
   * its quotient by 100 is the index of the element below.
   */
  function Rank(n: nat, p: int): (r: nat)
    requires 1 <= n && 0 <= p <= 100
    ensures r / 100 < n
  {
    assert (n - 1) * p <= (n - 1) * 100 by { ScaleMono(n - 1, p, 100); }
    (n - 1) * p
  }

  /** `n * p <= n * q` when `p <= q`. */
  lemma ScaleMono(n: nat, p: int, q: int)
    requires p <= q
    ensures n * p <= n * q
  {
  }

  /** A higher percentile has a rank no lower. */
  lemma RankMono(n: nat, p: int, q: int)
    requires 1 <= n && 0 <= p <= q <= 100
    ensures Rank(n, p) <= Rank(n, q)
  {
    ScaleMono(n - 1, p, q);
  }

  /** The point a fraction `f` of the way from `lo` to `hi`. */
  function Interpolate(lo: real, hi: real, f: real): (r: real)
    requires lo <= hi && 0.0 <= f <= 1.0
    ensures lo <= r <= hi
  {
    var d := hi - lo;
    FractionWithin(d, f);
    lo + d * f
  }

  /** `d * f` lies between 0 and `d` for `d >= 0` and `0 <= f <= 1`. */
  lemma FractionWithin(d: real, f: real)
    requires d >= 0.0 && 0.0 <= f <= 1.0
    ensures 0.0 <= d * f <= d
  {
  }

  /** Further along the same segment is no lower. */
  lemma InterpolateMono(lo: real, hi: real, f: real, g: real)
    requires lo <= hi && 0.0 <= f <= g <= 1.0
    ensures Interpolate(lo, hi, f) <= Interpolate(lo, hi, g)
  {
    var d := hi - lo;
    assert d * g - d * f == d * (g - f);
    FractionWithin(d, g - f);
  }

  /**
   * `_percentile`: the element at index `(n - 1) * p / 100` when that is a
   * whole number, otherwise linear interpolation between the element below
   * and the next one (the last, at the end); 0 for an empty list. The index
   * is kept exact as the quotient and remainder of `Rank` by 100.
   */
  function Percentile(values: seq<real>, p: int): (r: real)
    requires 0 <= p <= 100 && Sorted(values)
    ensures values == [] ==> r == 0.0
    ensures values != [] && Rank(|values|, p) % 100 == 0 ==> r == values[Rank(|values|, p) / 100]
    ensures values != [] ==> values[0] <= r <= values[|values| - 1]
    ensures values != [] ==> values[Rank(|values|, p) / 100] <= r
    ensures values != [] && Rank(|values|, p) / 100 + 1 < |values| ==> r <= values[Rank(|values|, p) / 100 + 1]
  {
    if values == [] then 0.0
    else
      var n := |values|;
      var idx := Rank(n, p);
      if idx % 100 == 0 then values[idx / 100]
      else
        var lower := idx / 100;
        var upper := if lower + 1 < n - 1 then lower + 1 else n - 1;
        Interpolate(values[lower], values[upper], (idx % 100) as real / 100.0)
  }

  /** On sorted values a higher percentile is never smaller: p50 <= p95 <= p99. */
  lemma {:induction false} PercentileMonotone(values: seq<real>, p: int, q: int)
    requires 0 <= p <= q <= 100 && Sorted(values)
    ensures Percentile(values, p) <= Percentile(values, q)
  {
    if values != [] {
      var n := |values|;
      RankMono(n, p, q);
      var a, b := Rank(n, p), Rank(n, q);
      if a / 100 == b / 100 && a % 100 != 0 {
        var lower := a / 100;
        var upper := if lower + 1 < n - 1 then lower + 1 else n - 1;
        InterpolateMono(values[lower], values[upper], (a % 100) as real / 100.0, (b % 100) as real / 100.0);
      } else if a / 100 < b / 100 {
        assert Percentile(values, p) <= values[a / 100 + 1] <= values[b / 100];
      }
    }
  }

  /** The latencies 100, 200, ..., 1000 ms give p50 = 550, p95 = 955 and p99 = 991. */
  lemma PercentileExample()
    ensures var v := [100.0, 200.0, 300.0, 400.0, 500.0, 600.0, 700.0, 800.0, 900.0, 1000.0];
      Sorted(v) && Percentile(v, 50) == 550.0 && Percentile(v, 95) == 955.0 && Percentile(v, 99) == 991.0
  {
  }

  // ---------------------------------------------------------------------------
  // Periods
  // ---------------------------------------------------------------------------

  /** Why `_parse_period` raises `ValueError`. */
  datatype PeriodError = EmptyPeriod | InvalidFormat | InvalidUnit

  /** Seconds per unit: `m`inutes, `h`ours, `d`ays. */
  function UnitSeconds(unit: char): (r: Option<int>)
    ensures r.Some? <==> unit == 'm' || unit == 'h' || unit == 'd'
    ensures r.Some? ==> r.value > 0 && r.value % 60 == 0
  {
    if unit == 'h' then Some(3600)
    else if unit == 'd' then Some(86400)
    else if unit == 'm' then Some(60)
    else None
  }

  /**
   * `_parse_period`, as a number of seconds: the last character is the
   * unit and the rest must be an integer; the number is read before the
   * unit is checked.
   */
  function ParsePeriod(period: string): (r: Result<int, PeriodError>)
    ensures r == Err(EmptyPeriod) <==> period == []
    ensures r == Err(InvalidFormat) <==> period != [] && ParseInt(period[..|period| - 1]).None?
    ensures r.Ok? <==> period != [] && ParseInt(period[..|period| - 1]).Some? && UnitSeconds(period[|period| - 1]).Some?
    ensures r.Ok? ==> r.value == ParseInt(period[..|period| - 1]).value * UnitSeconds(period[|period| - 1]).value
  {
    if period == [] then Err(EmptyPeriod)
    else
      var unit := period[|period| - 1];
      match ParseInt(period[..|period| - 1])
      case None => Err(InvalidFormat)
      case Some(value) =>
        match UnitSeconds(unit)
        case Some(seconds) => Ok(value * seconds)
        case None => Err(InvalidUnit)
  }

  /** `"{N}{unit}"` reads back as N units, for every integer N and each of the three units. */
  lemma PeriodRoundTrip(n: int, unit: char)
    requires UnitSeconds(unit).Some?
    ensures ParsePeriod(Show(n) + [unit]) == Ok(n * UnitSeconds(unit).value)
  {
    var s := Show(n) + [unit];
    assert s[..|s| - 1] == Show(n);
    ParseShow(n);
  }

  /** One hour. */
  lemma HourPeriod()
    ensures ParsePeriod("1h") == Ok(3600)
  {
    DigitPeriod(1, 'h');
    assert [DigitChar(1), 'h'] == "1h";
  }

  /** One week. */
  lemma WeekPeriod()
    ensures ParsePeriod("7d") == Ok(604800)
  {
    DigitPeriod(7, 'd');
    assert [DigitChar(7), 'd'] == "7d";
  }

  /** Five minutes. */
  lemma FiveMinutePeriod()
    ensures ParsePeriod("5m") == Ok(300)
  {
    PeriodRoundTrip(5, 'm');
    assert Show(5) + ['m'] == "5m";
  }

  /** A one-digit count before a unit. */
  lemma DigitPeriod(d: nat, unit: char)
    requires d < 10 && UnitSeconds(unit).Some?
    ensures ParsePeriod([DigitChar(d), unit]) == Ok(d * UnitSeconds(unit).value)
  {
    assert Show(d) + [unit] == [DigitChar(d), unit];
    PeriodRoundTrip(d, unit);
  }

  /** An empty period is its own error. */
  lemma EmptyPeriodError()
    ensures ParsePeriod("") == Err(EmptyPeriod)
  {
  }

  /** A unit with no number before it is not an integer. */
  lemma BareUnitError()
    ensures ParsePeriod("h") == Err(InvalidFormat)
  {
    assert "h"[..0] == [];
    assert ParseInt([]) == None;
  }

  /** A number followed by an unknown unit. */
  lemma UnknownUnitError()
    ensures ParsePeriod("5x") == Err(InvalidUnit)
  {
    assert "5x"[..1] == Show(5);
    ParseShow(5);
  }

  // ---------------------------------------------------------------------------
  // Aggregation
  // ---------------------------------------------------------------------------

  /** `AggregatedMetrics`; times in seconds, latencies in milliseconds. */
  datatype Aggregated = Aggregated(
    periodStart: real,
    periodEnd: real,
    tenantId: Option<string>,
    totalRequests: nat,
    successfulRequests: nat,
    failedRequests: nat,
    cachedRequests: nat,
    totalInputTokens: int,
    totalOutputTokens: int,
    totalCostUsd: real,
    latencyP50: real,
    latencyP95: real,
    latencyP99: real,
    latencyAvg: real,
    byProvider: seq<Entry<Bucket>>,
    byModel: seq<Entry<Bucket>>,
    errorsByType: seq<Entry<nat>>)

  /**
   * The metrics at or after `cutoff`, in order (the usage report's
   * `Policies.Recent` is the same filter over the enforcer's own record type).
   */
  function InWindow(ms: seq<RequestMetrics>, cutoff: real): (r: seq<RequestMetrics>)
    ensures |r| <= |ms|
    ensures forall x :: x in r <==> x in ms && x.timestamp >= cutoff
  {
    if ms == [] then []
    else (if ms[0].timestamp >= cutoff then [ms[0]] else []) + InWindow(ms[1..], cutoff)
  }

  /** The window keeps every recent metric as often as it was recorded. */
  lemma {:induction false} InWindowCounts(ms: seq<RequestMetrics>, cutoff: real)
    ensures forall x :: multiset(InWindow(ms, cutoff))[x] == if x.timestamp >= cutoff then multiset(ms)[x] else 0
  {
    if ms != [] {
      InWindowCounts(ms[1..], cutoff);
      assert ms == [ms[0]] + ms[1..];
    }
  }

  /** A failure the error breakdown counts: not successful and with a non-empty error type. */
  predicate CountedError(m: RequestMetrics) {
    !m.success && m.errorType.Some? && m.errorType.value != ""
  }

  /** What each request adds to the by-provider breakdown. */
  function ProviderItems(ms: seq<RequestMetrics>): (r: seq<Item>)
    ensures |r| == |ms|
  {
    if ms == [] then [] else ProviderItems(ms[..|ms| - 1]) + [Item(ms[|ms| - 1].provider, ms[|ms| - 1].costUsd, ms[|ms| - 1].totalTokens)]
  }

  /** What each request adds to the by-model breakdown. */
  function ModelItems(ms: seq<RequestMetrics>): (r: seq<Item>)
    ensures |r| == |ms|
  {
    if ms == [] then [] else ModelItems(ms[..|ms| - 1]) + [Item(ms[|ms| - 1].model, ms[|ms| - 1].costUsd, ms[|ms| - 1].totalTokens)]
  }

  /** What each counted failure adds to the error breakdown. */
  function ErrorItems(ms: seq<RequestMetrics>): (r: seq<Item>)
    ensures |r| <= |ms|
  {
    if ms == [] then []
    else ErrorItems(ms[..|ms| - 1]) + (if CountedError(ms[|ms| - 1]) then [Item(ms[|ms| - 1].errorType.value, 0.0, 0)] else [])
  }

  /** Number of successful requests. */
  function SuccessCount(ms: seq<RequestMetrics>): nat {
    if ms == [] then 0 else SuccessCount(ms[..|ms| - 1]) + (if ms[|ms| - 1].success then 1 else 0)
  }

  /** Number of failed requests. */
  function FailedCount(ms: seq<RequestMetrics>): nat {
    if ms == [] then 0 else FailedCount(ms[..|ms| - 1]) + (if !ms[|ms| - 1].success then 1 else 0)
  }

  /** Number of requests served from cache. */
  function CachedCount(ms: seq<RequestMetrics>): nat {
    if ms == [] then 0 else CachedCount(ms[..|ms| - 1]) + (if ms[|ms| - 1].cached then 1 else 0)
  }

  /** Sum of the input tokens. */
  function InputTokens(ms: seq<RequestMetrics>): int {
    if ms == [] then 0 else InputTokens(ms[..|ms| - 1]) + ms[|ms| - 1].inputTokens
  }

  /** Sum of the output tokens. */
  function OutputTokens(ms: seq<RequestMetrics>): int {
    if ms == [] then 0 else OutputTokens(ms[..|ms| - 1]) + ms[|ms| - 1].outputTokens
  }

  /** Sum of the costs. */
  function CostSum(ms: seq<RequestMetrics>): real {
    if ms == [] then 0.0 else CostSum(ms[..|ms| - 1]) + ms[|ms| - 1].costUsd
  }

  /** The latencies, in order. */
  function Latencies(ms: seq<RequestMetrics>): (r: seq<real>)
    ensures |r| == |ms|
  {
    if ms == [] then [] else Latencies(ms[..|ms| - 1]) + [ms[|ms| - 1].latencyMs]
  }

  /** Sum of the request counts of a count dict. */
  function CountSum(d: seq<Entry<nat>>): int {
    if d == [] then 0 else d[0].value + CountSum(d[1..])
  }

  /** The aggregate of an empty window: zero everywhere. */
  function EmptyAggregate(cutoff: real, now: real, tenantId: Option<string>): Aggregated {
    Aggregated(cutoff, now, tenantId, 0, 0, 0, 0, 0, 0, 0.0, 0.0, 0.0, 0.0, 0.0, [], [], [])
  }

  /**
   * What `get_stats` returns for the selected metrics `ms`: the aggregate
   * the loop and the sums compute, with the percentiles and average taken
   * over the sorted latencies.
   */
  function Aggregate(ms: seq<RequestMetrics>, cutoff: real, now: real, tenantId: Option<string>): (r: Aggregated)
    ensures r.periodStart == cutoff && r.periodEnd == now && r.tenantId == tenantId
    ensures r.totalRequests == |ms| && r.successfulRequests + r.failedRequests == r.totalRequests
  {
    OutcomeCounts(ms);
    if ms == [] then EmptyAggregate(cutoff, now, tenantId)
    else
      var latencies := Sort(Latencies(ms));
      Aggregated(cutoff, now, tenantId, |ms|, SuccessCount(ms), FailedCount(ms), CachedCount(ms),
                 InputTokens(ms), OutputTokens(ms), CostSum(ms),
                 Percentile(latencies, 50), Percentile(latencies, 95), Percentile(latencies, 99),
                 SumReals(latencies) / |latencies| as real,
                 TallyAll(ProviderItems(ms)), TallyAll(ModelItems(ms)), Counts(TallyAll(ErrorItems(ms))))
  }

  /** Every request either succeeded or failed. */
  lemma {:induction false} OutcomeCounts(ms: seq<RequestMetrics>)
    ensures SuccessCount(ms) + FailedCount(ms) == |ms|
    ensures |ErrorItems(ms)| <= FailedCount(ms)
  {
    if ms != [] {
      OutcomeCounts(ms[..|ms| - 1]);
    }
  }

  /** The aggregate total cost is the by-provider breakdown's item total. */
  lemma {:induction false} CostSumItems(ms: seq<RequestMetrics>)
    ensures CostSum(ms) == ItemCost(ProviderItems(ms)) == ItemCost(ModelItems(ms))
  {
    if ms != [] {
      CostSumItems(ms[..|ms| - 1]);
      assert ProviderItems(ms)[..|ms| - 1] == ProviderItems(ms[..|ms| - 1]);
      assert ModelItems(ms)[..|ms| - 1] == ModelItems(ms[..|ms| - 1]);
    }
  }

  /** A count dict sums to the number of requests it was tallied from. */
  lemma {:induction false} CountSumOfCounts(d: seq<Entry<Bucket>>)
    ensures CountSum(Counts(d)) == Requests(d)
  {
    if d != [] {
      CountSumOfCounts(d[1..]);
      assert Counts(d)[1..] == Counts(d[1..]);
    }
  }

  /**
   * The aggregate is consistent: successes and failures make up the total;
   * the provider and model breakdowns each count every request once and
   * share out the whole cost; the error breakdown counts at most the failed
   * requests; and the latency percentiles are ordered within the latency range.
   */
  lemma AggregateConsistent(ms: seq<RequestMetrics>, cutoff: real, now: real, tenantId: Option<string>)
    ensures var a := Aggregate(ms, cutoff, now, tenantId);
      && a.totalRequests == |ms|
      && a.successfulRequests + a.failedRequests == a.totalRequests
      && Requests(a.byProvider) == a.totalRequests && Requests(a.byModel) == a.totalRequests
      && Cost(a.byProvider) == a.totalCostUsd && Cost(a.byModel) == a.totalCostUsd
      && CountSum(a.errorsByType) <= a.failedRequests
      && DistinctKeys(a.byProvider) && DistinctKeys(a.byModel) && DistinctKeys(a.errorsByType)
      && a.latencyP50 <= a.latencyP95 <= a.latencyP99
    ensures ms != [] ==>
      var latencies := Sort(Latencies(ms));
      var a := Aggregate(ms, cutoff, now, tenantId);
      latencies[0] <= a.latencyP50 && a.latencyP99 <= latencies[|latencies| - 1]
  {
    OutcomeCounts(ms);
    CostSumItems(ms);
    TallyTotals(ProviderItems(ms));
    TallyTotals(ModelItems(ms));
    TallyTotals(ErrorItems(ms));
    CountSumOfCounts(TallyAll(ErrorItems(ms)));
    var counts := Counts(TallyAll(ErrorItems(ms)));
    DistinctCounts(TallyAll(ErrorItems(ms)));
    if ms != [] {
      var latencies := Sort(Latencies(ms));
      PercentileMonotone(latencies, 50, 95);
      PercentileMonotone(latencies, 95, 99);
    }
  }

  /** Projecting a dict to its counts keeps its keys. */
  lemma {:induction false} DistinctCounts(d: seq<Entry<Bucket>>)
    ensures KeySet(Counts(d)) == KeySet(d)
    ensures DistinctKeys(Counts(d)) == DistinctKeys(d)
  {
    if d != [] {
      DistinctCounts(d[1..]);
      assert Counts(d)[1..] == Counts(d[1..]);
    }
  }

  // ---------------------------------------------------------------------------
  // Cost breakdown
  // ---------------------------------------------------------------------------

  /** A `by_provider` row of the cost breakdown. */
  datatype ProviderCost = ProviderCost(costUsd: real, percentage: real)

  /** A `by_model` row of the cost breakdown. */
  datatype ModelCost = ModelCost(costUsd: real, requests: nat, avgCost: real)

  /** The dict `get_cost_breakdown` returns. */
  datatype CostBreakdown = CostBreakdown(totalCostUsd: real, byProvider: seq<Entry<ProviderCost>>, byModel: seq<Entry<ModelCost>>)

  /** A provider's share of the total cost in percent; 0 when nothing was spent. */
  function Share(cost: real, total: real): (s: real)
    ensures total > 0.0 ==> s * total == cost * 100.0
    ensures total <= 0.0 ==> s == 0.0
  {
    if total > 0.0 then cost / total * 100.0 else 0.0
  }

  /** Average cost per request; 0 without requests. */
  function AvgCost(cost: real, requests: nat): (a: real)
    ensures requests > 0 ==> a * requests as real == cost
    ensures requests == 0 ==> a == 0.0
  {
    if requests > 0 then cost / requests as real else 0.0
  }

  /** The `by_provider` rows: each provider's cost and its share of `total`. */
  function ProviderShares(d: seq<Entry<Bucket>>, total: real): (r: seq<Entry<ProviderCost>>)
    ensures |r| == |d|
    ensures forall i :: 0 <= i < |d| ==> r[i] == Entry(d[i].key, ProviderCost(d[i].value.cost, Share(d[i].value.cost, total)))
  {
    if d == [] then []
    else [Entry(d[0].key, ProviderCost(d[0].value.cost, Share(d[0].value.cost, total)))] + ProviderShares(d[1..], total)
  }

  /** The `by_model` rows: each model's cost, request count and average cost. */
  function ModelCostRows(d: seq<Entry<Bucket>>): (r: seq<Entry<ModelCost>>)
    ensures |r| == |d|
    ensures forall i :: 0 <= i < |d| ==>
      r[i] == Entry(d[i].key, ModelCost(d[i].value.cost, d[i].value.requests, AvgCost(d[i].value.cost, d[i].value.requests)))
  {
    if d == [] then []
    else [Entry(d[0].key, ModelCost(d[0].value.cost, d[0].value.requests, AvgCost(d[0].value.cost, d[0].value.requests)))]
         + ModelCostRows(d[1..])
  }

  /** `get_cost_breakdown` on the statistics it fetches. */
  function BreakdownOf(stats: Aggregated): (r: CostBreakdown)
    ensures r.totalCostUsd == stats.totalCostUsd
    ensures |r.byProvider| == |stats.byProvider| && |r.byModel| == |stats.byModel|
    ensures forall i :: 0 <= i < |r.byProvider| ==>
      && r.byProvider[i].key == stats.byProvider[i].key
      && r.byProvider[i].value.costUsd == stats.byProvider[i].value.cost
      && (stats.totalCostUsd > 0.0 ==> r.byProvider[i].value.percentage * stats.totalCostUsd == stats.byProvider[i].value.cost * 100.0)
    ensures forall i :: 0 <= i < |r.byModel| ==>
      && r.byModel[i].key == stats.byModel[i].key
      && r.byModel[i].value.requests == stats.byModel[i].value.requests
  {
    CostBreakdown(stats.totalCostUsd, ProviderShares(stats.byProvider, stats.totalCostUsd), ModelCostRows(stats.byModel))
  }

  /** Sum of the providers' percentages. */
  function ShareSum(d: seq<Entry<ProviderCost>>): real {
    if d == [] then 0.0 else d[0].value.percentage + ShareSum(d[1..])
  }

  /** The percentages of a breakdown, times the total, add up to a hundred times its cost. */
  lemma {:induction false} SharesScale(d: seq<Entry<Bucket>>, total: real)
    requires total > 0.0
    ensures ShareSum(ProviderShares(d, total)) * total == Cost(d) * 100.0
  {
    if d != [] {
      SharesScale(d[1..], total);
      assert ProviderShares(d, total)[1..] == ProviderShares(d[1..], total);
      var s0, rest := Share(d[0].value.cost, total), ShareSum(ProviderShares(d[1..], total));
      assert (s0 + rest) * total == s0 * total + rest * total;
    }
  }

  /** When the provider breakdown accounts for a positive total, its percentages sum to 100. */
  lemma SharesSum(a: Aggregated)
    requires Cost(a.byProvider) == a.totalCostUsd > 0.0
    ensures ShareSum(BreakdownOf(a).byProvider) == 100.0
  {
    SharesScale(a.byProvider, a.totalCostUsd);
    var s := ShareSum(BreakdownOf(a).byProvider);
    assert s * a.totalCostUsd == 100.0 * a.totalCostUsd;
  }

  /** When anything was spent, the percentages of `get_cost_breakdown` sum to 100. */
  lemma SharesSumTo100(ms: seq<RequestMetrics>, cutoff: real, now: real, tenantId: Option<string>)
    requires Aggregate(ms, cutoff, now, tenantId).totalCostUsd > 0.0
    ensures ShareSum(BreakdownOf(Aggregate(ms, cutoff, now, tenantId)).byProvider) == 100.0
  {
    AggregateConsistent(ms, cutoff, now, tenantId);
    SharesSum(Aggregate(ms, cutoff, now, tenantId));
  }

  // ---------------------------------------------------------------------------
  // History and tenant index
  // ---------------------------------------------------------------------------

  /** The history length `max_history` allows: a limit below 1 keeps nothing. */
  function Cap(maxHistory: int): nat {
    if maxHistory > 0 then maxHistory else 0
  }

  /** The requests of one tenant, in order. */
  function OfTenant(h: seq<RequestMetrics>, tenant: string): (r: seq<RequestMetrics>)
    ensures |r| <= |h|
    ensures forall x :: x in r <==> x in h && x.tenantId == tenant
  {
    if h == [] then []
    else (if h[0].tenantId == tenant then [h[0]] else []) + OfTenant(h[1..], tenant)
  }

  /** Filtering by tenant commutes with appending. */
  lemma {:induction false} OfTenantAppend(h: seq<RequestMetrics>, m: RequestMetrics, tenant: string)
    ensures OfTenant(h + [m], tenant) == OfTenant(h, tenant) + (if m.tenantId == tenant then [m] else [])
  {
    if h != [] {
      assert (h + [m])[1..] == h[1..] + [m];
      OfTenantAppend(h[1..], m, tenant);
    }
  }

  /** The `_by_tenant` entry of a tenant (the defaultdict's empty list when absent). */
  function Lookup(index: map<string, seq<RequestMetrics>>, tenant: string): seq<RequestMetrics> {
    if tenant in index then index[tenant] else []
  }

  /**
   * The tenant index agrees with the history: looking up any tenant gives
   * exactly that tenant's requests, in order (tenants without requests may
   * be absent or map to an empty list).
   */
  ghost predicate Indexed(h: seq<RequestMetrics>, index: map<string, seq<RequestMetrics>>) {
    forall t :: Lookup(index, t) == OfTenant(h, t)
  }

  /** The history after appending: the oldest request goes once the length passes `max_history`. */
  function Trimmed(s: seq<RequestMetrics>, maxHistory: int): (r: seq<RequestMetrics>)
    requires s != []
    ensures |r| == if |s| > maxHistory then |s| - 1 else |s|
    ensures r == s[|s| - |r|..]
  {
    if |s| > maxHistory then s[1..] else s
  }

  /**
   * FIFO eviction keeps the newest requests in order: from a history within
   * the cap, recording one request leaves the last `Cap` (or all) of them.
   */
  lemma NewestKept(h: seq<RequestMetrics>, m: RequestMetrics, maxHistory: int)
    requires |h| <= Cap(maxHistory)
    ensures var s := h + [m];
      var keep := if |s| < Cap(maxHistory) then |s| else Cap(maxHistory);
      Trimmed(s, maxHistory) == s[|s| - keep..]
  {
  }

  /** The index after `_by_tenant[tenant].append(metrics)`. */
  function IndexAppend(index: map<string, seq<RequestMetrics>>, m: RequestMetrics): map<string, seq<RequestMetrics>> {
    index[m.tenantId := Lookup(index, m.tenantId) + [m]]
  }

  /** The index after evicting `removed`: its tenant's list loses its head only when that head has the same request id. */
  function IndexEvict(index: map<string, seq<RequestMetrics>>, removed: RequestMetrics): (r: map<string, seq<RequestMetrics>>)
    ensures r.Keys == index.Keys + {removed.tenantId}
    ensures forall t :: t in index && t != removed.tenantId ==> r[t] == index[t]
    ensures var l := Lookup(index, removed.tenantId);
      && |l| - 1 <= |r[removed.tenantId]| <= |l|
      && r[removed.tenantId] == l[|l| - |r[removed.tenantId]|..]
      && (|r[removed.tenantId]| < |l| ==> l[0].requestId == removed.requestId)
  {
    var tenantList := Lookup(index, removed.tenantId);
    if tenantList != [] && tenantList[0].requestId == removed.requestId then index[removed.tenantId := tenantList[1..]]
    else index[removed.tenantId := tenantList]
  }

  /** The whole index update of `record`. */
  function RecordedIndex(h: seq<RequestMetrics>, index: map<string, seq<RequestMetrics>>, m: RequestMetrics, maxHistory: int): (r: map<string, seq<RequestMetrics>>)
    ensures m.tenantId in r
    ensures |h + [m]| <= maxHistory ==> Lookup(r, m.tenantId) == Lookup(index, m.tenantId) + [m]
  {
    var appended := IndexAppend(index, m);
    if |h + [m]| > maxHistory then IndexEvict(appended, (h + [m])[0]) else appended
  }

  /**
   * `record` touches at most two tenants' lists: the new request's and the
   * evicted request's; every other tenant keeps its list.
   */
  lemma RecordedIndexOthers(h: seq<RequestMetrics>, index: map<string, seq<RequestMetrics>>, m: RequestMetrics, maxHistory: int)
    ensures var r := RecordedIndex(h, index, m, maxHistory);
      forall t :: t in r <==> t in index || t == m.tenantId || (|h + [m]| > maxHistory && t == (h + [m])[0].tenantId)
    ensures var r := RecordedIndex(h, index, m, maxHistory);
      forall t :: t in index && t != m.tenantId && (|h + [m]| <= maxHistory || t != (h + [m])[0].tenantId) ==> r[t] == index[t]
  {
  }

  /** Appending a request to the history and to its tenant's list keeps the index consistent. */
  lemma AppendKeepsIndex(h: seq<RequestMetrics>, index: map<string, seq<RequestMetrics>>, m: RequestMetrics)
    requires Indexed(h, index)
    ensures Indexed(h + [m], IndexAppend(index, m))
  {
    forall t
      ensures Lookup(IndexAppend(index, m), t) == OfTenant(h + [m], t)
    {
      OfTenantAppend(h, m, t);
    }
  }

  /**
   * Evicting the oldest request of a non-empty history keeps the index
   * consistent: the evicted request is always the head of its tenant's list,
   * so the request-id guard of the eviction always holds.
   */
  lemma EvictKeepsIndex(s: seq<RequestMetrics>, index: map<string, seq<RequestMetrics>>)
    requires s != [] && Indexed(s, index)
    ensures Indexed(s[1..], IndexEvict(index, s[0]))
    ensures var tl := Lookup(index, s[0].tenantId); tl != [] && tl[0] == s[0]
  {
    var removed := s[0];
    assert OfTenant(s, removed.tenantId) == [removed] + OfTenant(s[1..], removed.tenantId);
    forall t
      ensures Lookup(IndexEvict(index, removed), t) == OfTenant(s[1..], t)
    {
      assert OfTenant(s, t) == (if removed.tenantId == t then [removed] else []) + OfTenant(s[1..], t);
    }
  }

  /**
   * `record` keeps the index consistent with the trimmed history, and when it
   * evicts, the evicted request heads its tenant's list.
   */
  lemma {:induction false} RecordKeepsIndex(h: seq<RequestMetrics>, index: map<string, seq<RequestMetrics>>, m: RequestMetrics, maxHistory: int)
    requires Indexed(h, index)
    ensures Indexed(Trimmed(h + [m], maxHistory), RecordedIndex(h, index, m, maxHistory))
    ensures var s := h + [m]; var tl := Lookup(IndexAppend(index, m), s[0].tenantId);
      |s| > maxHistory ==> tl != [] && tl[0] == s[0]
  {
    AppendKeepsIndex(h, index, m);
    if |h + [m]| > maxHistory {
      EvictKeepsIndex(h + [m], IndexAppend(index, m));
    }
  }

  /** The two branches of `record`'s eviction, each keeping the history within the cap and the index consistent. */
  lemma RecordSteps(h: seq<RequestMetrics>, index: map<string, seq<RequestMetrics>>, m: RequestMetrics, maxHistory: int)
    requires |h| <= Cap(maxHistory) && Indexed(h, index)
    ensures |h + [m]| > maxHistory ==>
      (h + [m])[1..] == Trimmed(h + [m], maxHistory) &&
      IndexEvict(IndexAppend(index, m), (h + [m])[0]) == RecordedIndex(h, index, m, maxHistory) &&
      |(h + [m])[1..]| <= Cap(maxHistory) &&
      Indexed((h + [m])[1..], IndexEvict(IndexAppend(index, m), (h + [m])[0]))
    ensures |h + [m]| <= maxHistory ==>
      h + [m] == Trimmed(h + [m], maxHistory) &&
      IndexAppend(index, m) == RecordedIndex(h, index, m, maxHistory) &&
      |h + [m]| <= Cap(maxHistory) &&
      Indexed(h + [m], IndexAppend(index, m))
  {
    AppendKeepsIndex(h, index, m);
    if |h + [m]| > maxHistory {
      EvictKeepsIndex(h + [m], IndexAppend(index, m));
    }
  }

  // ---------------------------------------------------------------------------
  // Statistics over the history
  // ---------------------------------------------------------------------------

  /** The requests `get_stats` starts from: the tenant's list for a non-empty tenant id, otherwise all. */
  function Selected(h: seq<RequestMetrics>, tenantId: Option<string>): (r: seq<RequestMetrics>)
    ensures |r| <= |h|
    ensures forall x :: x in r <==> x in h && (tenantId.None? || tenantId.value == "" || x.tenantId == tenantId.value)
  {
    if tenantId.Some? && tenantId.value != "" then OfTenant(h, tenantId.value) else h
  }

  /** What `get_stats(period, tenant_id)` returns at time `now` over the history `h`. */
  function StatsOf(h: seq<RequestMetrics>, period: string, tenantId: Option<string>, now: real): (r: Result<Aggregated, PeriodError>)
    ensures r.Err? <==> ParsePeriod(period).Err?
    ensures r.Err? ==> r.error == ParsePeriod(period).error
    ensures r.Ok? ==> r.value.periodEnd == now && r.value.periodEnd - r.value.periodStart == ParsePeriod(period).value as real
  {
    match ParsePeriod(period)
    case Err(e) => Err(e)
    case Ok(seconds) => Ok(StatsFor(h, CutoffOf(now, seconds), tenantId, now))
  }

  /** The start of a window of `seconds` seconds ending at `now`. */
  function CutoffOf(now: real, seconds: int): real {
    now - seconds as real
  }

  /** The statistics of the window from `cutoff` to `now`. */
  function StatsFor(h: seq<RequestMetrics>, cutoff: real, tenantId: Option<string>, now: real): Aggregated {
    Aggregate(InWindow(Selected(h, tenantId), cutoff), cutoff, now, tenantId)
  }

  /** A malformed period is what `get_stats` reports. */
  lemma StatsError(h: seq<RequestMetrics>, period: string, tenantId: Option<string>, now: real)
    requires ParsePeriod(period).Err?
    ensures StatsOf(h, period, tenantId, now) == Err(ParsePeriod(period).error)
  {
  }

  /** With a well-formed period, `get_stats` aggregates the selected requests inside the window. */
  lemma StatsAggregated(h: seq<RequestMetrics>, period: string, tenantId: Option<string>, now: real,
                        parsed: Result<int, PeriodError>, cutoff: real, stats: Aggregated)
    requires parsed == ParsePeriod(period) && parsed.Ok? && cutoff == CutoffOf(now, parsed.value)
    requires stats == StatsFor(h, cutoff, tenantId, now)
    ensures StatsOf(h, period, tenantId, now) == Ok(stats)
  {
  }

  /** The aggregate of the selected requests inside the window is the statistics of that window. */
  lemma WindowStats(h: seq<RequestMetrics>, cutoff: real, tenantId: Option<string>, now: real,
                    source: seq<RequestMetrics>, metrics: seq<RequestMetrics>, stats: Aggregated)
    requires source == Selected(h, tenantId) && metrics == InWindow(source, cutoff)
    requires stats == Aggregate(metrics, cutoff, now, tenantId)
    ensures stats == StatsFor(h, cutoff, tenantId, now)
  {
  }

  /**
   * What `get_stats` counts: exactly the requests at or after the cutoff,
   * of the given tenant when one is named.
   */
  lemma StatsWindow(h: seq<RequestMetrics>, tenantId: Option<string>, cutoff: real, x: RequestMetrics)
    ensures x in InWindow(Selected(h, tenantId), cutoff) <==>
      x in h && x.timestamp >= cutoff && (tenantId.Some? && tenantId.value != "" ==> x.tenantId == tenantId.value)
  {
  }

  /** One more request extends each tally by its item. */
  lemma TallyStep(ms: seq<RequestMetrics>, i: int)
    requires 0 <= i < |ms|
    ensures TallyAll(ProviderItems(ms[..i + 1])) == Add(TallyAll(ProviderItems(ms[..i])), Item(ms[i].provider, ms[i].costUsd, ms[i].totalTokens))
    ensures TallyAll(ModelItems(ms[..i + 1])) == Add(TallyAll(ModelItems(ms[..i])), Item(ms[i].model, ms[i].costUsd, ms[i].totalTokens))
    ensures TallyAll(ErrorItems(ms[..i + 1])) ==
      if CountedError(ms[i]) then Add(TallyAll(ErrorItems(ms[..i])), Item(ms[i].errorType.value, 0.0, 0)) else TallyAll(ErrorItems(ms[..i]))
  {
    assert ms[..i + 1][..i] == ms[..i];
    var e := ErrorItems(ms[..i]);
    if CountedError(ms[i]) {
      assert ErrorItems(ms[..i + 1]) == e + [Item(ms[i].errorType.value, 0.0, 0)];
    } else {
      assert ErrorItems(ms[..i + 1]) == e;
    }
  }

  /** The loop of `get_stats`: tallies providers, models and counted errors in request order. */
  method TallyMetrics(ms: seq<RequestMetrics>) returns (providers: seq<Entry<Bucket>>, models: seq<Entry<Bucket>>, errors: seq<Entry<Bucket>>)
    ensures providers == TallyAll(ProviderItems(ms))
    ensures models == TallyAll(ModelItems(ms))
    ensures errors == TallyAll(ErrorItems(ms))
  {
    providers, models, errors := [], [], [];
    var i := 0;
    while i < |ms|
      invariant 0 <= i <= |ms|
      invariant providers == TallyAll(ProviderItems(ms[..i]))
      invariant models == TallyAll(ModelItems(ms[..i]))
      invariant errors == TallyAll(ErrorItems(ms[..i]))
    {
      var m := ms[i];
      TallyStep(ms, i);
      providers := Add(providers, Item(m.provider, m.costUsd, m.totalTokens));
      models := Add(models, Item(m.model, m.costUsd, m.totalTokens));
      if CountedError(m) {
        errors := Add(errors, Item(m.errorType.value, 0.0, 0));
      }
      assert errors == TallyAll(ErrorItems(ms[..i + 1]));
      i := i + 1;
    }
    assert ms[..|ms|] == ms;
  }

  /** The aggregation part of `get_stats` over the selected requests. */
  method Summarize(metrics: seq<RequestMetrics>, cutoff: real, now: real, tenantId: Option<string>) returns (a: Aggregated)
    ensures a == Aggregate(metrics, cutoff, now, tenantId)
  {
    if metrics == [] {
      return EmptyAggregate(cutoff, now, tenantId);
    }
    var latencies := Sort(Latencies(metrics));
    var providers, models, errors := TallyMetrics(metrics);
    a := Aggregated(cutoff, now, tenantId, |metrics|, SuccessCount(metrics), FailedCount(metrics), CachedCount(metrics),
                    InputTokens(metrics), OutputTokens(metrics), CostSum(metrics),
                    Percentile(latencies, 50), Percentile(latencies, 95), Percentile(latencies, 99),
                    SumReals(latencies) / |latencies| as real,
                    providers, models, Counts(errors));
  }

  /** `TelemetryCollector`: the bounded history, its per-tenant index and the export log. */
  class TelemetryCollector {
    const maxHistory: int
    /** Whether an export callback was configured; its failures are swallowed. */
    const hasExportCallback: bool
    var history: seq<RequestMetrics>
    var byTenant: map<string, seq<RequestMetrics>>
    /** The requests handed to the export callback, in order. */
    var exported: seq<RequestMetrics>

    ghost predicate Valid()
      reads this
    {
      |history| <= Cap(maxHistory) && Indexed(history, byTenant)
    }

    constructor(maxHistory: int, hasExportCallback: bool)
      ensures Valid()
      ensures this.maxHistory == maxHistory && this.hasExportCallback == hasExportCallback
      ensures history == [] && byTenant == map[] && exported == []
    {
      this.maxHistory := maxHistory;
      this.hasExportCallback := hasExportCallback;
      history := [];
      byTenant := map[];
      exported := [];
    }

    /**
     * `record`: fill in the cost, append to the history and the tenant
     * index, evict the oldest request once past `max_history`, and export.
     */
    method Record(m: RequestMetrics)
      requires Valid()
      modifies this`history, this`byTenant, this`exported
      ensures Valid()
      ensures history == Trimmed(old(history) + [FillCost(m)], maxHistory)
      ensures byTenant == RecordedIndex(old(history), old(byTenant), FillCost(m), maxHistory)
      ensures exported == old(exported) + (if hasExportCallback then [FillCost(m)] else [])
    {
      var filled := FillCost(m);
      RecordSteps(history, byTenant, filled, maxHistory);
      var kept := history + [filled];
      var index := IndexAppend(byTenant, filled);
      if |kept| > maxHistory {
        var removed := kept[0];
        kept := kept[1..];
        index := IndexEvict(index, removed);
      }
      history, byTenant := kept, index;
      if hasExportCallback {
        exported := exported + [filled];
      }
    }

    /** The end of `track_request`: finalise the tracked metrics and record them. */
    method TrackRequest(m: RequestMetrics, latencyMs: real, failure: Option<(string, string)>)
      requires Valid()
      modifies this`history, this`byTenant, this`exported
      ensures Valid()
      ensures history == Trimmed(old(history) + [FillCost(Finalize(m, latencyMs, failure))], maxHistory)
      ensures byTenant == RecordedIndex(old(history), old(byTenant), FillCost(Finalize(m, latencyMs, failure)), maxHistory)
      ensures exported == old(exported) + (if hasExportCallback then [FillCost(Finalize(m, latencyMs, failure))] else [])
    {
      Record(Finalize(m, latencyMs, failure));
    }

    /** `get_stats` at time `now`; it changes nothing, so calls at the same time agree. */
    method GetStats(period: string, tenantId: Option<string>, now: real) returns (r: Result<Aggregated, PeriodError>)
      requires Valid()
      ensures r == StatsOf(history, period, tenantId, now)
    {
      var parsed := ParsePeriod(period);
      if parsed.Err? {
        StatsError(history, period, tenantId, now);
        return Err(parsed.error);
      }
      var cutoff := CutoffOf(now, parsed.value);
      var source := history;
      if tenantId.Some? && tenantId.value != "" {
        source := Lookup(byTenant, tenantId.value);
      }
      assert source == Selected(history, tenantId);
      var metrics := InWindow(source, cutoff);
      var stats := Summarize(metrics, cutoff, now, tenantId);
      WindowStats(history, cutoff, tenantId, now, source, metrics, stats);
      StatsAggregated(history, period, tenantId, now, parsed, cutoff, stats);
      r := Ok(stats);
    }

    /** `get_cost_breakdown`: the breakdown of the statistics for the same period and tenant. */
    method GetCostBreakdown(period: string, tenantId: Option<string>, now: real) returns (r: Result<CostBreakdown, PeriodError>)
      requires Valid()
      ensures StatsOf(history, period, tenantId, now).Err? ==> r == Err(StatsOf(history, period, tenantId, now).error)
      ensures StatsOf(history, period, tenantId, now).Ok? ==> r == Ok(BreakdownOf(StatsOf(history, period, tenantId, now).value))
    {
      var stats := GetStats(period, tenantId, now);
      if stats.Err? {
        return Err(stats.error);
      }
      r := Ok(BreakdownOf(stats.value));
    }
  }
}
