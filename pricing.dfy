/**
 * The pricing and tier tables of the policy module and the pure helpers
 * built on them: `estimate_cost`, `_tier_exceeds_limit` and
 * `get_model_pricing`.  Rates are USD per 1000 tokens.
 */
module Pricing {
  import opened Common

  /** Coarse price class of a model, ordered FREE < LOW < MEDIUM < HIGH < PREMIUM. */
  datatype CostTier = Free | Low | Medium | High | Premium

  /** USD per 1000 input tokens and per 1000 output tokens. */
  datatype Rates = Rates(input: real, output: real)

  /** Position of a tier in `tier_order`. */
  function TierIndex(t: CostTier): nat {
    match t
    case Free => 0
    case Low => 1
    case Medium => 2
    case High => 3
    case Premium => 4
  }

  /** `_tier_exceeds_limit`: the model's tier stands strictly later in the order than the limit. */
  predicate TierExceedsLimit(modelTier: CostTier, limitTier: CostTier)
    ensures TierExceedsLimit(modelTier, limitTier) ==> modelTier != limitTier && modelTier != Free && limitTier != Premium
    ensures modelTier == Premium && limitTier != Premium ==> TierExceedsLimit(modelTier, limitTier)
    ensures limitTier == Free && modelTier != Free ==> TierExceedsLimit(modelTier, limitTier)
  {
    TierIndex(modelTier) > TierIndex(limitTier)
  }

  /** `MODEL_COSTS`. */
  const ModelCosts: map<string, Rates> := map[
    "gpt-4o-mini" := Rates(0.00015, 0.0006),
    "gpt-4o" := Rates(0.0025, 0.01),
    "gpt-4-turbo" := Rates(0.01, 0.03),
    "gpt-4" := Rates(0.03, 0.06),
    "o1-preview" := Rates(0.015, 0.06),
    "o1-mini" := Rates(0.003, 0.012),
    "gpt-3.5-turbo" := Rates(0.0005, 0.0015),
    "claude-3-haiku" := Rates(0.00025, 0.00125),
    "claude-3-5-haiku" := Rates(0.0008, 0.004),
    "claude-3-5-sonnet" := Rates(0.003, 0.015),
    "claude-3-sonnet" := Rates(0.003, 0.015),
    "claude-3-opus" := Rates(0.015, 0.075),
    "claude-sonnet-4-5-20250929" := Rates(0.003, 0.015),
    "claude-opus-4-5-20251101" := Rates(0.015, 0.075),
    "azure-gpt-4o-mini" := Rates(0.00015, 0.0006),
    "azure-gpt-4o" := Rates(0.0025, 0.01),
    "azure-gpt-4" := Rates(0.03, 0.06),
    "llama3.2" := Rates(0.0, 0.0),
    "llama3" := Rates(0.0, 0.0),
    "mistral" := Rates(0.0, 0.0),
    "codellama" := Rates(0.0, 0.0),
    "phi3" := Rates(0.0, 0.0),
    "gemma" := Rates(0.0, 0.0)
  ]

  /** `MODEL_COST_TIERS`. */
  const ModelCostTiers: map<string, CostTier> := map[
    "llama3.2" := Free,
    "llama3" := Free,
    "mistral" := Free,
    "codellama" := Free,
    "phi3" := Free,
    "gemma" := Free,
    "gpt-4o-mini" := Low,
    "gpt-3.5-turbo" := Low,
    "claude-3-haiku" := Low,
    "claude-3-5-haiku" := Low,
    "azure-gpt-4o-mini" := Low,
    "gpt-4o" := Medium,
    "claude-3-5-sonnet" := Medium,
    "claude-3-sonnet" := Medium,
    "claude-sonnet-4-5-20250929" := Medium,
    "azure-gpt-4o" := Medium,
    "gpt-4-turbo" := High,
    "gpt-4" := High,
    "claude-3-opus" := High,
    "claude-opus-4-5-20251101" := High,
    "azure-gpt-4" := High,
    "o1-preview" := Premium,
    "o1-mini" := Premium
  ]

  /** The default share of input tokens assumed by `estimate_cost`. */
  const DefaultInputRatio: real := 0.7

  /**
   * The input/output split of `estimate_cost`: `input = int(tokens * ratio)`
   * and `output = tokens - input`.
   */
  function SplitTokens(tokens: int, inputRatio: real): (split: (int, int))
    ensures split.0 + split.1 == tokens
    ensures 0 <= tokens && 0.0 <= inputRatio <= 1.0 ==>
      0 <= split.0 <= tokens && split.0 as real <= tokens as real * inputRatio < split.0 as real + 1.0
  {
    var input := Trunc(tokens as real * inputRatio);
    if 0 <= tokens && 0.0 <= inputRatio <= 1.0 then
      ScaledWithin(tokens, inputRatio);
      TruncWithin(tokens as real * inputRatio, tokens);
      (input, tokens - input)
    else
      (input, tokens - input)
  }

  /** Truncating a value between 0 and a count gives an integer between 0 and the count. */
  lemma TruncWithin(x: real, n: int)
    requires 0.0 <= x <= n as real
    ensures 0 <= Trunc(x) <= n && Trunc(x) as real <= x < Trunc(x) as real + 1.0
  {
  }

  /** A fraction between 0 and 1 of a count lies between 0 and the count. */
  lemma ScaledWithin(tokens: int, ratio: real)
    requires 0 <= tokens && 0.0 <= ratio <= 1.0
    ensures 0.0 <= tokens as real * ratio <= tokens as real
  {
    assert tokens as real * ratio <= tokens as real * 1.0;
  }

  /** Cost in USD of `input` and `output` tokens at per-1000-token `rates`. */
  function PriceOf(rates: Rates, input: int, output: int): real {
    (input as real * rates.input + output as real * rates.output) / 1000.0
  }

  /** Every rate in the table is non-negative. */
  lemma RatesNonNegative(model: string)
    requires model in ModelCosts
    ensures ModelCosts[model].input >= 0.0 && ModelCosts[model].output >= 0.0
  {
  }

  /**
   * `estimate_cost`: 0 for a model missing from the table (assumed local),
   * otherwise the table price of the split.  For a non-negative token count
   * and a ratio in [0, 1] the estimate lies between 0 and the price of all
   * tokens at the dearer of the two rates.
   */
  function EstimateCost(model: string, tokens: int, inputRatio: real): (cost: real)
    ensures model !in ModelCosts ==> cost == 0.0
    ensures model in ModelCosts ==>
      cost == PriceOf(ModelCosts[model], SplitTokens(tokens, inputRatio).0, SplitTokens(tokens, inputRatio).1)
    ensures 0 <= tokens && 0.0 <= inputRatio <= 1.0 ==>
      0.0 <= cost <= tokens as real * MaxReal(RatesOf(model).input, RatesOf(model).output) / 1000.0
  {
    if model !in ModelCosts then 0.0
    else
      var split := SplitTokens(tokens, inputRatio);
      RatesNonNegative(model);
      PriceWithin(ModelCosts[model], split.0, split.1);
      PriceOf(ModelCosts[model], split.0, split.1)
  }

  /** A price of non-negative token counts at non-negative rates is at most all tokens at the dearer rate. */
  lemma PriceWithin(rates: Rates, input: int, output: int)
    requires 0.0 <= rates.input && 0.0 <= rates.output
    ensures 0 <= input && 0 <= output ==>
      0.0 <= PriceOf(rates, input, output) <= (input + output) as real * MaxReal(rates.input, rates.output) / 1000.0
  {
    if 0 <= input && 0 <= output {
      var m := MaxReal(rates.input, rates.output);
      MulMono(input as real, rates.input, m);
      MulMono(output as real, rates.output, m);
      assert input as real * m + output as real * m == (input + output) as real * m;
    }
  }

  lemma MulMono(a: real, x: real, y: real)
    requires 0.0 <= a && 0.0 <= x <= y
    ensures 0.0 <= a * x <= a * y
  {
  }

  /** The table rates of a model, (0, 0) when it is missing. */
  function RatesOf(model: string): Rates {
    if model in ModelCosts then ModelCosts[model] else Rates(0.0, 0.0)
  }

  /** ASCII lower-casing of one character. */
  function LowerChar(c: char): char {
    if 'A' <= c <= 'Z' then (c as int + 32) as char else c
  }

  /** `str.lower()`, for the ASCII letters. */
  function Lower(s: string): (r: string)
    ensures |r| == |s|
    ensures forall i :: 0 <= i < |s| ==> r[i] == LowerChar(s[i])
  {
    if s == [] then [] else [LowerChar(s[0])] + Lower(s[1..])
  }

  /** The prefixes `get_model_pricing` tries, in order. */
  const PricingPrefixes: seq<string> := ["azure-", "claude-", "gpt-"]

  /** The first prefixed name found in the table, trying the prefixes from index `i` on. */
  function PrefixedHit(model: string, i: nat): (r: Option<string>)
    requires i <= |PricingPrefixes|
    ensures r.Some? ==> r.value in ModelCosts
    ensures r.Some? ==> exists j :: i <= j < |PricingPrefixes| && r.value == PricingPrefixes[j] + model &&
                                    (forall k :: i <= k < j ==> PricingPrefixes[k] + model !in ModelCosts)
    ensures r.None? <==> forall j :: i <= j < |PricingPrefixes| ==> PricingPrefixes[j] + model !in ModelCosts
    decreases |PricingPrefixes| - i
  {
    if i == |PricingPrefixes| then None
    else if PricingPrefixes[i] + model in ModelCosts then Some(PricingPrefixes[i] + model)
    else PrefixedHit(model, i + 1)
  }

  /**
   * `get_model_pricing`: a direct table hit; else the first of the
   * `azure-`, `claude-`, `gpt-` prefixed names in the table; else free for
   * the local providers `ollama` and `local` (any letter case); else unknown.
   */
  function GetModelPricing(provider: string, model: string): (r: Option<Rates>)
    ensures model in ModelCosts ==> r == Some(ModelCosts[model])
    ensures r.Some? ==> r.value in ModelCosts.Values || r.value == Rates(0.0, 0.0)
    ensures model !in ModelCosts && PrefixedHit(model, 0).Some? ==> r == Some(ModelCosts[PrefixedHit(model, 0).value])
    ensures model !in ModelCosts && PrefixedHit(model, 0).None? && (Lower(provider) == "ollama" || Lower(provider) == "local") ==>
      r == Some(Rates(0.0, 0.0))
    ensures r.None? <==>
      && model !in ModelCosts
      && (forall j :: 0 <= j < |PricingPrefixes| ==> PricingPrefixes[j] + model !in ModelCosts)
      && Lower(provider) != "ollama" && Lower(provider) != "local"
  {
    if model in ModelCosts then Some(ModelCosts[model])
    else
      match PrefixedHit(model, 0)
      case Some(name) => Some(ModelCosts[name])
      case None =>
        if Lower(provider) == "ollama" || Lower(provider) == "local" then Some(Rates(0.0, 0.0))
        else None
  }

  /** The tier order is strict and total: of two different tiers exactly one exceeds the other. */
  lemma TierOrderStrictTotal(a: CostTier, b: CostTier, c: CostTier)
    ensures !TierExceedsLimit(a, a)
    ensures a != b ==> TierExceedsLimit(a, b) != TierExceedsLimit(b, a)
    ensures TierExceedsLimit(a, b) && TierExceedsLimit(b, c) ==> TierExceedsLimit(a, c)
    ensures !TierExceedsLimit(a, Premium) && !TierExceedsLimit(Free, a)
  {
  }

  /** Both tables name the same models, and every FREE-tier model costs nothing. */
  lemma TablesAgree()
    ensures ModelCosts.Keys == ModelCostTiers.Keys
    ensures forall m :: m in ModelCostTiers && ModelCostTiers[m] == Free ==> ModelCosts[m] == Rates(0.0, 0.0)
  {
  }

  /**
   * The estimates the tests of the policy module expect, computed exactly:
   * 1000 GPT-4o-mini tokens split 700/300, 2000 Claude 3.5 Sonnet tokens at a
   * 0.6 ratio split 1200/800, nothing for unknown and local models, and
   * 2000 Claude 3 Opus tokens costing 0.066, which on top of a recorded 0.95
   * exceeds a 1.00 budget.
   */
  lemma {:induction false} EstimateExamples()
    ensures EstimateCost("gpt-4o-mini", 1000, DefaultInputRatio) == (700.0 * 0.00015 + 300.0 * 0.0006) / 1000.0
    ensures EstimateCost("claude-3-5-sonnet", 2000, 0.6) == (1200.0 * 0.003 + 800.0 * 0.015) / 1000.0
    ensures EstimateCost("unknown-model", 1000, DefaultInputRatio) == 0.0
    ensures EstimateCost("llama3", 10000, DefaultInputRatio) == 0.0
    ensures EstimateCost("claude-3-opus", 2000, DefaultInputRatio) == 0.066
    ensures 0.95 + EstimateCost("claude-3-opus", 2000, DefaultInputRatio) > 1.0
  {
    assert SplitTokens(1000, DefaultInputRatio) == (700, 300);
    assert SplitTokens(2000, 0.6) == (1200, 800);
    assert SplitTokens(2000, DefaultInputRatio) == (1400, 600);
  }

  /** The examples of `get_model_pricing`'s documentation: direct table hits. */
  lemma PricingDirectExamples()
    ensures GetModelPricing("openai", "gpt-4o") == Some(Rates(0.0025, 0.01))
    ensures GetModelPricing("anthropic", "claude-sonnet-4-5-20250929") == Some(Rates(0.003, 0.015))
  {
  }

  /** A bare model name found under the `gpt-` prefix, even on a local provider: the prefixes are tried first. */
  lemma PricingPrefixExample()
    ensures GetModelPricing("openai", "4o") == Some(Rates(0.0025, 0.01))
    ensures GetModelPricing("ollama", "4o") == Some(Rates(0.0025, 0.01))
  {
    assert "4o" !in ModelCosts;
    assert PricingPrefixes[0] + "4o" == "azure-4o" && "azure-4o" !in ModelCosts;
    assert PricingPrefixes[1] + "4o" == "claude-4o" && "claude-4o" !in ModelCosts;
    assert PricingPrefixes[2] + "4o" == "gpt-4o";
    assert PrefixedHit("4o", 0) == Some("gpt-4o");
  }

  /** A model name that is in the table under no prefix. */
  lemma UnpricedQwen()
    ensures "qwen" !in ModelCosts
    ensures PrefixedHit("qwen", 0) == None
  {
    assert PricingPrefixes[0] + "qwen" == "azure-qwen" && "azure-qwen" !in ModelCosts;
    assert PricingPrefixes[1] + "qwen" == "claude-qwen" && "claude-qwen" !in ModelCosts;
    assert PricingPrefixes[2] + "qwen" == "gpt-qwen" && "gpt-qwen" !in ModelCosts;
    assert PrefixedHit("qwen", 2) == None;
    assert PrefixedHit("qwen", 1) == None;
  }

  /** An unknown model is free under a local provider of any letter case. */
  lemma PricingLocalExample()
    ensures GetModelPricing("Ollama", "qwen") == Some(Rates(0.0, 0.0))
  {
    UnpricedQwen();
    assert Lower("Ollama") == "ollama";
  }

  /** An unknown model under a hosted provider has no pricing. */
  lemma PricingUnknownExample()
    ensures GetModelPricing("openai", "qwen") == None
  {
    UnpricedQwen();
    assert Lower("openai") == "openai";
  }
}
