/**
 * The Azure OpenAI adapter of `netrun/llm/adapters/azure_openai.py`:
 * priority-ordered resource selection, per-resource success and failure
 * counters, and the bounded failover loop of `execute`.
 *
 * The SDK call of `_execute_with_resource` is an oracle: `reply(k)` is what
 * the k-th call of one `execute` (counting from 0) brings back. Times are
 * seconds, latencies milliseconds.
 */
module AzureOpenAI {
  import opened Common
  import opened PyStr
  import opened AdapterHealth

  /** `AzureResource`; priority 1 is the highest. */
  datatype AzureResource = AzureResource(name: string, endpoint: string, resourceGroup: string, models: seq<string>, priority: int)

  /** The resources configured when none are given (and no environment override is set). */
  function DefaultResources(): (r: seq<AzureResource>)
    ensures |r| == 3 && forall i :: 0 <= i < |r| ==> r[i].priority == i + 1
  {
    [ AzureResource("nrcharlotte", "https://nrcharlotte.openai.azure.com", "rg-Daniel-7272", ["o3-mini", "gpt-4o"], 1),
      AzureResource("wilbur-resource", "https://wilbur-resource.openai.azure.com", "Chatbot", ["gpt-4.1", "gpt-4o", "gpt-4o-mini-transcribe"], 2),
      AzureResource("oai-netrunmax-prod-eastus", "https://oai-netrunmax-prod-eastus.openai.azure.com", "rg-netrunmax-prod", ["gpt-4-turbo", "text-embedding-ada-002"], 3) ]
  }

  // ---------------------------------------------------------------------------
  // Priority order
  // ---------------------------------------------------------------------------

  /** Ordered by ascending priority number. */
  predicate PrioritySorted(s: seq<AzureResource>) {
    forall i, j :: 0 <= i < j < |s| ==> s[i].priority <= s[j].priority
  }

  /** Insert `x` before the first resource whose priority number is not lower, so earlier equals stay first. */
  function InsertByPriority(x: AzureResource, s: seq<AzureResource>): (r: seq<AzureResource>)
    ensures multiset(r) == multiset(s) + multiset{x} && |r| == |s| + 1
  {
    if s == [] || x.priority <= s[0].priority then [x] + s
    else
      assert s == [s[0]] + s[1..];
      [s[0]] + InsertByPriority(x, s[1..])
  }

  /** A bound below `x` and below every element of `s` stays below every element after inserting `x`. */
  lemma {:induction false} InsertLowerBound(b: int, x: AzureResource, s: seq<AzureResource>)
    requires b <= x.priority && forall i :: 0 <= i < |s| ==> b <= s[i].priority
    ensures forall k :: 0 <= k < |InsertByPriority(x, s)| ==> b <= InsertByPriority(x, s)[k].priority
  {
    if s != [] && x.priority > s[0].priority {
      InsertLowerBound(b, x, s[1..]);
      assert InsertByPriority(x, s) == [s[0]] + InsertByPriority(x, s[1..]);
    }
  }

  /** Insertion keeps a list ordered by priority number. */
  lemma {:induction false} InsertSorted(x: AzureResource, s: seq<AzureResource>)
    requires PrioritySorted(s)
    ensures PrioritySorted(InsertByPriority(x, s))
  {
    if s == [] || x.priority <= s[0].priority {
      assert forall j :: 0 < j < |s| ==> s[0].priority <= s[j].priority;
    } else {
      InsertSorted(x, s[1..]);
      InsertLowerBound(s[0].priority, x, s[1..]);
      assert InsertByPriority(x, s) == [s[0]] + InsertByPriority(x, s[1..]);
    }
  }

  /** `sorted(resources, key=lambda r: r.priority)`: a stable sort by priority number. */
  function SortByPriority(s: seq<AzureResource>): (r: seq<AzureResource>)
    ensures PrioritySorted(r) && multiset(r) == multiset(s) && |r| == |s|
  {
    if s == [] then []
    else
      assert s == [s[0]] + s[1..];
      InsertSorted(s[0], SortByPriority(s[1..]));
      InsertByPriority(s[0], SortByPriority(s[1..]))
  }

  /** The first resource of `s` satisfying `p`. */
  function FirstMatch(s: seq<AzureResource>, p: AzureResource -> bool): Option<AzureResource> {
    if s == [] then None
    else if p(s[0]) then Some(s[0])
    else FirstMatch(s[1..], p)
  }

  /** The first match is a member of the list. */
  lemma {:induction false} FirstMatchIn(s: seq<AzureResource>, p: AzureResource -> bool)
    ensures FirstMatch(s, p).Some? ==> FirstMatch(s, p).value in s
  {
    if s != [] && !p(s[0]) {
      FirstMatchIn(s[1..], p);
    }
  }

  /**
   * An independent reading of "first match after a stable sort by
   * priority": a matching resource with the lowest priority number, the
   * earliest in list order among those.
   */
  function LowestMatch(s: seq<AzureResource>, p: AzureResource -> bool): Option<AzureResource> {
    if s == [] then None
    else
      var rest := LowestMatch(s[1..], p);
      if p(s[0]) && (rest.None? || s[0].priority <= rest.value.priority) then Some(s[0]) else rest
  }

  /** Inserting `x` into a sorted list changes the first match only if `x` matches and its priority is no worse. */
  lemma {:induction false} InsertFirstMatch(x: AzureResource, s: seq<AzureResource>, p: AzureResource -> bool)
    requires PrioritySorted(s)
    ensures FirstMatch(InsertByPriority(x, s), p) ==
      if p(x) && (FirstMatch(s, p).None? || x.priority <= FirstMatch(s, p).value.priority) then Some(x) else FirstMatch(s, p)
  {
    if s == [] || x.priority <= s[0].priority {
      var f := FirstMatch(s, p);
      FirstMatchIn(s, p);
      if f.Some? {
        var j :| 0 <= j < |s| && s[j] == f.value;
        assert s[0].priority <= s[j].priority by {
          if j > 0 { assert PrioritySorted(s); }
        }
      }
      assert InsertByPriority(x, s) == [x] + s;
      assert ([x] + s)[1..] == s;
    } else {
      InsertFirstMatch(x, s[1..], p);
      var r := InsertByPriority(x, s);
      assert r == [s[0]] + InsertByPriority(x, s[1..]);
      assert r[1..] == InsertByPriority(x, s[1..]);
    }
  }

  /** First match after the stable sort is the lowest-numbered match, earliest in list order. */
  lemma {:induction false} SortedFirstMatch(s: seq<AzureResource>, p: AzureResource -> bool)
    ensures FirstMatch(SortByPriority(s), p) == LowestMatch(s, p)
  {
    if s != [] {
      SortedFirstMatch(s[1..], p);
      InsertFirstMatch(s[0], SortByPriority(s[1..]), p);
    }
  }

  /**
   * What the lowest match is: none exactly when nothing matches; otherwise a
   * match whose priority number no match beats, and that is the first of
   * the matches with that number in list order.
   */
  lemma {:induction false} LowestMatchSpec(s: seq<AzureResource>, p: AzureResource -> bool)
    ensures LowestMatch(s, p).None? <==> forall x :: x in s ==> !p(x)
    ensures LowestMatch(s, p).Some? ==>
      var r := LowestMatch(s, p).value;
      && r in s && p(r)
      && (forall x :: x in s && p(x) ==> r.priority <= x.priority)
      && exists i :: 0 <= i < |s| && s[i] == r && forall j :: 0 <= j < i && p(s[j]) ==> s[j].priority > r.priority
  {
    if s != [] {
      LowestMatchSpec(s[1..], p);
      var rest := LowestMatch(s[1..], p);
      var r := LowestMatch(s, p);
      if r.Some? {
        if p(s[0]) && (rest.None? || s[0].priority <= rest.value.priority) {
          assert s[0] == r.value;
        } else {
          var i :| 0 <= i < |s[1..]| && s[1..][i] == r.value && forall j :: 0 <= j < i && p(s[1..][j]) ==> s[1..][j].priority > r.value.priority;
          assert s[i + 1] == r.value;
          forall j | 0 <= j < i + 1 && p(s[j])
            ensures s[j].priority > r.value.priority
          {
            if j > 0 {
              assert s[j] == s[1..][j - 1];
            }
          }
        }
        forall x | x in s && p(x)
          ensures r.value.priority <= x.priority
        {
          if x != s[0] {
            assert x in s[1..];
          }
        }
      } else {
        forall x | x in s
          ensures !p(x)
        {
          if x != s[0] {
            assert x in s[1..];
          }
        }
      }
    }
  }

  /** Whether a resource serves `model`. */
  function Serves(model: string): AzureResource -> bool {
    (r: AzureResource) => model in r.models
  }

  /** Whether a resource has not failed yet. */
  function Untried(failed: seq<string>): AzureResource -> bool {
    (r: AzureResource) => r.name !in failed
  }

  /**
   * `_get_resource_for_model`: the first resource serving the model in the
   * stably sorted list, which is the lowest match of the unsorted one.
   */
  function ResourceForModel(resources: seq<AzureResource>, model: string): (r: Option<AzureResource>)
    ensures r == LowestMatch(resources, Serves(model))
  {
    SortedFirstMatch(resources, Serves(model));
    FirstMatch(SortByPriority(resources), Serves(model))
  }

  /**
   * `_select_fallback_resource`: the first untried resource in the stably
   * sorted list, which is the lowest match of the unsorted one.
   */
  function SelectFallback(resources: seq<AzureResource>, failed: seq<string>): (r: Option<AzureResource>)
    ensures r == LowestMatch(resources, Untried(failed))
  {
    SortedFirstMatch(resources, Untried(failed));
    FirstMatch(SortByPriority(resources), Untried(failed))
  }

  /**
   * `_get_resource_for_model` finds a resource listing the model exactly
   * when there is one; it has the lowest priority number among them and is
   * the first in list order with that number.
   */
  lemma ResourceForModelSpec(resources: seq<AzureResource>, model: string)
    ensures ResourceForModel(resources, model).None? <==> forall x :: x in resources ==> model !in x.models
    ensures ResourceForModel(resources, model).Some? ==>
      var r := ResourceForModel(resources, model).value;
      && r in resources && model in r.models
      && (forall x :: x in resources && model in x.models ==> r.priority <= x.priority)
      && exists i :: 0 <= i < |resources| && resources[i] == r &&
           forall j :: 0 <= j < i && model in resources[j].models ==> resources[j].priority > r.priority
  {
    SortedFirstMatch(resources, Serves(model));
    LowestMatchSpec(resources, Serves(model));
  }

  /**
   * `_select_fallback_resource` finds a resource whose name has not failed
   * exactly when there is one; it has the lowest priority number among them
   * and is the first in list order with that number.
   */
  lemma SelectFallbackSpec(resources: seq<AzureResource>, failed: seq<string>)
    ensures SelectFallback(resources, failed).None? <==> forall x :: x in resources ==> x.name in failed
    ensures SelectFallback(resources, failed).Some? ==>
      var r := SelectFallback(resources, failed).value;
      && r in resources && r.name !in failed
      && (forall x :: x in resources && x.name !in failed ==> r.priority <= x.priority)
      && exists i :: 0 <= i < |resources| && resources[i] == r &&
           forall j :: 0 <= j < i && resources[j].name !in failed ==> resources[j].priority > r.priority
  {
    SortedFirstMatch(resources, Untried(failed));
    LowestMatchSpec(resources, Untried(failed));
  }

  /** Sorting two resources given out of order puts priority 1 first. */
  lemma SortExample(a: AzureResource, b: AzureResource)
    requires a.priority < b.priority
    ensures SortByPriority([b, a]) == [a, b] && SortByPriority([a, b]) == [a, b]
  {
    assert [b, a][1..] == [a];
    assert [a, b][1..] == [b];
    assert SortByPriority([a]) == [a];
    assert SortByPriority([b]) == [b];
  }

  /** Priority 1 serves a model both resources list, wherever it is listed; a model nobody serves finds nothing. */
  lemma ResourceForModelExamples()
    ensures var a := AzureResource("resource1", "https://a", "rg", ["gpt-4", "gpt-35-turbo"], 1);
      var b := AzureResource("resource2", "https://b", "rg", ["gpt-4", "gpt-4o"], 2);
      && ResourceForModel([b, a], "gpt-4") == Some(a)
      && ResourceForModel([a, b], "gpt-4o") == Some(b)
      && ResourceForModel([a, b], "claude") == None
  {
    var a := AzureResource("resource1", "https://a", "rg", ["gpt-4", "gpt-35-turbo"], 1);
    var b := AzureResource("resource2", "https://b", "rg", ["gpt-4", "gpt-4o"], 2);
    SortExample(a, b);
    assert [a, b][1..] == [b];
    assert "gpt-4" in a.models;
    assert "gpt-4o" != "gpt-4" && "gpt-4o" != "gpt-35-turbo";
    assert "gpt-4o" in b.models;
    assert "claude" !in a.models && "claude" !in b.models;
  }

  /** With the priority-1 resource failed the fallback is the priority-2 one; with both failed there is none. */
  lemma FallbackExamples()
    ensures var a := AzureResource("resource1", "https://a", "rg", ["gpt-4", "gpt-35-turbo"], 1);
      var b := AzureResource("resource2", "https://b", "rg", ["gpt-4", "gpt-4o"], 2);
      && SelectFallback([a, b], []) == Some(a)
      && SelectFallback([a, b], ["resource1"]) == Some(b)
      && SelectFallback([a, b], ["resource1", "resource2"]) == None
  {
    var a := AzureResource("resource1", "https://a", "rg", ["gpt-4", "gpt-35-turbo"], 1);
    var b := AzureResource("resource2", "https://b", "rg", ["gpt-4", "gpt-4o"], 2);
    SortExample(a, b);
    assert [a, b][1..] == [b];
    assert "resource2" != "resource1" by { assert "resource2"[8] != "resource1"[8]; }
    assert "resource2" !in ["resource1"];
  }

  // ---------------------------------------------------------------------------
  // One call to one resource
  // ---------------------------------------------------------------------------

  /** What the SDK call brings back: a completion, or one of the three kinds of exception. */
  datatype Reply =
    | Completed(latencyMs: int, tokensIn: int, tokensOut: int)
    | RateLimitError(latencyMs: int, message: string)
    | ApiError(latencyMs: int, message: string)
    | OtherError(latencyMs: int, message: string)

  /** The per-resource health dicts. */
  datatype Counters = Counters(success: map<string, nat>, failure: map<string, nat>, lastUsed: map<string, real>)

  /** `dict.get(name, 0)`. */
  function CountOf(m: map<string, nat>, name: string): nat {
    if name in m then m[name] else 0
  }

  /** The counters after one `_execute_with_resource` on `name` at `now`. */
  function CountCall(c: Counters, name: string, hasClient: bool, reply: Reply, now: real): (r: Counters)
    requires hasClient ==> name in c.success && name in c.failure
    ensures r.success.Keys == c.success.Keys && r.failure.Keys == c.failure.Keys
  {
    if !hasClient then c
    else if reply.Completed? then c.(success := c.success[name := c.success[name] + 1], lastUsed := c.lastUsed[name := now])
    else c.(failure := c.failure[name := c.failure[name] + 1])
  }

  /**
   * One call changes the counters of its resource only: without a client
   * nothing changes; otherwise a completion adds one success and stamps
   * the time of use, and any exception adds one failure.
   */
  lemma CountCallEffect(c: Counters, name: string, hasClient: bool, reply: Reply, now: real)
    requires hasClient ==> name in c.success && name in c.failure
    ensures var r := CountCall(c, name, hasClient, reply, now);
      && (!hasClient ==> r == c)
      && (hasClient && reply.Completed? ==>
            CountOf(r.success, name) == CountOf(c.success, name) + 1 && CountOf(r.failure, name) == CountOf(c.failure, name)
            && name in r.lastUsed && r.lastUsed[name] == now)
      && (hasClient && !reply.Completed? ==>
            CountOf(r.failure, name) == CountOf(c.failure, name) + 1 && CountOf(r.success, name) == CountOf(c.success, name)
            && r.lastUsed == c.lastUsed)
      && (forall n :: n != name ==>
            CountOf(r.success, n) == CountOf(c.success, n) && CountOf(r.failure, n) == CountOf(c.failure, n)
            && (n in r.lastUsed <==> n in c.lastUsed) && (n in c.lastUsed ==> r.lastUsed[n] == c.lastUsed[n]))
  {
  }

  /** The `LLMResponse` of `_execute_with_resource` (its content and metadata aside). */
  function ResourceResponse(resource: AzureResource, model: string, hasClient: bool, reply: Reply): (r: Response)
    ensures r.status == Success <==> hasClient && reply.Completed?
    ensures r.status == RateLimited <==> hasClient && reply.RateLimitError?
    ensures r.status == Success ==> r.costUsd == 0.0 && r.modelUsed == Some(model) && r.error.None?
    ensures r.modelUsed == Some(model)
  {
    if !hasClient then ErrorResponse("No client initialized for " + resource.name, Error, 0, Some(model))
    else match reply
      case Completed(latency, tokensIn, tokensOut) => Response(Success, None, latency, 0.0, Some(model), tokensIn, tokensOut)
      case RateLimitError(latency, message) => ErrorResponse("Rate limit on " + resource.name + ": " + message, RateLimited, latency, Some(model))
      case ApiError(latency, message) => ErrorResponse("API error on " + resource.name + ": " + message, Error, latency, Some(model))
      case OtherError(latency, message) => ErrorResponse("Unexpected error on " + resource.name + ": " + message, Error, latency, Some(model))
  }

  /** `get_metadata`'s `success_rate` of one resource: 100 before any call. */
  function ResourceSuccessRate(c: Counters, name: string): (r: real)
    ensures 0.0 <= r <= 100.0
    ensures CountOf(c.success, name) + CountOf(c.failure, name) == 0 ==> r == 100.0
    ensures CountOf(c.success, name) + CountOf(c.failure, name) > 0 ==>
      r * (CountOf(c.success, name) + CountOf(c.failure, name)) as real == CountOf(c.success, name) as real * 100.0
  {
    RateOf(CountOf(c.success, name), CountOf(c.failure, name))
  }

  /** Eight successes and two failures give a success rate of 80. */
  lemma ResourceRateExample()
    ensures ResourceSuccessRate(Counters(map["test-resource" := 8], map["test-resource" := 2], map[]), "test-resource") == 80.0
  {
    var r := ResourceSuccessRate(Counters(map["test-resource" := 8], map["test-resource" := 2], map[]), "test-resource");
    assert r * 10.0 == 800.0;
  }

  /** `_calculate_effective_cost`: the pay-as-you-go price (per million tokens) that the credits saved; unknown models at gpt-4o rates. */
  function EffectiveCost(model: string, tokensIn: int, tokensOut: int): (c: real)
    ensures tokensIn >= 0 && tokensOut >= 0 ==> c >= 0.0
  {
    var rates :=
      if model == "o3-mini" then (1.10, 4.40)
      else if model == "gpt-4o" || model == "gpt-4.1" then (2.50, 10.00)
      else if model == "gpt-4-turbo" then (10.00, 30.00)
      else if model == "gpt-4o-mini-transcribe" then (0.15, 0.60)
      else (2.50, 10.00);
    tokensIn as real / 1000000.0 * rates.0 + tokensOut as real / 1000000.0 * rates.1
  }

  // ---------------------------------------------------------------------------
  // The failover plan
  // ---------------------------------------------------------------------------

  /** One call: the resource, the model asked of it, and what the call brought back. */
  datatype Attempt = Attempt(resource: AzureResource, model: string, reply: Reply)

  /** How `execute` ends after the breaker and enabled checks. */
  datatype Stop =
    | Answered   // a call succeeded; its response is returned
    | Exhausted  // all attempts failed; one failure is recorded
    | NoModel    // the fallback resource lists no model: `models[0]` raises IndexError

  /** The calls made, in order, and how the calling ended. */
  datatype Run = Run(attempts: seq<Attempt>, stop: Stop)

  /** Whether a call succeeds: its resource has a client and the call completed. */
  predicate Succeeds(a: Attempt, clients: set<string>) {
    a.resource.name in clients && a.reply.Completed?
  }

  /** The names of the attempted resources, in order. */
  function Names(attempts: seq<Attempt>): (r: seq<string>)
    ensures |r| == |attempts|
    ensures forall i :: 0 <= i < |attempts| ==> r[i] == attempts[i].resource.name
  {
    if attempts == [] then [] else [attempts[0].resource.name] + Names(attempts[1..])
  }

  /** `_select_fallback_resource` over the adapter's resources, as a chooser of the next resource given the failed names. */
  function Chooser(resources: seq<AzureResource>): seq<string> -> Option<AzureResource> {
    (failed: seq<string>) => SelectFallback(resources, failed)
  }

  /**
   * The fallback part of `execute`: up to `left` further calls, the k-th
   * numbered `call + k`, each to the resource `next` picks given the names
   * failed so far, with that resource's first model.
   */
  function Fallbacks(next: seq<string> -> Option<AzureResource>, clients: set<string>, failed: seq<string>, call: nat, left: nat, reply: nat -> Reply): (r: Run)
    ensures |r.attempts| <= left
    ensures r.stop == Answered ==> r.attempts != [] && Succeeds(r.attempts[|r.attempts| - 1], clients)
    decreases left
  {
    if left == 0 then Run([], Exhausted)
    else match next(failed)
      case None => Run([], Exhausted)
      case Some(fallback) =>
        if fallback.models == [] then Run([], NoModel)
        else
          var a := Attempt(fallback, fallback.models[0], reply(call));
          if Succeeds(a, clients) then Run([a], Answered)
          else
            var rest := Fallbacks(next, clients, failed + [fallback.name], call + 1, left - 1, reply);
            Run([a] + rest.attempts, rest.stop)
  }

  /**
   * The calls `execute` makes for `model` and how it ends, given the
   * primary resource (`_get_resource_for_model`) and the fallback chooser:
   * the primary first, then at most two fallbacks.
   */
  function Plan(primary: Option<AzureResource>, next: seq<string> -> Option<AzureResource>, clients: set<string>, model: string, reply: nat -> Reply): (r: Run)
    ensures |r.attempts| <= 3
    ensures primary.Some? ==> r.attempts != [] && r.attempts[0] == Attempt(primary.value, model, reply(0))
  {
    match primary
    case None =>
      FallbacksChoice(next, clients, [], 0, 2, reply);
      Fallbacks(next, clients, [], 0, 2, reply)
    case Some(p) =>
      var a := Attempt(p, model, reply(0));
      if Succeeds(a, clients) then Run([a], Answered)
      else
        var rest := Fallbacks(next, clients, [p.name], 1, 2, reply);
        FallbacksChoice(next, clients, [p.name], 1, 2, reply);
        Run([a] + rest.attempts, rest.stop)
  }

  /** The plan of the adapter's `execute` over its resources. */
  function ExecutePlan(resources: seq<AzureResource>, clients: set<string>, model: string, reply: nat -> Reply): (r: Run)
    ensures |r.attempts| <= 3
    ensures forall i, j :: 0 <= i < j < |r.attempts| ==> r.attempts[i].resource.name != r.attempts[j].resource.name
  {
    ChooserUntried(resources);
    PlanDistinct(ResourceForModel(resources, model), Chooser(resources), clients, model, reply);
    Plan(ResourceForModel(resources, model), Chooser(resources), clients, model, reply)
  }

  /**
   * Each fallback call goes to the resource `next` picks given everything
   * that failed before it, and asks for that resource's first model; there
   * are at most `left` of them.
   */
  lemma {:induction false} FallbacksChoice(next: seq<string> -> Option<AzureResource>, clients: set<string>, failed: seq<string>, call: nat, left: nat, reply: nat -> Reply)
    ensures var run := Fallbacks(next, clients, failed, call, left, reply);
      && |run.attempts| <= left
      && forall i :: 0 <= i < |run.attempts| ==>
           && run.attempts[i].resource.models != [] && run.attempts[i].model == run.attempts[i].resource.models[0]
           && next(failed + Names(run.attempts[..i])) == Some(run.attempts[i].resource)
    decreases left
  {
    var run := Fallbacks(next, clients, failed, call, left, reply);
    if left > 0 && next(failed).Some? {
      var fallback := next(failed).value;
      if fallback.models != [] {
        var a := Attempt(fallback, fallback.models[0], reply(call));
        assert failed + Names([]) == failed;
        assert [a][..0] == [];
        if !Succeeds(a, clients) {
          var failed' := failed + [fallback.name];
          FallbacksChoice(next, clients, failed', call + 1, left - 1, reply);
          assert var run' := Fallbacks(next, clients, failed', call + 1, left - 1, reply);
            && |run'.attempts| <= left - 1
            && forall j :: 0 <= j < |run'.attempts| ==>
                 && run'.attempts[j].resource.models != [] && run'.attempts[j].model == run'.attempts[j].resource.models[0]
                 && next(failed' + Names(run'.attempts[..j])) == Some(run'.attempts[j].resource);
          var rest := Fallbacks(next, clients, failed', call + 1, left - 1, reply).attempts;
          ChoiceCons(next, failed, a, rest, run.attempts);
        }
      }
    }
  }

  /** A call chosen given `failed`, followed by calls chosen given `failed` and its name, are all chosen given the names before them. */
  lemma ChoiceCons(next: seq<string> -> Option<AzureResource>, failed: seq<string>, a: Attempt, rest: seq<Attempt>, attempts: seq<Attempt>)
    requires attempts == [a] + rest
    requires a.resource.models != [] && a.model == a.resource.models[0] && next(failed) == Some(a.resource)
    requires forall j :: 0 <= j < |rest| ==>
      && rest[j].resource.models != [] && rest[j].model == rest[j].resource.models[0]
      && next(failed + [a.resource.name] + Names(rest[..j])) == Some(rest[j].resource)
    ensures forall i :: 0 <= i < |attempts| ==>
      && attempts[i].resource.models != [] && attempts[i].model == attempts[i].resource.models[0]
      && next(failed + Names(attempts[..i])) == Some(attempts[i].resource)
  {
    forall i | 0 <= i < |attempts|
      ensures attempts[i].resource.models != [] && attempts[i].model == attempts[i].resource.models[0]
      ensures next(failed + Names(attempts[..i])) == Some(attempts[i].resource)
    {
      if i == 0 {
        assert attempts[..0] == [] && failed + [] == failed;
      } else {
        assert attempts[i] == rest[i - 1];
        assert attempts[..i] == [a] + rest[..i - 1];
        assert Names(attempts[..i]) == [a.resource.name] + Names(rest[..i - 1]);
        ConcatAssoc(failed, [a.resource.name], Names(rest[..i - 1]));
      }
    }
  }

  /**
   * The fallback calls stop at the first success: every call before the
   * last failed, and the run is answered exactly when the last call
   * succeeded.
   */
  lemma {:induction false} FallbacksAnswer(next: seq<string> -> Option<AzureResource>, clients: set<string>, failed: seq<string>, call: nat, left: nat, reply: nat -> Reply)
    ensures var run := Fallbacks(next, clients, failed, call, left, reply);
      var n := |run.attempts|;
      && (forall i :: 0 <= i < n - 1 ==> !Succeeds(run.attempts[i], clients))
      && (run.stop == Answered <==> n > 0 && Succeeds(run.attempts[n - 1], clients))
    decreases left
  {
    var run := Fallbacks(next, clients, failed, call, left, reply);
    if left > 0 && next(failed).Some? {
      var fallback := next(failed).value;
      if fallback.models != [] {
        var a := Attempt(fallback, fallback.models[0], reply(call));
        if !Succeeds(a, clients) {
          var failed' := failed + [fallback.name];
          FallbacksAnswer(next, clients, failed', call + 1, left - 1, reply);
          assert var run' := Fallbacks(next, clients, failed', call + 1, left - 1, reply);
            var n := |run'.attempts|;
            && (forall i :: 0 <= i < n - 1 ==> !Succeeds(run'.attempts[i], clients))
            && (run'.stop == Answered <==> n > 0 && Succeeds(run'.attempts[n - 1], clients));
          var rest := Fallbacks(next, clients, failed', call + 1, left - 1, reply).attempts;
          assert run.attempts == [a] + rest;
          forall i | 0 < i < |run.attempts|
            ensures run.attempts[i] == rest[i - 1]
          {
          }
        }
      }
    }
  }

  /**
   * Unanswered fallback calls end because the budget is spent or `next`
   * finds no resource (then one failure is recorded), or because the
   * resource it finds lists no model.
   */
  lemma {:induction false} FallbacksEnd(next: seq<string> -> Option<AzureResource>, clients: set<string>, failed: seq<string>, call: nat, left: nat, reply: nat -> Reply)
    ensures var run := Fallbacks(next, clients, failed, call, left, reply);
      var tried := failed + Names(run.attempts);
      && (run.stop == Exhausted ==> |run.attempts| == left || next(tried).None?)
      && (run.stop == NoModel ==> next(tried).Some? && next(tried).value.models == [])
    decreases left
  {
    var run := Fallbacks(next, clients, failed, call, left, reply);
    assert failed + Names([]) == failed;
    if left > 0 && next(failed).Some? {
      var fallback := next(failed).value;
      if fallback.models != [] {
        var a := Attempt(fallback, fallback.models[0], reply(call));
        if !Succeeds(a, clients) {
          var failed' := failed + [fallback.name];
          FallbacksEnd(next, clients, failed', call + 1, left - 1, reply);
          assert var run' := Fallbacks(next, clients, failed', call + 1, left - 1, reply);
            var tried' := failed' + Names(run'.attempts);
            && (run'.stop == Exhausted ==> |run'.attempts| == left - 1 || next(tried').None?)
            && (run'.stop == NoModel ==> next(tried').Some? && next(tried').value.models == []);
          var rest := Fallbacks(next, clients, failed', call + 1, left - 1, reply).attempts;
          assert run.attempts == [a] + rest;
          assert Names(run.attempts) == [fallback.name] + Names(rest);
          ConcatAssoc(failed, [fallback.name], Names(rest));
        }
      }
    }
  }

  /** Sequence concatenation is associative. */
  lemma ConcatAssoc(a: seq<string>, b: seq<string>, c: seq<string>)
    ensures a + (b + c) == (a + b) + c
  {
  }

  /** A chooser that never picks a resource whose name has failed yields calls to distinct resources, none of them failed. */
  lemma FallbacksDistinct(next: seq<string> -> Option<AzureResource>, clients: set<string>, failed: seq<string>, call: nat, left: nat, reply: nat -> Reply)
    requires forall f :: next(f).Some? ==> next(f).value.name !in f
    ensures var run := Fallbacks(next, clients, failed, call, left, reply);
      && (forall i :: 0 <= i < |run.attempts| ==> run.attempts[i].resource.name !in failed)
      && (forall i, j :: 0 <= i < j < |run.attempts| ==> run.attempts[i].resource.name != run.attempts[j].resource.name)
  {
    var run := Fallbacks(next, clients, failed, call, left, reply);
    FallbacksChoice(next, clients, failed, call, left, reply);
    forall j | 0 <= j < |run.attempts|
      ensures run.attempts[j].resource.name !in failed + Names(run.attempts[..j])
    {
      assert next(failed + Names(run.attempts[..j])) == Some(run.attempts[j].resource);
    }
    forall i, j | 0 <= i < j < |run.attempts|
      ensures run.attempts[i].resource.name != run.attempts[j].resource.name
    {
      assert (failed + Names(run.attempts[..j]))[|failed| + i] == run.attempts[i].resource.name;
    }
  }

  /** `_select_fallback_resource` never picks a resource whose name has failed. */
  lemma ChooserUntried(resources: seq<AzureResource>)
    ensures forall f :: Chooser(resources)(f).Some? ==> Chooser(resources)(f).value.name !in f
  {
    forall f | Chooser(resources)(f).Some?
      ensures Chooser(resources)(f).value.name !in f
    {
      SelectFallbackSpec(resources, f);
    }
  }

  /**
   * The shape of the calls: at most three (the primary and two fallbacks),
   * the primary first with the requested model when there is one, and every
   * later call to the resource `next` picks given the names tried before
   * it, with its first model.
   */
  lemma PlanShape(primary: Option<AzureResource>, next: seq<string> -> Option<AzureResource>, clients: set<string>, model: string, reply: nat -> Reply)
    ensures var run := Plan(primary, next, clients, model, reply);
      && |run.attempts| <= 3
      && (primary.Some? ==> run.attempts != [] && run.attempts[0] == Attempt(primary.value, model, reply(0)))
      && (forall i :: (if primary.Some? then 1 else 0) <= i < |run.attempts| ==>
            && run.attempts[i].resource.models != [] && run.attempts[i].model == run.attempts[i].resource.models[0]
            && next(Names(run.attempts[..i])) == Some(run.attempts[i].resource))
  {
    var run := Plan(primary, next, clients, model, reply);
    match primary
    case None =>
      FallbacksChoice(next, clients, [], 0, 2, reply);
      forall i | 0 <= i < |run.attempts|
        ensures next(Names(run.attempts[..i])) == Some(run.attempts[i].resource)
      {
        assert [] + Names(run.attempts[..i]) == Names(run.attempts[..i]);
      }
    case Some(p) =>
      var a := Attempt(p, model, reply(0));
      if !Succeeds(a, clients) {
        FallbacksChoice(next, clients, [p.name], 1, 2, reply);
        assert var run' := Fallbacks(next, clients, [p.name], 1, 2, reply);
          && |run'.attempts| <= 2
          && forall j :: 0 <= j < |run'.attempts| ==>
               && run'.attempts[j].resource.models != [] && run'.attempts[j].model == run'.attempts[j].resource.models[0]
               && next([p.name] + Names(run'.attempts[..j])) == Some(run'.attempts[j].resource);
        var rest := Fallbacks(next, clients, [p.name], 1, 2, reply).attempts;
        ChoicePrepend(next, a, rest, run.attempts);
      }
  }

  /** Fallbacks chosen after a failed primary `a` are chosen given the names of all calls before them. */
  lemma ChoicePrepend(next: seq<string> -> Option<AzureResource>, a: Attempt, rest: seq<Attempt>, attempts: seq<Attempt>)
    requires attempts == [a] + rest
    requires forall j :: 0 <= j < |rest| ==>
      && rest[j].resource.models != [] && rest[j].model == rest[j].resource.models[0]
      && next([a.resource.name] + Names(rest[..j])) == Some(rest[j].resource)
    ensures forall i :: 1 <= i < |attempts| ==>
      && attempts[i].resource.models != [] && attempts[i].model == attempts[i].resource.models[0]
      && next(Names(attempts[..i])) == Some(attempts[i].resource)
  {
    forall i | 1 <= i < |attempts|
      ensures attempts[i].resource.models != [] && attempts[i].model == attempts[i].resource.models[0]
      ensures next(Names(attempts[..i])) == Some(attempts[i].resource)
    {
      assert attempts[i] == rest[i - 1];
      assert attempts[..i] == [a] + rest[..i - 1];
      assert Names(attempts[..i]) == [a.resource.name] + Names(rest[..i - 1]);
    }
  }

  /** When `next` never picks a failed name, the plan never calls the same resource name twice. */
  lemma PlanDistinct(primary: Option<AzureResource>, next: seq<string> -> Option<AzureResource>, clients: set<string>, model: string, reply: nat -> Reply)
    requires forall f :: next(f).Some? ==> next(f).value.name !in f
    ensures var run := Plan(primary, next, clients, model, reply);
      forall i, j :: 0 <= i < j < |run.attempts| ==> run.attempts[i].resource.name != run.attempts[j].resource.name
  {
    var run := Plan(primary, next, clients, model, reply);
    match primary
    case None =>
      FallbacksDistinct(next, clients, [], 0, 2, reply);
    case Some(p) =>
      var a := Attempt(p, model, reply(0));
      if !Succeeds(a, clients) {
        FallbacksDistinct(next, clients, [p.name], 1, 2, reply);
        assert var run' := Fallbacks(next, clients, [p.name], 1, 2, reply);
          && (forall i :: 0 <= i < |run'.attempts| ==> run'.attempts[i].resource.name !in [p.name])
          && (forall i, j :: 0 <= i < j < |run'.attempts| ==> run'.attempts[i].resource.name != run'.attempts[j].resource.name);
        var rest := Fallbacks(next, clients, [p.name], 1, 2, reply).attempts;
        assert run.attempts == [a] + rest;
        forall i, j | 0 <= i < j < |run.attempts|
          ensures run.attempts[i].resource.name != run.attempts[j].resource.name
        {
          assert run.attempts[j] == rest[j - 1];
          if i > 0 {
            assert run.attempts[i] == rest[i - 1];
          }
        }
      }
  }

  /**
   * The calls stop at the first success: every earlier call failed, and the
   * plan is answered exactly when its last call succeeded.
   */
  lemma PlanAnswer(primary: Option<AzureResource>, next: seq<string> -> Option<AzureResource>, clients: set<string>, model: string, reply: nat -> Reply)
    ensures var run := Plan(primary, next, clients, model, reply);
      var n := |run.attempts|;
      && (forall i :: 0 <= i < n - 1 ==> !Succeeds(run.attempts[i], clients))
      && (run.stop == Answered <==> n > 0 && Succeeds(run.attempts[n - 1], clients))
  {
    var run := Plan(primary, next, clients, model, reply);
    match primary
    case None =>
      FallbacksAnswer(next, clients, [], 0, 2, reply);
    case Some(p) =>
      var a := Attempt(p, model, reply(0));
      if !Succeeds(a, clients) {
        FallbacksAnswer(next, clients, [p.name], 1, 2, reply);
        assert var run' := Fallbacks(next, clients, [p.name], 1, 2, reply);
          var n := |run'.attempts|;
          && (forall i :: 0 <= i < n - 1 ==> !Succeeds(run'.attempts[i], clients))
          && (run'.stop == Answered <==> n > 0 && Succeeds(run'.attempts[n - 1], clients));
        var rest := Fallbacks(next, clients, [p.name], 1, 2, reply).attempts;
        assert run.attempts == [a] + rest;
        forall i | 1 <= i < |run.attempts|
          ensures run.attempts[i] == rest[i - 1]
        {
        }
      }
  }

  /** An unanswered plan is exhausted only after three calls (two without a primary) or when no untried resource is left. */
  lemma PlanEnd(primary: Option<AzureResource>, next: seq<string> -> Option<AzureResource>, clients: set<string>, model: string, reply: nat -> Reply)
    ensures var run := Plan(primary, next, clients, model, reply);
      run.stop == Exhausted ==> |run.attempts| == (if primary.Some? then 3 else 2) || next(Names(run.attempts)).None?
  {
    var run := Plan(primary, next, clients, model, reply);
    match primary
    case None =>
      FallbacksEnd(next, clients, [], 0, 2, reply);
      assert [] + Names(run.attempts) == Names(run.attempts);
    case Some(p) =>
      var a := Attempt(p, model, reply(0));
      if !Succeeds(a, clients) {
        FallbacksEnd(next, clients, [p.name], 1, 2, reply);
        assert var run' := Fallbacks(next, clients, [p.name], 1, 2, reply);
          run'.stop == Exhausted ==> |run'.attempts| == 2 || next([p.name] + Names(run'.attempts)).None?;
        var rest := Fallbacks(next, clients, [p.name], 1, 2, reply).attempts;
        assert run.attempts == [a] + rest;
        assert Names(run.attempts) == [p.name] + Names(rest);
      }
  }

  /**
   * For the adapter: the primary is `_get_resource_for_model`'s choice and
   * every fallback the resource `_select_fallback_resource` picks given the
   * names tried before it, so no resource name is called twice.
   */
  lemma ExecutePlanSpec(resources: seq<AzureResource>, clients: set<string>, model: string, reply: nat -> Reply)
    ensures var run := ExecutePlan(resources, clients, model, reply);
      var primary := ResourceForModel(resources, model);
      && |run.attempts| <= 3
      && (primary.Some? ==> run.attempts != [] && run.attempts[0] == Attempt(primary.value, model, reply(0)))
      && (forall i :: (if primary.Some? then 1 else 0) <= i < |run.attempts| ==>
            SelectFallback(resources, Names(run.attempts[..i])) == Some(run.attempts[i].resource))
      && (forall i, j :: 0 <= i < j < |run.attempts| ==> run.attempts[i].resource.name != run.attempts[j].resource.name)
  {
    ChooserUntried(resources);
    PlanShape(ResourceForModel(resources, model), Chooser(resources), clients, model, reply);
    PlanDistinct(ResourceForModel(resources, model), Chooser(resources), clients, model, reply);
  }

  /** The counters after a sequence of calls. */
  function CountCalls(c: Counters, attempts: seq<Attempt>, clients: set<string>, now: real): (r: Counters)
    requires forall n :: n in clients ==> n in c.success && n in c.failure
    ensures forall n :: n in clients ==> n in r.success && n in r.failure
  {
    if attempts == [] then c
    else
      var k := |attempts| - 1;
      var before := CountCalls(c, attempts[..k], clients, now);
      var name := attempts[k].resource.name;
      CountCall(before, name, name in clients, attempts[k].reply, now)
  }

  /** The number of calls to the resource named `name`. */
  function CallsTo(attempts: seq<Attempt>, name: string): (r: nat)
    ensures r <= |attempts|
  {
    if attempts == [] then 0
    else CallsTo(attempts[..|attempts| - 1], name) + (if attempts[|attempts| - 1].resource.name == name then 1 else 0)
  }

  /** Every call to a resource with a client adds exactly one to its success or failure count; other calls add nothing. */
  lemma {:induction false} CountCallsTotal(c: Counters, attempts: seq<Attempt>, clients: set<string>, now: real, name: string)
    requires forall n :: n in clients ==> n in c.success && n in c.failure
    ensures var r := CountCalls(c, attempts, clients, now);
      CountOf(r.success, name) + CountOf(r.failure, name) ==
        CountOf(c.success, name) + CountOf(c.failure, name) + (if name in clients then CallsTo(attempts, name) else 0)
  {
    if attempts != [] {
      var k := |attempts| - 1;
      CountCallsTotal(c, attempts[..k], clients, now, name);
      var before := CountCalls(c, attempts[..k], clients, now);
      CountCallEffect(before, attempts[k].resource.name, attempts[k].resource.name in clients, attempts[k].reply, now);
    }
  }

  /** The response of the last call of a run. */
  function LastResponse(attempts: seq<Attempt>, clients: set<string>): Response
    requires attempts != []
  {
    var a := attempts[|attempts| - 1];
    ResourceResponse(a.resource, a.model, a.resource.name in clients, a.reply)
  }

  /** `plan` is the calls `attempts` made so far followed by the fallback calls still to come. */
  ghost predicate Continues(plan: Run, next: seq<string> -> Option<AzureResource>, clients: set<string>, reply: nat -> Reply,
                            attempts: seq<Attempt>, failed: seq<string>, call: nat, left: nat)
  {
    var rest := Fallbacks(next, clients, failed, call, left, reply);
    plan == Run(attempts + rest.attempts, rest.stop)
  }

  /** Where the fallback calls stop short: the budget is spent, no resource is left, or the chosen one lists no model. */
  lemma FallbacksHalt(next: seq<string> -> Option<AzureResource>, clients: set<string>, failed: seq<string>, call: nat, left: nat, reply: nat -> Reply,
                      attempts: seq<Attempt>, plan: Run)
    ensures Continues(plan, next, clients, reply, attempts, failed, call, left) && (left == 0 || next(failed).None?) ==>
      plan == Run(attempts, Exhausted)
    ensures Continues(plan, next, clients, reply, attempts, failed, call, left) && left > 0 && next(failed).Some? && next(failed).value.models == [] ==>
      plan == Run(attempts, NoModel)
  {
    assert attempts + [] == attempts;
  }

  /**
   * One fallback call `a`, to the resource `r` chosen for `failed`: it ends
   * the plan when it succeeds, and otherwise the plan goes on with one call
   * fewer left and `r`'s name counted as failed.
   */
  lemma FallbacksStep(next: seq<string> -> Option<AzureResource>, clients: set<string>, failed: seq<string>, call: nat, left: nat, reply: nat -> Reply,
                      attempts: seq<Attempt>, plan: Run, r: AzureResource, a: Attempt, name: string, left': nat)
    ensures Continues(plan, next, clients, reply, attempts, failed, call, left) && left == left' + 1 && next(failed) == Some(r) && r.models != [] &&
            a == Attempt(r, r.models[0], reply(call)) && name == r.name ==>
      && (Succeeds(a, clients) ==> plan == Run(attempts + [a], Answered))
      && (!Succeeds(a, clients) ==> Continues(plan, next, clients, reply, attempts + [a], failed + [name], call + 1, left'))
  {
    if Continues(plan, next, clients, reply, attempts, failed, call, left) && left == left' + 1 && next(failed) == Some(r) && r.models != [] &&
       a == Attempt(r, r.models[0], reply(call)) && name == r.name
    {
      var rest := Fallbacks(next, clients, failed + [name], call + 1, left', reply);
      assert attempts + ([a] + rest.attempts) == (attempts + [a]) + rest.attempts;
    }
  }

  /**
   * One turn of the fallback loop against the plan: `f` is the resource
   * chosen for `failed`, and `stop`, `response`, `name` and `a` are what the
   * turn reports. A turn without a call ends the plan; a call extends the
   * names, the counters and the plan's calls by one.
   */
  lemma FallbackTurn(next: seq<string> -> Option<AzureResource>, clients: set<string>, reply: nat -> Reply, now: real, plan: Run,
                     attempts: seq<Attempt>, failed: seq<string>, call: nat, left: nat, left': nat, c0: Counters, c: Counters, c': Counters,
                     f: Option<AzureResource>, stop: Stop, response: Option<Response>, name: string, a: Attempt)
    requires forall n :: n in clients ==> n in c0.success && n in c0.failure
    ensures Continues(plan, next, clients, reply, attempts, failed, call, left) && left == left' + 1 && next(failed) == f &&
            call == |attempts| && failed == Names(attempts) && c == CountCalls(c0, attempts, clients, now) &&
            (response.None? <==> f.None? || f.value.models == []) &&
            (response.None? ==> stop == (if f.None? then Exhausted else NoModel)) &&
            (response.Some? ==>
               && a == Attempt(f.value, f.value.models[0], reply(call)) && name == f.value.name
               && c' == CountCall(c, name, name in clients, a.reply, now)
               && response.value == ResourceResponse(a.resource, a.model, name in clients, a.reply)
               && (stop == Answered <==> response.value.status == Success)) ==>
      && (response.None? ==> plan == Run(attempts, stop))
      && (response.Some? ==>
            && Names(attempts + [a]) == failed + [name]
            && c' == CountCalls(c0, attempts + [a], clients, now)
            && response.value == LastResponse(attempts + [a], clients)
            && (stop == Answered ==> plan == Run(attempts + [a], Answered))
            && (stop != Answered ==> Continues(plan, next, clients, reply, attempts + [a], failed + [name], call + 1, left')))
  {
    if Continues(plan, next, clients, reply, attempts, failed, call, left) && left == left' + 1 && next(failed) == f &&
       call == |attempts| && failed == Names(attempts) && c == CountCalls(c0, attempts, clients, now) &&
       (response.None? <==> f.None? || f.value.models == []) &&
       (response.None? ==> stop == (if f.None? then Exhausted else NoModel)) &&
       (response.Some? ==>
          && a == Attempt(f.value, f.value.models[0], reply(call)) && name == f.value.name
          && c' == CountCall(c, name, name in clients, a.reply, now)
          && response.value == ResourceResponse(a.resource, a.model, name in clients, a.reply)
          && (stop == Answered <==> response.value.status == Success))
    {
      FallbacksHalt(next, clients, failed, call, left, reply, attempts, plan);
      if response.Some? {
        FallbacksStep(next, clients, failed, call, left, reply, attempts, plan, f.value, a, name, left');
        assert (attempts + [a])[..|attempts|] == attempts;
        NamesSnoc(attempts, a);
      }
    }
  }

  /** The names of a list with one more call. */
  lemma NamesSnoc(s: seq<Attempt>, a: Attempt)
    ensures Names(s + [a]) == Names(s) + [a.resource.name]
  {
    assert |Names(s + [a])| == |Names(s) + [a.resource.name]|;
    forall i | 0 <= i < |s| + 1
      ensures Names(s + [a])[i] == (Names(s) + [a.resource.name])[i]
    {
    }
  }

  /** The plan as the fallback calls see it: after a failed primary call, or with no primary at all. */
  lemma PlanContinues(primary: Option<AzureResource>, next: seq<string> -> Option<AzureResource>, clients: set<string>, model: string, reply: nat -> Reply)
    ensures primary.Some? && !Succeeds(Attempt(primary.value, model, reply(0)), clients) ==>
      Continues(Plan(primary, next, clients, model, reply), next, clients, reply, [Attempt(primary.value, model, reply(0))], [primary.value.name], 1, 2)
    ensures primary.None? ==> Continues(Plan(primary, next, clients, model, reply), next, clients, reply, [], [], 0, 2)
  {
    assert [] + Fallbacks(next, clients, [], 0, 2, reply).attempts == Fallbacks(next, clients, [], 0, 2, reply).attempts;
  }

  // ---------------------------------------------------------------------------
  // The adapter
  // ---------------------------------------------------------------------------

  /** The error `execute` returns when every attempt failed. */
  function AllFailed(failedCount: nat): (r: Response)
    ensures r.status == Error && r.error.Some? && r.costUsd == 0.0 && r.modelUsed == None
  {
    ErrorResponse("All Azure OpenAI resources failed after " + Show(failedCount) + " attempts", Error, 0, None)
  }

  /** The model `execute` asks for when neither the constructor nor the environment names one. */
  const DefaultModel := "gpt-4o"

  /**
   * What `execute` calls once its breaker and enabled checks pass, as
   * written; `None` stands for an exception raised before any call is
   * counted. Without a context model, the failover runs for the preferred
   * model. A context model is taken as the primary's model, but the whole
   * context is also forwarded as keyword arguments beside the positional
   * `model` of `_execute_with_resource`, so the first call to a primary
   * or a fallback raises TypeError (or IndexError on a fallback with no
   * model) before its body runs; only an empty resource list reaches the
   * all-failed return without a call.
   */
  function ExecuteRun(resources: seq<AzureResource>, clients: set<string>, preferredModel: string, contextModel: Option<string>,
                      reply: nat -> Reply): (r: Option<Run>)
    ensures contextModel.None? ==> r == Some(ExecutePlan(resources, clients, preferredModel, reply))
    ensures contextModel.Some? ==> (r.None? <==> resources != []) && (r.Some? ==> r.value == Run([], Exhausted))
  {
    match contextModel
    case None => Some(ExecutePlan(resources, clients, preferredModel, reply))
    case Some(m) =>
      SelectFallbackSpec(resources, []);
      if ResourceForModel(resources, m).Some? || SelectFallback(resources, []).Some? then None
      else Some(Run([], Exhausted))
  }

  /**
   * The keyword clash: on the default resources, with every client created
   * and every call completing, a context model equal to the preferred one
   * makes `execute` raise, while the failover run for that model (what
   * `Failover` makes) answers at once from the primary with that model.
   */
  lemma ContextModelClash()
    ensures var clients := set x | x in DefaultResources() :: x.name;
      var reply := (i: nat) => Completed(120, 10, 20);
      var intended := ExecutePlan(DefaultResources(), clients, DefaultModel, reply);
      && ExecuteRun(DefaultResources(), clients, DefaultModel, Some(DefaultModel), reply).None?
      && ExecuteRun(DefaultResources(), clients, DefaultModel, None, reply) == Some(intended)
      && intended.stop == Answered && |intended.attempts| == 1 && intended.attempts[0].model == DefaultModel
  {
    var resources := DefaultResources();
    var clients := set x | x in resources :: x.name;
    var reply := (i: nat) => Completed(120, 10, 20);
    assert DefaultModel in resources[0].models;
    ResourceForModelSpec(resources, DefaultModel);
    var p := ResourceForModel(resources, DefaultModel).value;
    assert p.name in clients;
    assert Succeeds(Attempt(p, DefaultModel, reply(0)), clients);
  }

  /** `AzureOpenAIAdapter`. */
  class AzureOpenAIAdapter {
    const resources: seq<AzureResource>
    /** The names of the resources whose client was created. */
    const clients: set<string>
    const preferredModel: string
    /** Whether `az account show` succeeds; an oracle of `check_availability`. */
    const cliAuthenticated: bool
    var health: Health
    var counters: Counters

    ghost predicate Valid()
      reads this
    {
      forall n :: n in clients ==> n in counters.success && n in counters.failure
    }

    /**
     * The constructor: the given resources (the defaults when none), a
     * client and zeroed counters for every resource whose client could be
     * created (`created`), and no clients at all, adapter disabled, when
     * authentication failed.
     */
    constructor(resources: seq<AzureResource>, preferredModel: string, envModel: Option<string>, authenticated: bool, created: set<string>,
                cliAuthenticated: bool, threshold: int, cooldownSeconds: real, minSuccessRate: real)
      ensures Valid()
      ensures this.preferredModel == (if preferredModel != "" then preferredModel else envModel.GetOr(DefaultModel))
      ensures this.cliAuthenticated == cliAuthenticated
      ensures this.resources == (if resources == [] then DefaultResources() else resources)
      ensures clients == (if authenticated then set r | r in this.resources && r.name in created :: r.name else {})
      ensures health == NewHealth(authenticated, threshold, cooldownSeconds, minSuccessRate)
      ensures forall n :: n in clients ==> counters.success[n] == 0 && counters.failure[n] == 0
    {
      var configured := if resources == [] then DefaultResources() else resources;
      var names := if authenticated then set r | r in configured && r.name in created :: r.name else {};
      this.resources := configured;
      this.preferredModel := if preferredModel != "" then preferredModel else envModel.GetOr(DefaultModel);
      this.cliAuthenticated := cliAuthenticated;
      clients := names;
      health := NewHealth(authenticated, threshold, cooldownSeconds, minSuccessRate);
      counters := Counters(map n | n in names :: 0, map n | n in names :: 0, map n | n in names :: 0.0);
    }

    /** `_execute_with_resource`: one call, counted against the resource. */
    method ExecuteWithResource(resource: AzureResource, model: string, reply: Reply, now: real) returns (response: Response)
      requires Valid()
      modifies this`counters
      ensures Valid()
      ensures counters == CountCall(old(counters), resource.name, resource.name in clients, reply, now)
      ensures response == ResourceResponse(resource, model, resource.name in clients, reply)
    {
      if resource.name !in clients {
        return ErrorResponse("No client initialized for " + resource.name, Error, 0, Some(model));
      }
      match reply {
        case Completed(latency, tokensIn, tokensOut) =>
          counters := counters.(success := counters.success[resource.name := counters.success[resource.name] + 1],
                                lastUsed := counters.lastUsed[resource.name := now]);
          response := Response(Success, None, latency, 0.0, Some(model), tokensIn, tokensOut);
        case RateLimitError(latency, message) =>
          counters := counters.(failure := counters.failure[resource.name := counters.failure[resource.name] + 1]);
          response := ErrorResponse("Rate limit on " + resource.name + ": " + message, RateLimited, latency, Some(model));
        case ApiError(latency, message) =>
          counters := counters.(failure := counters.failure[resource.name := counters.failure[resource.name] + 1]);
          response := ErrorResponse("API error on " + resource.name + ": " + message, Error, latency, Some(model));
        case OtherError(latency, message) =>
          counters := counters.(failure := counters.failure[resource.name := counters.failure[resource.name] + 1]);
          response := ErrorResponse("Unexpected error on " + resource.name + ": " + message, Error, latency, Some(model));
      }
    }

    /**
     * The calling part of `execute`: the calls follow `ExecutePlan`, each is
     * counted against its resource, and the adapter records one success (the
     * answered call's latency and cost) or one failure.
     */
    method Failover(model: string, reply: nat -> Reply, now: real) returns (outcome: Outcome, ghost attempts: seq<Attempt>)
      requires Valid()
      modifies this`health, this`counters
      ensures Valid()
      ensures var run := ExecutePlan(resources, clients, model, reply);
        && attempts == run.attempts
        && counters == CountCalls(old(counters), attempts, clients, now)
        && (run.stop == Answered ==> attempts != [] && outcome == Returned(LastResponse(attempts, clients)))
        && (run.stop == Answered ==>
              attempts != [] && health == RecordSuccess(old(health), LastResponse(attempts, clients).latencyMs as real, LastResponse(attempts, clients).costUsd))
        && (run.stop == Exhausted ==> outcome == Returned(AllFailed(|attempts|)) && health == RecordFailure(old(health), now))
        && (run.stop == NoModel ==> outcome == Raised && health == old(health))
    {
      ghost var counters0 := counters;
      ghost var next := Chooser(resources);
      var stop: Stop, response: Option<Response>, tried: nat;
      var primary := ResourceForModel(resources, model);
      ghost var plan := Plan(primary, next, clients, model, reply);
      assert plan == ExecutePlan(resources, clients, model, reply);
      PlanContinues(primary, next, clients, model, reply);
      if primary.Some? {
        var result := ExecuteWithResource(primary.value, model, reply(0), now);
        ghost var first := [Attempt(primary.value, model, reply(0))];
        assert first[..0] == [];
        if result.status == Success {
          health := RecordSuccess(health, result.latencyMs as real, result.costUsd);
          return Returned(result), first;
        }
        stop, response, tried, attempts := FallbackCalls(reply, now, first, 1, [primary.value.name], plan, counters0, next);
      } else {
        stop, response, tried, attempts := FallbackCalls(reply, now, [], 0, [], plan, counters0, next);
      }
      match stop {
        case Answered =>
          health := RecordSuccess(health, response.value.latencyMs as real, response.value.costUsd);
          outcome := Returned(response.value);
        case NoModel =>
          outcome := Raised;
        case Exhausted =>
          health := RecordFailure(health, now);
          outcome := Returned(AllFailed(tried));
      }
    }

    /**
     * The `while attempt < max_attempts` loop of `execute`, after the calls
     * `before` (whose resource names `failed` lists): it makes the calls
     * that remain of `plan`, and reports how the plan ended, the answering
     * response, and the number of failed resources.
     */
    method FallbackCalls(reply: nat -> Reply, now: real, ghost before: seq<Attempt>, call: nat, failed: seq<string>, ghost plan: Run, ghost counters0: Counters,
                         ghost next: seq<string> -> Option<AzureResource>)
      returns (stop: Stop, response: Option<Response>, tried: nat, ghost attempts: seq<Attempt>)
      requires Valid() && call == |before| <= 1 && failed == Names(before)
      requires forall n :: n in clients ==> n in counters0.success && n in counters0.failure
      requires counters == CountCalls(counters0, before, clients, now)
      requires forall f {:trigger SelectFallback(resources, f)} :: next(f) == SelectFallback(resources, f)
      requires Continues(plan, next, clients, reply, before, failed, call, 2)
      modifies this`counters
      ensures Valid()
      ensures attempts == plan.attempts && stop == plan.stop && tried == |attempts|
      ensures counters == CountCalls(counters0, attempts, clients, now)
      ensures stop == Answered ==> attempts != [] && response == Some(LastResponse(attempts, clients))
    {
      attempts := before;
      response := None;
      var failed := failed;
      var call := call;
      var maxAttempts := 3;
      var attempt := 1;
      while attempt < maxAttempts
        invariant 1 <= attempt <= maxAttempts
        invariant call == |attempts| && failed == Names(attempts)
        invariant Valid()
        invariant counters == CountCalls(counters0, attempts, clients, now)
        invariant Continues(plan, next, clients, reply, attempts, failed, call, maxAttempts - attempt)
      {
        assert next(failed) == SelectFallback(resources, failed);
        ghost var c := counters;
        var status, result, name, a := FallbackCall(reply, now, call, failed);
        FallbackTurn(next, clients, reply, now, plan, attempts, failed, call, maxAttempts - attempt, maxAttempts - (attempt + 1),
                     counters0, c, counters, SelectFallback(resources, failed), status, result, name, a);
        if result.None? {
          if status == NoModel {
            return NoModel, result, |failed|, attempts;
          }
          break;
        }
        attempts := attempts + [a];
        call := call + 1;
        if status == Answered {
          return Answered, result, |failed| + 1, attempts;
        }
        failed := failed + [name];
        attempt := attempt + 1;
      }
      FallbacksHalt(next, clients, failed, call, maxAttempts - attempt, reply, attempts, plan);
      stop, tried := Exhausted, |failed|;
    }

    /**
     * One turn of `execute`'s fallback loop: pick the untried resource of
     * lowest priority and call it with its first model. Without such a
     * resource (`Exhausted`), or when it lists no model (`NoModel`), no call
     * is made; otherwise `a` is the call made, and `stop` says whether it
     * answered.
     */
    method FallbackCall(reply: nat -> Reply, now: real, call: nat, failed: seq<string>)
      returns (stop: Stop, response: Option<Response>, name: string, ghost a: Attempt)
      requires Valid()
      modifies this`counters
      ensures Valid()
      ensures var f := SelectFallback(resources, failed);
        && (response.None? <==> f.None? || f.value.models == [])
        && (response.None? ==> stop == (if f.None? then Exhausted else NoModel) && counters == old(counters))
        && (response.Some? ==>
              && a == Attempt(f.value, f.value.models[0], reply(call)) && name == f.value.name
              && counters == CountCall(old(counters), name, name in clients, a.reply, now)
              && response.value == ResourceResponse(a.resource, a.model, name in clients, a.reply)
              && (stop == Answered <==> response.value.status == Success))
    {
      var fallback := SelectFallback(resources, failed);
      if fallback.None? {
        return Exhausted, None, "", Attempt(AzureResource("", "", "", [], 0), "", reply(call));
      }
      if fallback.value.models == [] {
        return NoModel, None, "", Attempt(fallback.value, "", reply(call));
      }
      var fallbackModel := fallback.value.models[0];
      var result := ExecuteWithResource(fallback.value, fallbackModel, reply(call), now);
      a, name := Attempt(fallback.value, fallbackModel, reply(call)), fallback.value.name;
      stop, response := if result.status == Success then Answered else Exhausted, Some(result);
    }

    /**
     * `execute`: the breaker (which may close after its cooldown) and then
     * the enabled flag are checked before any call; past them the calls are
     * those of `ExecuteRun`: the failover for the preferred model as
     * `Failover` states, or, with a context model, an exception before any
     * call (or, without resources, the all-failed return).
     */
    method Execute(contextModel: Option<string>, reply: nat -> Reply, now: real) returns (outcome: Outcome, ghost attempts: seq<Attempt>)
      requires Valid()
      modifies this`health, this`counters
      ensures Valid()
      ensures var open := CheckBreaker(old(health), now).0;
        var checked := CheckBreaker(old(health), now).1;
        if open then
          && outcome == Returned(ErrorResponse("Circuit breaker open (too many failures)", Error, 0, None))
          && attempts == [] && health == checked && counters == old(counters)
        else if !checked.enabled then
          && outcome == Returned(ErrorResponse("Adapter is disabled", Error, 0, None))
          && attempts == [] && health == checked && counters == old(counters)
        else if ExecuteRun(resources, clients, preferredModel, contextModel, reply).None? then
          && outcome == Raised && attempts == [] && health == checked && counters == old(counters)
        else
          var run := ExecuteRun(resources, clients, preferredModel, contextModel, reply).value;
          && attempts == run.attempts
          && counters == CountCalls(old(counters), attempts, clients, now)
          && (run.stop == Answered ==> attempts != [] && outcome == Returned(LastResponse(attempts, clients)))
          && (run.stop == Answered ==>
                attempts != [] && health == RecordSuccess(checked, LastResponse(attempts, clients).latencyMs as real, LastResponse(attempts, clients).costUsd))
          && (run.stop == Exhausted ==> outcome == Returned(AllFailed(|attempts|)) && health == RecordFailure(checked, now))
          && (run.stop == NoModel ==> outcome == Raised && health == checked)
    {
      var open := CheckBreaker(health, now).0;
      health := CheckBreaker(health, now).1;
      if open {
        return Returned(ErrorResponse("Circuit breaker open (too many failures)", Error, 0, None)), [];
      }
      if !health.enabled {
        return Returned(ErrorResponse("Adapter is disabled", Error, 0, None)), [];
      }
      match contextModel {
        case None =>
          outcome, attempts := Failover(preferredModel, reply, now);
        case Some(model) =>
          // `model` is passed both by position and in the forwarded context
          if ResourceForModel(resources, model).Some? || SelectFallback(resources, []).Some? {
            return Raised, [];
          }
          health := RecordFailure(health, now);
          outcome, attempts := Returned(AllFailed(0)), [];
      }
    }

    /** `check_availability`: CLI authentication, then the breaker (which may close), then at least one client. */
    method CheckAvailability(now: real) returns (available: bool)
      modifies this`health
      ensures health == (if cliAuthenticated then CheckBreaker(old(health), now).1 else old(health))
      ensures available <==> cliAuthenticated && !CheckBreaker(old(health), now).0 && clients != {}
    {
      if !cliAuthenticated {
        return false;
      }
      var open := CheckBreaker(health, now).0;
      health := CheckBreaker(health, now).1;
      if open {
        return false;
      }
      available := clients != {};
    }
  }
}
