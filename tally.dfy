/**
 * Breakdown tables as the source builds them: a Python dict (which keeps
 * keys in first-insertion order) whose value per key counts requests and
 * sums cost and tokens, filled one record at a time in a `for` loop.
 */
module Tally {
  import opened Common

  /** One key of an insertion-ordered dict and its value. */
  datatype Entry<V> = Entry(key: string, value: V)

  /** The value of a breakdown row: `{"requests": n, "cost": c, "tokens": t}`. */
  datatype Bucket = Bucket(requests: nat, cost: real, tokens: int)

  /** What one record contributes to a breakdown: its key, its cost, its tokens. */
  datatype Item = Item(key: string, cost: real, tokens: int)

  /** The set of keys of a dict. */
  function KeySet<V>(d: seq<Entry<V>>): set<string> {
    if d == [] then {} else {d[0].key} + KeySet(d[1..])
  }

  /** The key of every row is among the dict's keys. */
  lemma {:induction false} KeyAtIn<V>(d: seq<Entry<V>>, j: int)
    requires 0 <= j < |d|
    ensures d[j].key in KeySet(d)
  {
    if j > 0 {
      KeyAtIn(d[1..], j - 1);
    }
  }

  /** No key appears twice (what a Python dict guarantees). */
  predicate DistinctKeys<V>(d: seq<Entry<V>>) {
    d == [] || (d[0].key !in KeySet(d[1..]) && DistinctKeys(d[1..]))
  }

  /**
   * `d[k]["requests"] += 1; d[k]["cost"] += c; d[k]["tokens"] += t` on a
   * dict whose missing keys start at zero (a `defaultdict`, or the explicit
   * "if key not in d: d[key] = {...}" initialisation): an existing key is
   * updated where it stands, a new key is appended at the end.
   */
  function Add(d: seq<Entry<Bucket>>, it: Item): (r: seq<Entry<Bucket>>)
    ensures KeySet(r) == KeySet(d) + {it.key}
    ensures |r| == if it.key in KeySet(d) then |d| else |d| + 1
  {
    if d == [] then [Entry(it.key, Bucket(1, it.cost, it.tokens))]
    else if d[0].key == it.key then
      var r := [Entry(it.key, Bucket(d[0].value.requests + 1, d[0].value.cost + it.cost, d[0].value.tokens + it.tokens))] + d[1..];
      assert r[1..] == d[1..];
      r
    else
      var r := [d[0]] + Add(d[1..], it);
      assert r[1..] == Add(d[1..], it);
      r
  }

  /** The whole `for` loop: every item added in order, starting from an empty dict. */
  function TallyAll(items: seq<Item>): seq<Entry<Bucket>> {
    if items == [] then [] else Add(TallyAll(items[..|items| - 1]), items[|items| - 1])
  }

  /** Sum of the request counts over all rows. */
  function Requests(d: seq<Entry<Bucket>>): int {
    if d == [] then 0 else d[0].value.requests + Requests(d[1..])
  }

  /** Sum of the costs over all rows. */
  function Cost(d: seq<Entry<Bucket>>): real {
    if d == [] then 0.0 else d[0].value.cost + Cost(d[1..])
  }

  /** Sum of the tokens over all rows. */
  function Tokens(d: seq<Entry<Bucket>>): int {
    if d == [] then 0 else d[0].value.tokens + Tokens(d[1..])
  }

  /** Request count filed under key `k` (0 when the key is absent). */
  function RequestsFor(d: seq<Entry<Bucket>>, k: string): int {
    if d == [] then 0 else (if d[0].key == k then d[0].value.requests else 0) + RequestsFor(d[1..], k)
  }

  /** Cost filed under key `k` (0 when the key is absent). */
  function CostFor(d: seq<Entry<Bucket>>, k: string): real {
    if d == [] then 0.0 else (if d[0].key == k then d[0].value.cost else 0.0) + CostFor(d[1..], k)
  }

  /** Sum of the items' costs. */
  function ItemCost(items: seq<Item>): real {
    if items == [] then 0.0 else ItemCost(items[..|items| - 1]) + items[|items| - 1].cost
  }

  /** Sum of the items' tokens. */
  function ItemTokens(items: seq<Item>): int {
    if items == [] then 0 else ItemTokens(items[..|items| - 1]) + items[|items| - 1].tokens
  }

  /** Number of items filed under key `k`. */
  function CountOf(items: seq<Item>, k: string): nat {
    if items == [] then 0 else CountOf(items[..|items| - 1], k) + (if items[|items| - 1].key == k then 1 else 0)
  }

  /** Cost of the items filed under key `k`. */
  function CostOf(items: seq<Item>, k: string): real {
    if items == [] then 0.0 else CostOf(items[..|items| - 1], k) + (if items[|items| - 1].key == k then items[|items| - 1].cost else 0.0)
  }

  /** Adding one item adds exactly one request, its cost and its tokens to the totals. */
  lemma {:induction false} AddTotals(d: seq<Entry<Bucket>>, it: Item)
    ensures Requests(Add(d, it)) == Requests(d) + 1
    ensures Cost(Add(d, it)) == Cost(d) + it.cost
    ensures Tokens(Add(d, it)) == Tokens(d) + it.tokens
  {
    if d != [] && d[0].key != it.key {
      AddTotals(d[1..], it);
      assert Add(d, it)[1..] == Add(d[1..], it);
    } else if d != [] {
      assert Add(d, it)[1..] == d[1..];
    }
  }

  /** Adding one item changes only the row of its own key, by one request and its cost. */
  lemma {:induction false} AddKeyed(d: seq<Entry<Bucket>>, it: Item, k: string)
    ensures RequestsFor(Add(d, it), k) == RequestsFor(d, k) + (if it.key == k then 1 else 0)
    ensures CostFor(Add(d, it), k) == CostFor(d, k) + (if it.key == k then it.cost else 0.0)
  {
    if d != [] && d[0].key != it.key {
      AddKeyed(d[1..], it, k);
      assert Add(d, it)[1..] == Add(d[1..], it);
    } else if d != [] {
      assert Add(d, it)[1..] == d[1..];
    }
  }

  /** Adding to a dict with distinct keys keeps its keys distinct. */
  lemma {:induction false} AddDistinct(d: seq<Entry<Bucket>>, it: Item)
    requires DistinctKeys(d)
    ensures DistinctKeys(Add(d, it))
  {
    if d != [] && d[0].key != it.key {
      AddDistinct(d[1..], it);
      assert Add(d, it)[1..] == Add(d[1..], it);
    } else if d != [] {
      assert Add(d, it)[1..] == d[1..];
    }
  }

  /** The totals of a finished tally: one request per item, every cost and every token counted once. */
  lemma {:induction false} TallyTotals(items: seq<Item>)
    ensures Requests(TallyAll(items)) == |items|
    ensures Cost(TallyAll(items)) == ItemCost(items)
    ensures Tokens(TallyAll(items)) == ItemTokens(items)
    ensures DistinctKeys(TallyAll(items))
  {
    if items != [] {
      var front := items[..|items| - 1];
      TallyTotals(front);
      AddTotals(TallyAll(front), items[|items| - 1]);
      AddDistinct(TallyAll(front), items[|items| - 1]);
    }
  }

  /** The row of key `k` in a finished tally counts exactly the items with key `k` and sums their cost. */
  lemma {:induction false} TallyKeyed(items: seq<Item>, k: string)
    ensures RequestsFor(TallyAll(items), k) == CountOf(items, k)
    ensures CostFor(TallyAll(items), k) == CostOf(items, k)
    ensures k in KeySet(TallyAll(items)) <==> CountOf(items, k) > 0
  {
    if items != [] {
      var front := items[..|items| - 1];
      TallyKeyed(front, k);
      AddKeyed(TallyAll(front), items[|items| - 1], k);
    }
  }

  /** Project a tally onto its request counts: `{key: n}` (the shape of `errors_by_type`). */
  function Counts(d: seq<Entry<Bucket>>): (r: seq<Entry<nat>>)
    ensures |r| == |d|
    ensures forall i :: 0 <= i < |d| ==> r[i] == Entry(d[i].key, d[i].value.requests)
  {
    seq(|d|, i requires 0 <= i < |d| => Entry(d[i].key, d[i].value.requests))
  }
}
