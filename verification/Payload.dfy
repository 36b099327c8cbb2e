/** ctl/queue.py `_split_payload`: round-robin sharding of a job's task list. */
module Payload {
  import opened Contracts
  import opened Numbers

  /** A payload value: a list that may be sharded, or anything else. */
  datatype Value = List(items: seq<int>) | Other(tag: int)

  type Payload = map<string, Value>

  predicate Shardable(payload: Payload, key: string) {
    key in payload && payload[key].List? && payload[key].items != []
  }

  /** The first of "tasks", "items" that holds a non-empty list. */
  function ShardKey(payload: Payload): (r: Option<string>)
    ensures r == Some("tasks") <==> exists t :: "tasks" in payload && payload["tasks"] == List(t) && t != []
    ensures r != Some("tasks") ==>
              (r == Some("items") <==> exists t :: "items" in payload && payload["items"] == List(t) && t != [])
    ensures r.Some? ==> (r.value == "tasks" || r.value == "items") && Shardable(payload, r.value)
  {
    if Shardable(payload, "tasks") then Some("tasks")
    else if Shardable(payload, "items") then Some("items")
    else None
  }

  /** Every n-th element of `values` from position `k` on. */
  function Stride(values: seq<int>, n: nat, k: nat): seq<int>
    requires n > 0
    decreases |values| - k
  {
    if k >= |values| then [] else [values[k]] + Stride(values, n, k + n)
  }

  function ShardCount(payload: Payload, fanout: nat): nat {
    match ShardKey(payload)
    case Some(key) => Min(fanout, |payload[key].items|)
    case None => fanout
  }

  /** The shards of a job: the payload with its list cut down to one residue class each. */
  function Shards(payload: Payload, fanout: nat): (r: seq<Payload>)
    requires fanout > 0
    ensures |r| == ShardCount(payload, fanout) && |r| > 0
  {
    match ShardKey(payload)
    case Some(key) =>
      var n := Min(fanout, |payload[key].items|);
      seq(n, k requires 0 <= k < n => payload[key := List(Stride(payload[key].items, n, k))])
    case None => seq(fanout, k => payload)
  }

  /** `chunks[index % n].append(value)` in a loop deals exactly these shards. */
  method SplitPayload(payload: Payload, fanout: nat) returns (r: seq<Payload>)
    requires fanout > 0
    ensures r == Shards(payload, fanout)
  {
    var key := ShardKey(payload);
    if key.None? {
      return seq(fanout, k => payload);
    }
    var values := payload[key.value].items;
    var n := Min(fanout, |values|);
    var chunks: seq<seq<int>> := seq(n, k => []);
    for index := 0 to |values|
      invariant |chunks| == n
      invariant forall k :: 0 <= k < n ==> chunks[k] == Stride(values[..index], n, k)
    {
      forall k | 0 <= k < n
        ensures Stride(values[..index + 1], n, k)
             == Stride(values[..index], n, k) + (if index % n == k then [values[index]] else [])
      {
        assert values[..index + 1] == values[..index] + [values[index]];
        StrideAppend(values[..index], values[index], n, k);
        Residue(index, n, k);
      }
      chunks := chunks[index % n := chunks[index % n] + [values[index]]];
    }
    assert values[..|values|] == values;
    r := seq(n, k requires 0 <= k < n => payload[key.value := List(chunks[k])]);
  }

  /** Quotient and remainder are unique. */
  lemma {:induction false} DivUnique(m: int, n: int, q: int, k: int)
    requires 0 <= k < n && m == q * n + k
    ensures m / n == q && m % n == k
  {
    var p, r := m / n, m % n;
    assert m == p * n + r;
    Gap(p, q, n);
    Gap(q, p, n);
  }

  lemma {:induction false} Gap(p: int, q: int, n: int)
    requires n > 0
    ensures p > q ==> p * n >= q * n + n
  {
    if p > q {
      var d := p - q - 1;
      NonNegativeProduct(d, n);
      Expand(q, d, n);
    }
  }

  lemma {:induction false} Expand(q: int, d: int, n: int)
    ensures (q + d + 1) * n == q * n + d * n + n
  {
  }

  lemma {:induction false} Residue(m: nat, n: nat, k: nat)
    requires k < n
    ensures k <= m && (m - k) % n == 0 <==> m % n == k
  {
    var q := m / n;
    assert m == q * n + m % n;
    assert q * n >= 0;
    if m % n == k {
      DivUnique(m - k, n, q, 0);
    }
    if k <= m && (m - k) % n == 0 {
      var p := (m - k) / n;
      assert m - k == p * n;
      DivUnique(m, n, p, k);
    }
  }

  predicate Due(size: nat, n: nat, k: nat)
    requires n > 0
  {
    k <= size && (size - k) % n == 0
  }

  lemma {:induction false} DueStep(size: nat, n: nat, k: nat)
    requires n > 0 && k < size
    ensures Due(size, n, k) <==> Due(size, n, k + n)
  {
    var a := size - k;
    var q, r := a / n, a % n;
    assert a == q * n + r;
    if k + n <= size {
      assert a - n == (q - 1) * n + r;
      DivUnique(a - n, n, q - 1, r);
    } else {
      DivUnique(a, n, 0, a);
    }
  }

  lemma {:induction false} StrideCons(values: seq<int>, x: int, n: nat, k: nat, tail: seq<int>)
    requires n > 0 && k < |values| && Stride(values + [x], n, k + n) == Stride(values, n, k + n) + tail
    ensures Stride(values + [x], n, k) == Stride(values, n, k) + tail
  {
    assert (values + [x])[k] == values[k];
  }

  lemma {:induction false} StrideLast(values: seq<int>, x: int, n: nat)
    requires n > 0
    ensures Stride(values + [x], n, |values|) == [x] && Stride(values, n, |values|) == []
  {
    assert Stride(values + [x], n, |values| + n) == [];
  }

  lemma {:induction false} StrideAppend(values: seq<int>, x: int, n: nat, k: nat)
    requires n > 0
    ensures Stride(values + [x], n, k) == Stride(values, n, k) + (if Due(|values|, n, k) then [x] else [])
    decreases |values| + 1 - k
  {
    if k < |values| {
      StrideAppend(values, x, n, k + n);
      DueStep(|values|, n, k);
      StrideCons(values, x, n, k, if Due(|values|, n, k) then [x] else []);
    } else if k == |values| {
      StrideLast(values, x, n);
    }
  }

  /** The i-th entry of a stride is the entry `i` strides further on. */
  lemma {:induction false} StrideAt(values: seq<int>, n: nat, k: nat, i: nat)
    requires n > 0
    ensures i < |Stride(values, n, k)| <==> k + i * n < |values|
    ensures i < |Stride(values, n, k)| ==> Stride(values, n, k)[i] == values[k + i * n]
    decreases i
  {
    assert i * n >= 0;
    if k < |values| && i > 0 {
      StrideAt(values, n, k + n, i - 1);
      assert k + n + (i - 1) * n == k + i * n;
    }
  }

  /** Deal the shards' lists back, one item from each in turn. */
  function Interleave(chunks: seq<seq<int>>, total: nat): seq<int>
    requires |chunks| > 0
    requires forall m :: 0 <= m < total ==> m / |chunks| < |chunks[m % |chunks|]|
  {
    seq(total, m requires 0 <= m < total => chunks[m % |chunks|][m / |chunks|])
  }

  function ListsOf(shards: seq<Payload>, key: string): seq<seq<int>>
    requires forall k :: 0 <= k < |shards| ==> key in shards[k] && shards[k][key].List?
  {
    seq(|shards|, k requires 0 <= k < |shards| => shards[k][key].items)
  }

  /** Each shard is the payload with only its list changed, the lists deal back to the original
      task list, none is empty, and their sizes differ by at most one. */
  lemma {:induction false} ShardsCoverTasks(payload: Payload, fanout: nat)
    requires fanout > 0 && ShardKey(payload).Some?
    ensures var key, shards := ShardKey(payload).value, Shards(payload, fanout);
            var values := payload[key].items;
            && |shards| == (if fanout < |values| then fanout else |values|)
            && (forall k :: 0 <= k < |shards| ==> key in shards[k] && shards[k][key].List?)
            && (forall k :: 0 <= k < |shards| ==> shards[k] - {key} == payload - {key})
            && (forall m :: 0 <= m < |values| ==> m / |shards| < |ListsOf(shards, key)[m % |shards|]|)
            && Interleave(ListsOf(shards, key), |values|) == values
    ensures var lists := ListsOf(Shards(payload, fanout), ShardKey(payload).value);
            && (forall k :: 0 <= k < |lists| ==> lists[k] != [])
            && (forall k, l :: 0 <= k < |lists| && 0 <= l < |lists| ==> |lists[k]| <= |lists[l]| + 1)
  {
    var key, shards := ShardKey(payload).value, Shards(payload, fanout);
    var values, n := payload[key].items, |shards|;
    var lists := ListsOf(shards, key);
    assert Strided(values, lists);
    StridedDealBack(values, lists);
    StridedBalanced(values, lists);
  }

  ghost predicate Strided(values: seq<int>, lists: seq<seq<int>>) {
    0 < |lists| <= |values| && forall k :: 0 <= k < |lists| ==> lists[k] == Stride(values, |lists|, k)
  }

  lemma {:induction false} StridedDealBack(values: seq<int>, lists: seq<seq<int>>)
    requires Strided(values, lists)
    ensures forall m :: 0 <= m < |values| ==> m / |lists| < |lists[m % |lists|]|
    ensures Interleave(lists, |values|) == values
  {
    var n := |lists|;
    forall m | 0 <= m < |values| ensures m / n < |lists[m % n]| && lists[m % n][m / n] == values[m] {
      DealtBack(values, n, m);
    }
  }

  lemma {:induction false} StridedBalanced(values: seq<int>, lists: seq<seq<int>>)
    requires Strided(values, lists)
    ensures forall k :: 0 <= k < |lists| ==> lists[k] != []
    ensures forall k, l :: 0 <= k < |lists| && 0 <= l < |lists| ==> |lists[k]| <= |lists[l]| + 1
  {
    var n := |lists|;
    forall k | 0 <= k < n ensures lists[k] != [] { StrideAt(values, n, k, 0); }
    forall k, l | 0 <= k < n && 0 <= l < n ensures |lists[k]| <= |lists[l]| + 1 {
      StrideSizes(values, n, k, l);
    }
  }

  /** Without a list to share out, every shard is the whole payload, once per node asked for. */
  lemma {:induction false} WholeShards(payload: Payload, fanout: nat)
    requires fanout > 0 && ShardKey(payload).None?
    ensures |Shards(payload, fanout)| == fanout && forall k :: 0 <= k < fanout ==> Shards(payload, fanout)[k] == payload
  {
  }

  lemma {:induction false} DealtBack(values: seq<int>, n: nat, m: nat)
    requires n > 0 && m < |values|
    ensures m / n < |Stride(values, n, m % n)| && Stride(values, n, m % n)[m / n] == values[m]
  {
    StrideAt(values, n, m % n, m / n);
    assert m == m % n + m / n * n;
  }

  lemma {:induction false} StrideSizes(values: seq<int>, n: nat, k: nat, l: nat)
    requires k < n && l < n
    ensures |Stride(values, n, k)| <= |Stride(values, n, l)| + 1
  {
    var i := |Stride(values, n, l)|;
    StrideAt(values, n, l, i);
    StrideAt(values, n, k, i + 1);
    assert (i + 1) * n == i * n + n;
  }
}
