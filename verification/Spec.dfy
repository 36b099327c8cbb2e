/** infer/spec.py and infer/memory.py: from the model ladder to the scheduler's model_spec. */
module Spec {
  import opened Contracts
  import opened Cost
  import opened Numbers
  import Plan

  const BYTES_PER_MIB: int := 1048576

  datatype KVGeometry = KVGeometry(
    layers: int, kvHeads: int, headDim: int, dtypeBytes: int, fullAttentionLayers: Option<int>)
  {
    /** What `__post_init__` enforces. */
    predicate Valid() {
      && layers > 0 && kvHeads > 0 && headDim > 0 && dtypeBytes > 0
      && (fullAttentionLayers.Some? ==> 0 < fullAttentionLayers.value <= layers)
    }

    /** Sliding-window layers hold a fixed window, so only these scale with context. */
    function CachedLayers(): (n: int)
      requires Valid()
      ensures 0 < n <= layers
    {
      match fullAttentionLayers case Some(n) => n case None => layers
    }
  }

  /** The product of a list, from the left. */
  function Product(factors: seq<int>): int {
    if factors == [] then 1 else Product(factors[..|factors| - 1]) * factors[|factors| - 1]
  }

  /** The factors of the cache's size in bytes but for the slots. */
  function SlotFactors(g: KVGeometry, context: int): seq<int>
    requires g.Valid()
  {
    [2, g.kvHeads, g.headDim, g.dtypeBytes, g.CachedLayers(), context]
  }

  /** KV cache for `slots` sequences of `context` tokens. */
  function KvCacheMib(g: KVGeometry, context: int, slots: int): (mib: real)
    requires g.Valid() && context > 0 && slots > 0
    ensures mib > 0.0
  {
    ProductPositive(SlotFactors(g, context) + [slots]);
    Product(SlotFactors(g, context) + [slots]) as real / BYTES_PER_MIB as real
  }

  lemma {:induction false} ProductPositive(factors: seq<int>)
    requires forall k :: 0 <= k < |factors| ==> factors[k] > 0
    ensures Product(factors) > 0
  {
    if factors != [] {
      var n := |factors| - 1;
      ProductPositive(factors[..n]);
      PositiveProduct(Product(factors[..n]), factors[n]);
    }
  }

  lemma {:induction false} ProductSnoc(factors: seq<int>, x: int)
    ensures Product(factors + [x]) == Product(factors) * x
  {
    assert (factors + [x])[..|factors|] == factors;
  }

  /** The cache holds, for every cached layer, head, position and slot, a key and a value of `headDim`
      entries of `dtypeBytes` bytes each: all layers with full attention only, else those that have it. */
  lemma {:induction false} KvBytes(g: KVGeometry, context: int, slots: int)
    requires g.Valid() && context > 0 && slots > 0
    ensures var cached := if g.fullAttentionLayers.Some? then g.fullAttentionLayers.value else g.layers;
            KvCacheMib(g, context, slots) * 1048576.0
            == (2 * g.kvHeads * g.headDim * g.dtypeBytes * cached * context * slots) as real
  {
    SixFactors(2, g.kvHeads, g.headDim, g.dtypeBytes, g.CachedLayers(), context);
    ProductSnoc(SlotFactors(g, context), slots);
  }

  lemma {:induction false} SixFactors(a: int, b: int, c: int, d: int, e: int, f: int)
    ensures Product([a, b, c, d, e, f]) == a * b * c * d * e * f
  {
    FourFactors(a, b, c, d);
    ProductSnoc([a, b, c, d], e);
    ProductSnoc([a, b, c, d] + [e], f);
    assert [a, b, c, d] + [e] + [f] == [a, b, c, d, e, f];
  }

  lemma {:induction false} FourFactors(a: int, b: int, c: int, d: int)
    ensures Product([a, b, c, d]) == a * b * c * d
  {
    ProductSnoc([], a);
    ProductSnoc([] + [a], b);
    ProductSnoc([] + [a] + [b], c);
    ProductSnoc([] + [a] + [b] + [c], d);
    assert [] + [a] + [b] + [c] + [d] == [a, b, c, d];
  }

  lemma {:induction false} PositiveProduct(a: int, b: int)
    requires a > 0 && b > 0
    ensures a * b > 0
  {
  }

  /** Concurrency multiplies the cache: `slots` sequences cost `slots` times one. */
  lemma {:induction false} KvPerSlot(g: KVGeometry, context: int, slots: int)
    requires g.Valid() && context > 0 && slots > 0
    ensures KvCacheMib(g, context, slots) == slots as real * KvCacheMib(g, context, 1)
  {
    ProductSnoc(SlotFactors(g, context), slots);
    ProductSnoc(SlotFactors(g, context), 1);
    SlotTimes(Product(SlotFactors(g, context)), slots);
  }

  lemma {:induction false} SlotTimes(bytes: int, slots: int)
    ensures (bytes * slots) as real / BYTES_PER_MIB as real == slots as real * ((bytes * 1) as real / BYTES_PER_MIB as real)
  {
    assert (bytes * slots) as real == bytes as real * slots as real;
  }

  datatype LadderEntry = LadderEntry(key: string, role: string, totalLayers: int, weightsMib: real)

  datatype SpecError = BadRequest | UnknownModel | NoGeometry | NoLayerCount | LayerMismatch

  /** First entry whose key is `wanted`, else the first whose role is. */
  function Resolve(wanted: string, ladder: seq<LadderEntry>): (r: Option<LadderEntry>)
    ensures r.None? <==> forall e :: e in ladder ==> e.key != wanted && e.role != wanted
    ensures r.Some? && (exists e :: e in ladder && e.key == wanted) ==>
              exists i :: 0 <= i < |ladder| && ladder[i] == r.value && r.value.key == wanted
                          && forall j :: 0 <= j < i ==> ladder[j].key != wanted
    ensures r.Some? && (forall e :: e in ladder ==> e.key != wanted) ==>
              exists i :: 0 <= i < |ladder| && ladder[i] == r.value && r.value.role == wanted
                          && forall j :: 0 <= j < i ==> ladder[j].role != wanted
  {
    match FirstKey(wanted, ladder)
    case Some(e) => Some(e)
    case None => FirstRole(wanted, ladder)
  }

  function FirstKey(wanted: string, ladder: seq<LadderEntry>): (r: Option<LadderEntry>)
    ensures r.None? <==> forall e :: e in ladder ==> e.key != wanted
    ensures r.Some? ==>
              exists i :: 0 <= i < |ladder| && ladder[i] == r.value && r.value.key == wanted
                          && forall j :: 0 <= j < i ==> ladder[j].key != wanted
  {
    if ladder == [] then None
    else
      var n := |ladder| - 1;
      assert ladder == ladder[..n] + [ladder[n]];
      match FirstKey(wanted, ladder[..n])
      case Some(e) => Some(e)
      case None => if ladder[n].key == wanted then Some(ladder[n]) else None
  }

  function FirstRole(wanted: string, ladder: seq<LadderEntry>): (r: Option<LadderEntry>)
    ensures r.None? <==> forall e :: e in ladder ==> e.role != wanted
    ensures r.Some? ==>
              exists i :: 0 <= i < |ladder| && ladder[i] == r.value && r.value.role == wanted
                          && forall j :: 0 <= j < i ==> ladder[j].role != wanted
  {
    if ladder == [] then None
    else
      var n := |ladder| - 1;
      assert ladder == ladder[..n] + [ladder[n]];
      match FirstRole(wanted, ladder[..n])
      case Some(e) => Some(e)
      case None => if ladder[n].role == wanted then Some(ladder[n]) else None
  }

  function SchedulerSpec(wanted: string, context: int, slots: int,
                         ladder: seq<LadderEntry>, geometry: map<string, KVGeometry>): (r: Result<ModelSpec, SpecError>)
    requires forall k :: k in geometry ==> geometry[k].Valid()
    ensures r == Err(BadRequest) <==> context <= 0 || slots <= 0
    ensures r == Err(UnknownModel) <==>
              context > 0 && slots > 0 && forall e :: e in ladder ==> e.key != wanted && e.role != wanted
    ensures context > 0 && slots > 0 && Resolve(wanted, ladder).Some? ==>
              var e := Resolve(wanted, ladder).value;
              && (r == Err(NoGeometry) <==> e.key !in geometry)
              && (r == Err(NoLayerCount) <==> e.key in geometry && e.totalLayers <= 0)
              && (r == Err(LayerMismatch) <==>
                    e.key in geometry && e.totalLayers > 0 && geometry[e.key].layers != e.totalLayers)
    ensures r.Ok? ==>
              var e := Resolve(wanted, ladder).value;
              && e.key in geometry && e.totalLayers == geometry[e.key].layers == r.value.totalLayers > 0
              && r.value.modelId == e.key && r.value.fileSizeMb == e.weightsMib
  {
    if context <= 0 || slots <= 0 then Err(BadRequest)
    else match Resolve(wanted, ladder)
      case None => Err(UnknownModel)
      case Some(e) =>
        if e.key !in geometry then Err(NoGeometry)
        else if e.totalLayers <= 0 then Err(NoLayerCount)
        else if geometry[e.key].layers != e.totalLayers then Err(LayerMismatch)
        else
          var kv := KvCacheMib(geometry[e.key], context, slots);
          Ok(ModelSpec(e.key, e.totalLayers, e.weightsMib, kv / e.totalLayers as real))
  }

  /** The spec always satisfies what the planner needs: layers exist and each one costs memory. */
  lemma {:induction false} SpecIsPlannable(wanted: string, context: int, slots: int,
                        ladder: seq<LadderEntry>, geometry: map<string, KVGeometry>)
    requires forall k :: k in geometry ==> geometry[k].Valid()
    requires forall e :: e in ladder ==> 0.0 <= e.weightsMib
    requires SchedulerSpec(wanted, context, slots, ladder, geometry).Ok?
    ensures var spec := SchedulerSpec(wanted, context, slots, ladder, geometry).value;
            spec.totalLayers > 0 && 0.0 < PerLayerMb(spec)
  {
    var spec := SchedulerSpec(wanted, context, slots, ladder, geometry).value;
    var kv := KvCacheMib(geometry[spec.modelId], context, slots);
    PositiveQuotient(kv, spec.totalLayers);
    NonNegativeQuotient(spec.fileSizeMb, spec.totalLayers);
  }

  lemma {:induction false} PositiveQuotient(a: real, n: int)
    requires a > 0.0 && n > 0
    ensures a / n as real > 0.0
  {
  }

  lemma {:induction false} NonNegativeQuotient(a: real, n: int)
    requires a >= 0.0 && n > 0
    ensures a / n as real >= 0.0
  {
  }

  /** Every node can hold the layers it was given. */
  ghost predicate NoneOver(layers: seq<Slot>, spec: ModelSpec, profiles: Profiles, metrics: Metrics)
    requires spec.totalLayers != 0
  {
    forall i :: 0 <= i < |layers| ==>
      && layers[i].id in profiles && layers[i].id in metrics
      && FootprintMb(layers[i], spec) <= UsableMemMb(profiles[layers[i].id], metrics[layers[i].id])
  }

  /** End to end: the nodes of a plan together hold exactly the weights and the whole KV cache of
      the requested context and slots, although only the cached layers really carry KV, and no
      node is charged more than its memory. */
  lemma {:induction false} PlanHoldsWholeModel(wanted: string, context: int, slots: int,
                            ladder: seq<LadderEntry>, geometry: map<string, KVGeometry>,
                            a: Assignment, ids: seq<string>, profiles: Profiles, metrics: Metrics, rtts: seq<real>)
    requires forall k :: k in geometry ==> geometry[k].Valid()
    requires SchedulerSpec(wanted, context, slots, ladder, geometry).Ok?
    requires Plan.Good(a, ids, profiles, metrics, rtts, SchedulerSpec(wanted, context, slots, ladder, geometry).value)
    ensures var spec := SchedulerSpec(wanted, context, slots, ladder, geometry).value;
            && context > 0 && slots > 0 && spec.modelId in geometry
            && RealSum(Footprints(a.layers, spec))
               == Resolve(wanted, ladder).value.weightsMib + KvCacheMib(geometry[spec.modelId], context, slots)
            && NoneOver(a.layers, spec, profiles, metrics)
  {
    var spec := SchedulerSpec(wanted, context, slots, ladder, geometry).value;
    KvSpread(wanted, context, slots, ladder, geometry);
    PlanHolds(a, ids, profiles, metrics, rtts, spec, KvCacheMib(geometry[spec.modelId], context, slots));
  }

  lemma {:induction false} PlanHolds(a: Assignment, ids: seq<string>, profiles: Profiles, metrics: Metrics, rtts: seq<real>,
                                     spec: ModelSpec, kv: real)
    requires Plan.Good(a, ids, profiles, metrics, rtts, spec)
    requires spec.totalLayers as real * spec.kvMbPerLayer == kv
    ensures RealSum(Footprints(a.layers, spec)) == spec.fileSizeMb + kv
    ensures NoneOver(a.layers, spec, profiles, metrics)
  {
    FootprintsConserved(a.layers, spec);
    Plan.SlotIds(a.layers, ids);
  }

  /** The per-layer figure spreads the whole cache over all layers. */
  lemma {:induction false} KvSpread(wanted: string, context: int, slots: int,
                 ladder: seq<LadderEntry>, geometry: map<string, KVGeometry>)
    requires forall k :: k in geometry ==> geometry[k].Valid()
    requires SchedulerSpec(wanted, context, slots, ladder, geometry).Ok?
    ensures var spec := SchedulerSpec(wanted, context, slots, ladder, geometry).value;
            && context > 0 && slots > 0 && spec.modelId in geometry
            && spec.totalLayers as real * spec.kvMbPerLayer == KvCacheMib(geometry[spec.modelId], context, slots)
  {
    var spec := SchedulerSpec(wanted, context, slots, ladder, geometry).value;
    SpreadRestores(KvCacheMib(geometry[spec.modelId], context, slots), spec.totalLayers, spec.kvMbPerLayer);
  }

  lemma {:induction false} SpreadRestores(kv: real, n: int, perLayer: real)
    requires n != 0 && perLayer == kv / n as real
    ensures n as real * perLayer == kv
  {
  }
}
