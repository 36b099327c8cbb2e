/** sched/cost.py: the memory constraint and the decode-speed prediction. */
module Cost {
  import opened Contracts
  import opened Numbers

  const COMPUTE_OVERHEAD_MB: int := 1600

  type Profiles = map<string, NodeProfile>
  type Metrics = map<string, NodeMetrics>

  function Ids(layers: seq<Slot>): seq<string> {
    seq(|layers|, i requires 0 <= i < |layers| => layers[i].id)
  }

  function Counts(layers: seq<Slot>): seq<int> {
    seq(|layers|, i requires 0 <= i < |layers| => layers[i].Count())
  }

  /** Every planned node has a profile and has reported metrics. */
  ghost predicate Known(layers: seq<Slot>, profiles: Profiles, metrics: Metrics) {
    forall i :: 0 <= i < |layers| ==> layers[i].id in profiles && layers[i].id in metrics
  }

  /** Unified memory is one pool, so Metal never adds VRAM to RAM. */
  function UsableMemMb(profile: NodeProfile, metric: NodeMetrics): (mb: real)
    ensures 0.0 <= mb
  {
    var base :=
      if profile.backend == "metal" then metric.ramFreeMb
      else metric.ramFreeMb + (match metric.vramFreeMb case Some(v) => v case None => 0);
    MaxReal(0.0, (base - COMPUTE_OVERHEAD_MB) as real)
  }

  function LayerWeightMb(spec: ModelSpec): real
    requires spec.totalLayers != 0
  {
    spec.fileSizeMb / spec.totalLayers as real
  }

  /** What one layer costs a node: its weights and its share of the KV cache. */
  function PerLayerMb(spec: ModelSpec): real
    requires spec.totalLayers != 0
  {
    LayerWeightMb(spec) + spec.kvMbPerLayer
  }

  function FootprintMb(slot: Slot, spec: ModelSpec): real
    requires spec.totalLayers != 0
  {
    slot.Count() as real * LayerWeightMb(spec) + slot.Count() as real * spec.kvMbPerLayer
  }

  function OverflowMb(slot: Slot, profiles: Profiles, metrics: Metrics, spec: ModelSpec): real
    requires spec.totalLayers != 0 && slot.id in profiles && slot.id in metrics
  {
    FootprintMb(slot, spec) - UsableMemMb(profiles[slot.id], metrics[slot.id])
  }

  /** Whole layers that fit in `usable` MB at `perLayer` MB each. */
  function Capacity(usable: real, perLayer: real): (c: nat)
    requires 0.0 <= usable && 0.0 < perLayer
  {
    (usable / perLayer).Floor
  }

  function Caps(layers: seq<Slot>, profiles: Profiles, metrics: Metrics, spec: ModelSpec): seq<nat>
    requires spec.totalLayers != 0 && 0.0 < PerLayerMb(spec) && Known(layers, profiles, metrics)
  {
    CapsOf(Ids(layers), profiles, metrics, spec)
  }

  function CapsOf(ids: seq<string>, profiles: Profiles, metrics: Metrics, spec: ModelSpec): seq<nat>
    requires spec.totalLayers != 0 && 0.0 < PerLayerMb(spec)
    requires forall i :: 0 <= i < |ids| ==> ids[i] in profiles && ids[i] in metrics
  {
    seq(|ids|, i requires 0 <= i < |ids| =>
      Capacity(UsableMemMb(profiles[ids[i]], metrics[ids[i]]), PerLayerMb(spec)))
  }

  /** The MB comparisons of the repair loop are comparisons with the floor capacity. */
  lemma {:induction false} CapacityDecides(n: int, usable: real, perLayer: real)
    requires 0.0 <= usable && 0.0 < perLayer
    ensures n as real * perLayer > usable <==> n > Capacity(usable, perLayer)
    ensures usable - n as real * perLayer >= perLayer <==> n < Capacity(usable, perLayer)
  {
    var q := usable / perLayer;
    QuotientTimes(usable, perLayer);
    FloorProduct(n, q, perLayer, usable);
    FloorProduct(n + 1, q, perLayer, usable);
    Distribute(n, 1, perLayer);
    NextFits(n as real * perLayer, (n + 1) as real * perLayer, perLayer, usable, n, Capacity(usable, perLayer));
  }

  lemma {:induction false} QuotientTimes(a: real, b: real)
    requires b != 0.0
    ensures a / b * b == a
  {
  }

  lemma {:induction false} NextFits(x: real, next: real, p: real, usable: real, n: int, cap: int)
    requires x <= usable <==> n <= cap
    requires next <= usable <==> n + 1 <= cap
    requires next == x + 1.0 * p
    ensures x > usable <==> n > cap
    ensures usable - x >= p <==> n < cap
  {
  }

  lemma {:induction false} FloorProduct(n: int, q: real, p: real, product: real)
    requires 0.0 < p && q * p == product
    ensures n as real * p <= product <==> n <= q.Floor
  {
    ProductOrder(n as real, q, p);
  }

  lemma {:induction false} ProductOrder(a: real, b: real, p: real)
    requires 0.0 < p
    ensures a * p <= b * p <==> a <= b
  {
    var d := a - b;
    assert d * p == a * p - b * p;
  }

  /** A node has room for `k` layers exactly if `k` of them and the compute overhead fit its RAM, plus
      its VRAM unless it is a Metal node, whose two figures are one pool. */
  lemma {:induction false} RoomFor(profile: NodeProfile, metric: NodeMetrics, perLayer: real, k: int)
    requires 0.0 < perLayer && 0 < k
    ensures profile.backend == "metal" || metric.vramFreeMb.None? ==>
              (k <= Capacity(UsableMemMb(profile, metric), perLayer) <==>
               k as real * perLayer + 1600.0 <= metric.ramFreeMb as real)
    ensures profile.backend != "metal" && metric.vramFreeMb.Some? ==>
              (k <= Capacity(UsableMemMb(profile, metric), perLayer) <==>
               k as real * perLayer + 1600.0 <= (metric.ramFreeMb + metric.vramFreeMb.value) as real)
  {
    var usable := UsableMemMb(profile, metric);
    CapacityDecides(k, usable, perLayer);
    PositiveTimes(k, perLayer);
    assert profile.backend == "metal" || metric.vramFreeMb.None? ==>
        usable == MaxReal(0.0, metric.ramFreeMb as real - 1600.0);
  }

  lemma {:induction false} FootprintRoom(slot: Slot, profile: NodeProfile, metric: NodeMetrics, spec: ModelSpec)
    requires spec.totalLayers != 0 && 0.0 < PerLayerMb(spec) && 0 < slot.Count()
    requires FootprintMb(slot, spec) <= UsableMemMb(profile, metric)
    ensures profile.backend == "metal" || metric.vramFreeMb.None? ==>
              FootprintMb(slot, spec) + 1600.0 <= metric.ramFreeMb as real
    ensures profile.backend != "metal" && metric.vramFreeMb.Some? ==>
              FootprintMb(slot, spec) + 1600.0 <= (metric.ramFreeMb + metric.vramFreeMb.value) as real
  {
    var k, p := slot.Count(), PerLayerMb(spec);
    assert FootprintMb(slot, spec) == k as real * p;
    PositiveTimes(k, p);
  }

  lemma {:induction false} PositiveTimes(k: int, p: real)
    requires 0 < k && 0.0 < p
    ensures k as real * p > 0.0
  {
  }

  lemma {:induction false} OverflowDecides(layers: seq<Slot>, profiles: Profiles, metrics: Metrics, spec: ModelSpec, i: nat)
    requires spec.totalLayers != 0 && 0.0 < PerLayerMb(spec) && Known(layers, profiles, metrics)
    requires i < |layers|
    ensures OverflowMb(layers[i], profiles, metrics, spec) > 0.0
       <==> Counts(layers)[i] > Caps(layers, profiles, metrics, spec)[i]
  {
    var n := layers[i].Count();
    var usable := UsableMemMb(profiles[layers[i].id], metrics[layers[i].id]);
    assert FootprintMb(layers[i], spec) == n as real * PerLayerMb(spec);
    CapacityDecides(n, usable, PerLayerMb(spec));
  }

  /** SCH-2's constraint, node by node with an early exit. */
  method Fits(layers: seq<Slot>, profiles: Profiles, metrics: Metrics, spec: ModelSpec) returns (ok: bool)
    requires spec.totalLayers != 0 && Known(layers, profiles, metrics)
    ensures ok <==> forall i :: 0 <= i < |layers| ==>
                      FootprintMb(layers[i], spec)
                      <= UsableMemMb(profiles[layers[i].id], metrics[layers[i].id])
  {
    for i := 0 to |layers|
      invariant forall j :: 0 <= j < i ==>
                  FootprintMb(layers[j], spec)
                  <= UsableMemMb(profiles[layers[j].id], metrics[layers[j].id])
    {
      if FootprintMb(layers[i], spec) > UsableMemMb(profiles[layers[i].id], metrics[layers[i].id]) {
        return false;
      }
    }
    return true;
  }

  /** Nothing of the model is lost or counted twice: whatever the split, the nodes
      together hold exactly the weights plus `L` layers' worth of KV cache. */
  lemma {:induction false} FootprintsConserved(layers: seq<Slot>, spec: ModelSpec)
    requires spec.totalLayers != 0 && Sum(Counts(layers)) == spec.totalLayers
    ensures RealSum(Footprints(layers, spec))
         == spec.fileSizeMb + spec.totalLayers as real * spec.kvMbPerLayer
  {
    var f := PerLayerMb(spec);
    forall i | 0 <= i < |layers|
      ensures Footprints(layers, spec)[i] == Counts(layers)[i] as real * f
    {
    }
    RealSumScale(Counts(layers), f, Footprints(layers, spec));
    assert spec.totalLayers as real * LayerWeightMb(spec) == spec.fileSizeMb;
  }

  function Footprints(layers: seq<Slot>, spec: ModelSpec): seq<real>
    requires spec.totalLayers != 0
  {
    seq(|layers|, i requires 0 <= i < |layers| => FootprintMb(layers[i], spec))
  }

  // ---- predicted decode speed ----

  datatype PredictError = Unmeasured(id: string) | ZeroTime

  ghost predicate Measured(layers: seq<Slot>, profiles: Profiles) {
    forall i :: 0 <= i < |layers| ==> layers[i].id in profiles && 0.0 < profiles[layers[i].id].tgTokS
  }

  /** Seconds node `slot` spends on one token: layers_i / (L * tg_tok_s_i). */
  function StageTime(slot: Slot, speed: real, total: int): real
    requires total > 0 && speed > 0.0
  {
    assert total as real * speed > 0.0;
    slot.Count() as real / (total as real * speed)
  }

  ghost function StageTimes(layers: seq<Slot>, profiles: Profiles, total: int): seq<real>
    requires total > 0 && Measured(layers, profiles)
  {
    seq(|layers|, i requires 0 <= i < |layers| =>
      StageTime(layers[i], profiles[layers[i].id].tgTokS, total))
  }

  function NetworkTime(hops: int, rtts: seq<real>): real
    requires rtts != []
  {
    Max(0, hops) as real * (RealSum(rtts) / |rtts| as real / 1000.0)
  }

  ghost function TokenTime(layers: seq<Slot>, profiles: Profiles, rtts: seq<real>, total: int): real
    requires total > 0 && Measured(layers, profiles) && rtts != []
  {
    RealSum(StageTimes(layers, profiles, total)) + NetworkTime(|layers| - 1, rtts)
  }

  method PredictTokS(layers: seq<Slot>, profiles: Profiles, rtts: seq<real>, spec: ModelSpec)
    returns (r: Result<real, PredictError>)
    requires spec.totalLayers > 0 && rtts != []
    requires forall i :: 0 <= i < |layers| ==> layers[i].id in profiles
    ensures r.Err? && r.error.Unmeasured? <==> !Measured(layers, profiles)
    ensures Measured(layers, profiles) ==>
              var t := TokenTime(layers, profiles, rtts, spec.totalLayers);
              r == if t <= 0.0 then Err(ZeroTime) else Ok(1.0 / t)
  {
    var total := spec.totalLayers;
    var compute := 0.0;
    for i := 0 to |layers|
      invariant forall j :: 0 <= j < i ==> 0.0 < profiles[layers[j].id].tgTokS
      invariant Measured(layers[..i], profiles)
      invariant compute == RealSum(StageTimes(layers[..i], profiles, total))
    {
      var speed := profiles[layers[i].id].tgTokS;
      if speed <= 0.0 {
        return Err(Unmeasured(layers[i].id));
      }
      compute := compute + StageTime(layers[i], speed, total);
      ghost var times := StageTimes(layers[..i + 1], profiles, total);
      assert times == StageTimes(layers[..i], profiles, total) + [StageTime(layers[i], speed, total)];
      RealSumAppend(StageTimes(layers[..i], profiles, total), StageTime(layers[i], speed, total));
    }
    assert layers[..|layers|] == layers;
    var t := compute + NetworkTime(|layers| - 1, rtts);
    if t <= 0.0 {
      return Err(ZeroTime);
    }
    return Ok(1.0 / t);
  }

  lemma {:induction false} ReciprocalAntitone(x: real, y: real)
    requires 0.0 < x <= y
    ensures 0.0 < 1.0 / y <= 1.0 / x
  {
    var a, b := 1.0 / x, 1.0 / y;
    assert a * x == 1.0 && b * y == 1.0;
    assert b > 0.0;
    assert b * x <= b * y;
    assert (a - b) * x >= 0.0;
  }

  lemma {:induction false} StageTimeAgainst(slot: Slot, speed: real, bound: real, total: int)
    requires total > 0 && 0 <= slot.Count() && 0.0 < speed && 0.0 < bound
    ensures slot.Count() == 0 || speed <= bound ==>
              slot.Count() as real * StageTime(Slot("", 0, 0), bound, total) <= StageTime(slot, speed, total)
    ensures slot.Count() == 0 || bound <= speed ==>
              StageTime(slot, speed, total) <= slot.Count() as real * StageTime(Slot("", 0, 0), bound, total)
  {
    var n := slot.Count() as real;
    var x, y := total as real * speed, total as real * bound;
    assert x > 0.0 && y > 0.0;
    assert n / x == n * (1.0 / x);
    if n > 0.0 {
      if speed <= bound {
        assert x <= y;
        ReciprocalAntitone(x, y);
      }
      if bound <= speed {
        assert y <= x;
        ReciprocalAntitone(y, x);
      }
    }
  }

  lemma {:induction false} NetworkTimeNonNegative(hops: int, rtts: seq<real>)
    requires rtts != [] && forall i :: 0 <= i < |rtts| ==> 0.0 <= rtts[i]
    ensures 0.0 <= NetworkTime(hops, rtts)
    ensures (forall i :: 0 <= i < |rtts| ==> rtts[i] == 0.0) ==> NetworkTime(hops, rtts) == 0.0
  {
    var zeros := seq(|rtts|, i => 0.0);
    RealSumWithin(zeros, zeros, 0.0);
    ZeroSum(zeros);
    RealSumMonotone(zeros, rtts);
    if forall i :: 0 <= i < |rtts| ==> rtts[i] == 0.0 {
      assert rtts == zeros;
    }
  }

  /** Every hop between neighbours in the pipeline costs the average round trip, in milliseconds. */
  lemma {:induction false} NetworkTimeExact(hops: int, rtts: seq<real>)
    requires rtts != [] && 0 <= hops
    ensures NetworkTime(hops, rtts) * 1000.0 * |rtts| as real == hops as real * RealSum(rtts)
  {
    var n, sum := |rtts| as real, RealSum(rtts);
    QuotientTimes(sum, n);
    HopTime(hops as real, sum / n, n, sum);
  }

  lemma {:induction false} HopTime(h: real, average: real, n: real, sum: real)
    requires average * n == sum
    ensures h * (average / 1000.0) * 1000.0 * n == h * sum
  {
    assert average / 1000.0 * 1000.0 == average;
    assert h * (average / 1000.0) * 1000.0 == h * average;
    assert h * average * n == h * (average * n);
  }

  lemma {:induction false} ZeroSum(s: seq<real>)
    requires forall i :: 0 <= i < |s| ==> s[i] == 0.0
    ensures RealSum(s) == 0.0
  {
    if s != [] { ZeroSum(s[1..]); }
  }

  /** All `total` layers are placed on measured nodes, over links with no negative delay. */
  ghost predicate Placed(layers: seq<Slot>, profiles: Profiles, rtts: seq<real>, total: int) {
    && total > 0
    && Measured(layers, profiles)
    && (forall i :: 0 <= i < |layers| ==> 0 <= layers[i].Count())
    && Sum(Counts(layers)) == total
    && rtts != []
    && forall i :: 0 <= i < |rtts| ==> 0.0 <= rtts[i]
  }

  /** Stage times if every layer ran at the one speed `bound`. */
  ghost function Levelled(layers: seq<Slot>, bound: real, total: int): seq<real>
    requires total > 0 && bound > 0.0
  {
    seq(|layers|, i requires 0 <= i < |layers| =>
      layers[i].Count() as real * StageTime(Slot("", 0, 0), bound, total))
  }

  lemma {:induction false} LevelledSum(layers: seq<Slot>, bound: real, total: int)
    requires total > 0 && bound > 0.0 && Sum(Counts(layers)) == total
    ensures RealSum(Levelled(layers, bound, total)) == 1.0 / bound
  {
    RealSumScale(Counts(layers), StageTime(Slot("", 0, 0), bound, total), Levelled(layers, bound, total));
    Cancel(total as real, bound);
  }

  lemma {:induction false} StageAbove(slot: Slot, speed: real, bound: real, total: int)
    requires total > 0 && 0 <= slot.Count() && 0.0 < speed && 0.0 < bound && (slot.Count() > 0 ==> speed <= bound)
    ensures slot.Count() as real * StageTime(Slot("", 0, 0), bound, total) <= StageTime(slot, speed, total)
  {
    StageTimeAgainst(slot, speed, bound, total);
  }

  lemma {:induction false} StageBelow(slot: Slot, speed: real, bound: real, total: int)
    requires total > 0 && 0 <= slot.Count() && 0.0 < speed && 0.0 < bound && (slot.Count() > 0 ==> bound <= speed)
    ensures StageTime(slot, speed, total) <= slot.Count() as real * StageTime(Slot("", 0, 0), bound, total)
  {
    StageTimeAgainst(slot, speed, bound, total);
  }

  /** Nodes no faster than `bound` take at least as long as if all ran at `bound`. */
  lemma {:induction false} StagesAbove(layers: seq<Slot>, profiles: Profiles, total: int, bound: real)
    requires total > 0 && 0.0 < bound && Measured(layers, profiles)
    requires forall i :: 0 <= i < |layers| ==> 0 <= layers[i].Count()
    requires forall i :: 0 <= i < |layers| && layers[i].Count() > 0 ==> profiles[layers[i].id].tgTokS <= bound
    ensures RealSum(Levelled(layers, bound, total)) <= RealSum(StageTimes(layers, profiles, total))
  {
    var times, level := StageTimes(layers, profiles, total), Levelled(layers, bound, total);
    forall i | 0 <= i < |layers| ensures level[i] <= times[i] {
      StageAbove(layers[i], profiles[layers[i].id].tgTokS, bound, total);
    }
    RealSumMonotone(level, times);
  }

  /** Nodes no slower than `bound` take at most as long as if all ran at `bound`. */
  lemma {:induction false} StagesBelow(layers: seq<Slot>, profiles: Profiles, total: int, bound: real)
    requires total > 0 && 0.0 < bound && Measured(layers, profiles)
    requires forall i :: 0 <= i < |layers| ==> 0 <= layers[i].Count()
    requires forall i :: 0 <= i < |layers| && layers[i].Count() > 0 ==> bound <= profiles[layers[i].id].tgTokS
    ensures RealSum(StageTimes(layers, profiles, total)) <= RealSum(Levelled(layers, bound, total))
  {
    var times, level := StageTimes(layers, profiles, total), Levelled(layers, bound, total);
    forall i | 0 <= i < |layers| ensures times[i] <= level[i] {
      StageBelow(layers[i], profiles[layers[i].id].tgTokS, bound, total);
    }
    RealSumMonotone(times, level);
  }

  /** A time against the time `1 / bound`, turned into a speed. */
  lemma {:induction false} SpeedOfTime(t: real, bound: real)
    requires 0.0 < bound
    ensures 1.0 / bound <= t ==> 0.0 < t && 0.0 < 1.0 / t <= bound
    ensures 0.0 < t <= 1.0 / bound ==> bound <= 1.0 / t
  {
    Cancel(1.0, bound);
    if 1.0 / bound <= t { ReciprocalAntitone(1.0 / bound, t); }
    if 0.0 < t <= 1.0 / bound { ReciprocalAntitone(t, 1.0 / bound); }
  }

  /** The prediction is positive and never above a bound on the nodes that hold layers. */
  lemma {:induction false} SpeedUpperBound(layers: seq<Slot>, profiles: Profiles, rtts: seq<real>, total: int, bound: real)
    requires Placed(layers, profiles, rtts, total) && 0.0 < bound
    requires forall i :: 0 <= i < |layers| && layers[i].Count() > 0 ==> profiles[layers[i].id].tgTokS <= bound
    ensures 0.0 < TokenTime(layers, profiles, rtts, total)
    ensures 0.0 < 1.0 / TokenTime(layers, profiles, rtts, total) <= bound
  {
    StagesAbove(layers, profiles, total, bound);
    LevelledSum(layers, bound, total);
    NetworkTimeNonNegative(|layers| - 1, rtts);
    SpeedOfTime(TokenTime(layers, profiles, rtts, total), bound);
  }

  /** With free links the prediction is a harmonic mean, so it never falls below a lower bound. */
  lemma {:induction false} SpeedLowerBound(layers: seq<Slot>, profiles: Profiles, rtts: seq<real>, total: int, bound: real)
    requires Placed(layers, profiles, rtts, total) && 0.0 < bound
    requires forall i :: 0 <= i < |layers| && layers[i].Count() > 0 ==> bound <= profiles[layers[i].id].tgTokS
    requires forall i :: 0 <= i < |rtts| ==> rtts[i] == 0.0
    requires 0.0 < TokenTime(layers, profiles, rtts, total)
    ensures bound <= 1.0 / TokenTime(layers, profiles, rtts, total)
  {
    StagesBelow(layers, profiles, total, bound);
    LevelledSum(layers, bound, total);
    NetworkTimeNonNegative(|layers| - 1, rtts);
    SpeedOfTime(TokenTime(layers, profiles, rtts, total), bound);
  }

  /** The fastest (or, with `slow`, the slowest) node among those that hold layers. */
  lemma {:induction false} ExtremeHolder(layers: seq<Slot>, profiles: Profiles, slow: bool) returns (k: nat)
    requires Measured(layers, profiles)
    requires forall i :: 0 <= i < |layers| ==> 0 <= layers[i].Count()
    requires Sum(Counts(layers)) > 0
    ensures k < |layers| && layers[k].Count() > 0
    ensures forall i :: 0 <= i < |layers| && layers[i].Count() > 0 ==>
              if slow then profiles[layers[k].id].tgTokS <= profiles[layers[i].id].tgTokS
              else profiles[layers[i].id].tgTokS <= profiles[layers[k].id].tgTokS
  {
    var rest := layers[1..];
    assert Counts(layers)[1..] == Counts(rest);
    if Sum(Counts(rest)) > 0 {
      var j := ExtremeHolder(rest, profiles, slow);
      var s0, sj := profiles[layers[0].id].tgTokS, profiles[layers[j + 1].id].tgTokS;
      k := if layers[0].Count() > 0 && (if slow then s0 < sj else sj < s0) then 0 else j + 1;
      assert forall i :: 1 <= i < |layers| ==> layers[i] == rest[i - 1];
    } else {
      k := 0;
      SumNonNegative(Counts(rest));
      assert forall i :: 1 <= i < |layers| ==> layers[i].Count() == Counts(rest)[i - 1];
    }
  }

  /** The predicted speed lies between the slowest and the fastest node holding layers;
      link delay can only pull it below, never above. */
  lemma {:induction false} PredictedSpeedWithinPool(layers: seq<Slot>, profiles: Profiles, rtts: seq<real>, total: int)
    requires Placed(layers, profiles, rtts, total)
    ensures 0.0 < TokenTime(layers, profiles, rtts, total)
    ensures exists k :: 0 <= k < |layers| && layers[k].Count() > 0
              && 1.0 / TokenTime(layers, profiles, rtts, total) <= profiles[layers[k].id].tgTokS
    ensures (forall i :: 0 <= i < |rtts| ==> rtts[i] == 0.0) ==>
              exists k :: 0 <= k < |layers| && layers[k].Count() > 0
                && profiles[layers[k].id].tgTokS <= 1.0 / TokenTime(layers, profiles, rtts, total)
  {
    var fast := ExtremeHolder(layers, profiles, false);
    SpeedUpperBound(layers, profiles, rtts, total, profiles[layers[fast].id].tgTokS);
    if forall i :: 0 <= i < |rtts| ==> rtts[i] == 0.0 {
      var slow := ExtremeHolder(layers, profiles, true);
      SpeedLowerBound(layers, profiles, rtts, total, profiles[layers[slow].id].tgTokS);
    }
  }

  lemma {:induction false} Cancel(a: real, b: real)
    requires 0.0 < a && 0.0 < b
    ensures a * (1.0 / (a * b)) == 1.0 / b
    ensures 1.0 / (1.0 / b) == b
    ensures 0.0 < 1.0 / b
  {
    assert a * b > 0.0;
    var q := 1.0 / (a * b);
    assert q * (a * b) == 1.0;
    assert (a * q) * b == 1.0;
  }
}
