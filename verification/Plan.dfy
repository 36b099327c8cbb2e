/** sched/plan.py: split by measured speed, repair memory overflow, renumber, predict. */
module Plan {
  import opened Contracts
  import opened Cost
  import opened Numbers
  import opened Ordering
  import Repair

  // ---- layer ranges ----

  /** Ranges laid back to back from layer 0 in key order. */
  ghost predicate Contiguous(layers: seq<Slot>) {
    forall i :: 0 <= i < |layers| ==>
      0 <= layers[i].Count() && layers[i].first == Sum(Counts(layers)[..i])
  }

  ghost predicate Holds(slot: Slot, layer: int) {
    slot.first <= layer <= slot.last
  }

  lemma {:induction false} PrefixSums(c: seq<int>, i: nat, j: nat)
    requires i <= j <= |c| && forall k :: 0 <= k < |c| ==> 0 <= c[k]
    ensures Sum(c[..i]) <= Sum(c[..j])
  {
    if i < j {
      PrefixSums(c, i, j - 1);
      SumTake(c, j - 1);
    }
  }

  /** Contiguous ranges partition 0..L-1: each layer is on exactly one node, and a range
      names no layer outside the model. */
  lemma {:induction false} LayersPartition(layers: seq<Slot>, layer: int)
    requires Contiguous(layers)
    ensures 0 <= layer < Sum(Counts(layers)) <==> exists i :: 0 <= i < |layers| && Holds(layers[i], layer)
    ensures forall i, j :: 0 <= i < j < |layers| ==> !(Holds(layers[i], layer) && Holds(layers[j], layer))
  {
    var c := Counts(layers);
    assert c[..|c|] == c;
    forall i, j | 0 <= i < j < |layers| ensures !(Holds(layers[i], layer) && Holds(layers[j], layer)) {
      SumTake(c, i);
      PrefixSums(c, i + 1, j);
    }
    forall i | 0 <= i < |layers| && Holds(layers[i], layer) ensures 0 <= layer < Sum(c) {
      PrefixSums(c, 0, i);
      SumTake(c, i);
      PrefixSums(c, i + 1, |c|);
    }
    if 0 <= layer < Sum(c) {
      var i := FindHolder(layers, layer, |layers|);
    }
  }

  lemma {:induction false} FindHolder(layers: seq<Slot>, layer: int, n: nat) returns (i: int)
    requires Contiguous(layers) && n <= |layers| && 0 <= layer < Sum(Counts(layers)[..n])
    ensures 0 <= i < |layers| && Holds(layers[i], layer)
  {
    SumTake(Counts(layers), n - 1);
    if layer < Sum(Counts(layers)[..n - 1]) {
      i := FindHolder(layers, layer, n - 1);
    } else {
      i := n - 1;
    }
  }

  /** Placing the next range at the cursor keeps the layout contiguous. */
  lemma {:induction false} Extend(layers: seq<Slot>, slot: Slot)
    requires Contiguous(layers) && 0 <= slot.Count() && slot.first == Sum(Counts(layers))
    ensures Contiguous(layers + [slot])
    ensures Ids(layers + [slot]) == Ids(layers) + [slot.id]
    ensures Counts(layers + [slot]) == Counts(layers) + [slot.Count()]
    ensures Sum(Counts(layers + [slot])) == Sum(Counts(layers)) + slot.Count()
  {
    var more := layers + [slot];
    assert Counts(more) == Counts(layers) + [slot.Count()];
    SumAppend(Counts(layers), slot.Count());
    forall j | 0 <= j < |more| ensures 0 <= more[j].Count() && more[j].first == Sum(Counts(more)[..j]) {
      assert Counts(more)[..j] == Counts(layers)[..j];
      if j == |layers| { assert Counts(layers)[..j] == Counts(layers); }
    }
  }

  // ---- the split by speed ----

  function Speeds(ids: seq<string>, profiles: Profiles): seq<real>
    requires forall i :: 0 <= i < |ids| ==> ids[i] in profiles
  {
    seq(|ids|, i requires 0 <= i < |ids| => profiles[ids[i]].tgTokS)
  }

  /** A node's speed share of `total` layers, rounded, but at least one. */
  function Ask(speed: real, totalSpeed: real, total: int): (n: int)
    requires totalSpeed > 0.0
    ensures 1 <= n
    ensures var exact := speed / totalSpeed * total as real;
            (n == 1 && exact <= 1.5) || -0.5 <= n as real - exact <= 0.5
  {
    var exact := speed / totalSpeed * total as real;
    Max(1, Round(exact))
  }

  function Asks(speeds: seq<real>, totalSpeed: real, total: int): (asks: seq<int>)
    requires totalSpeed > 0.0
    ensures |asks| == |speeds|
    ensures forall i :: 0 <= i < |asks| ==> asks[i] == Ask(speeds[i], totalSpeed, total)
  {
    if speeds == [] then [] else [Ask(speeds[0], totalSpeed, total)] + Asks(speeds[1..], totalSpeed, total)
  }

  /** Serve the asks in order from `left` layers; the last node takes the remainder. */
  function Serve(asks: seq<int>, left: int): (c: seq<int>)
    ensures |c| == |asks|
  {
    if asks == [] then []
    else if |asks| == 1 then [left]
    else
      var n := Min(asks[0], left);
      [n] + Serve(asks[1..], left - n)
  }

  /** The split hands out every layer, and a node goes without only once they have run out. */
  lemma {:induction false} ServeConserves(asks: seq<int>, left: int)
    requires 0 <= left && asks != [] && forall i :: 0 <= i < |asks| ==> 1 <= asks[i]
    ensures var c := Serve(asks, left);
            && Sum(c) == left
            && (forall i :: 0 <= i < |c| ==> 0 <= c[i])
            && (forall i :: 0 <= i < |c| && c[i] == 0 ==> Sum(c[..i]) == left)
  {
    var c := Serve(asks, left);
    if |asks| > 1 {
      var n := Min(asks[0], left);
      ServeConserves(asks[1..], left - n);
      forall i | 0 <= i < |c| && c[i] == 0 ensures Sum(c[..i]) == left {
        if i > 0 { assert c[..i][1..] == c[1..][..i - 1]; }
      }
    }
  }

  /** Closed form of who goes without: a node whose predecessors already ask for everything. */
  lemma {:induction false} ServeZero(asks: seq<int>, left: int, i: nat)
    requires 0 <= left && i < |asks| && forall k :: 0 <= k < |asks| ==> 1 <= asks[k]
    ensures Serve(asks, left)[i] == 0 <==> Sum(asks[..i]) >= left
  {
    if i > 0 {
      var n := Min(asks[0], left);
      ServeZero(asks[1..], left - n, i - 1);
      assert asks[..i] == [asks[0]] + asks[1..][..i - 1];
      SumNonNegative(asks[1..][..i - 1]);
    }
  }

  /** What node `i` gets when `left` layers are left. */
  function Portion(asks: seq<int>, i: nat, left: int): int
    requires i < |asks|
  {
    Min(if i == |asks| - 1 then left else asks[i], left)
  }

  lemma {:induction false} ServeNext(asks: seq<int>, i: nat, left: int)
    requires i < |asks|
    ensures var n := Portion(asks, i, left);
            Serve(asks[i..], left) == [n] + Serve(asks[i + 1..], left - n)
  {
    assert asks[i..][1..] == asks[i + 1..];
  }

  lemma {:induction false} ServeStep(split: seq<int>, done: seq<int>, asks: seq<int>, i: nat, left: int)
    requires i < |asks| && split == done + Serve(asks[i..], left)
    ensures var n := Portion(asks, i, left);
            split == (done + [n]) + Serve(asks[i + 1..], left - n)
  {
    var n := Portion(asks, i, left);
    ServeNext(asks, i, left);
    Regroup(done, [n], Serve(asks[i + 1..], left - n));
  }

  /** Every node but the last gets what it asked for, unless that takes the last layer. */
  lemma {:induction false} ServeGrants(asks: seq<int>, left: int, i: nat)
    requires 0 <= left && i + 1 < |asks|
    ensures var c := Serve(asks, left);
            c[i] == asks[i] || Sum(c[..i + 1]) == left
  {
    var n := Min(asks[0], left);
    var c, rest := Serve(asks, left), Serve(asks[1..], left - n);
    assert c == [n] + rest;
    if i > 0 {
      ServeGrants(asks[1..], left - n, i - 1);
      assert c[..i + 1] == [n] + rest[..i];
    } else {
      assert c[..1] == [n];
    }
  }

  datatype PlanError = NoNodes | NoMetrics | NoSpeed | DoesNotFit | Prediction(cause: PredictError)

  /** Layer counts the split by speed gives to nodes of these speeds. */
  function SpeedSplit(speeds: seq<real>, total: int): (c: seq<int>)
    requires RealSum(speeds) > 0.0
    ensures |c| == |speeds|
  {
    Serve(Asks(speeds, RealSum(speeds), total), total)
  }

  /** The split by speed places all `total` layers; a node goes without only once they have run
      out, and until then every node but the last gets what its speed asks for. */
  lemma {:induction false} SpeedSplitSpec(speeds: seq<real>, total: int)
    requires RealSum(speeds) > 0.0 && 0 < total
    ensures var c := SpeedSplit(speeds, total);
            && Sum(c) == total
            && (forall i :: 0 <= i < |c| ==> 0 <= c[i])
            && (forall i :: 0 <= i < |c| && c[i] == 0 ==> Sum(c[..i]) == total)
    ensures forall i :: 0 <= i < |speeds| - 1 ==>
              var c := SpeedSplit(speeds, total);
              c[i] == Ask(speeds[i], RealSum(speeds), total) || Sum(c[..i + 1]) == total
  {
    var asks := Asks(speeds, RealSum(speeds), total);
    ServeConserves(asks, total);
    forall i | 0 <= i < |speeds| - 1
      ensures var c := SpeedSplit(speeds, total);
              c[i] == Ask(speeds[i], RealSum(speeds), total) || Sum(c[..i + 1]) == total
    {
      ServeGrants(asks, total, i);
    }
  }

  function InitialShares(speeds: seq<real>, totalSpeed: real): (r: seq<real>)
    requires totalSpeed > 0.0
    ensures |r| == |speeds|
    ensures forall i :: 0 <= i < |r| ==> -0.00005 <= r[i] - speeds[i] / totalSpeed <= 0.00005
  {
    seq(|speeds|, i requires 0 <= i < |speeds| => Round4(speeds[i] / totalSpeed))
  }

  /** The first `i` nodes have been served, back to back, and the rest is still to be served. */
  ghost predicate Laid(layers: seq<Slot>, ids: seq<string>, asks: seq<int>, total: int, i: nat) {
    && i <= |ids| == |asks| && |layers| == i && Ids(layers) == ids[..i] && Contiguous(layers)
    && 0 <= Sum(Counts(layers)) <= total
    && Serve(asks, total) == Counts(layers) + Serve(asks[i..], total - Sum(Counts(layers)))
  }

  lemma {:induction false} LaidStep(layers: seq<Slot>, ids: seq<string>, asks: seq<int>, total: int, i: nat, slot: Slot)
    requires Laid(layers, ids, asks, total, i) && i < |ids| && 1 <= asks[i]
    requires slot.id == ids[i] && slot.first == Sum(Counts(layers))
    requires slot.Count() == Portion(asks, i, total - Sum(Counts(layers)))
    ensures Laid(layers + [slot], ids, asks, total, i + 1)
    ensures Sum(Counts(layers + [slot])) == Sum(Counts(layers)) + slot.Count()
  {
    var left := total - Sum(Counts(layers));
    Extend(layers, slot);
    ServeStep(Serve(asks, total), Counts(layers), asks, i, left);
    LaidTail(ids, i, slot, layers);
    assert left - slot.Count() == total - Sum(Counts(layers + [slot]));
  }

  lemma {:induction false} LaidTail(ids: seq<string>, i: nat, slot: Slot, layers: seq<Slot>)
    requires i < |ids| && slot.id == ids[i] && Ids(layers) == ids[..i]
    ensures Ids(layers + [slot]) == ids[..i + 1]
  {
    assert ids[..i + 1] == ids[..i] + [ids[i]];
  }

  /** The allocation loop: hand each node its range, never past the last layer. */
  method LayOut(ids: seq<string>, asks: seq<int>, total: int) returns (layers: seq<Slot>)
    requires |ids| == |asks| && 0 <= total && forall i :: 0 <= i < |asks| ==> 1 <= asks[i]
    ensures Ids(layers) == ids && Counts(layers) == Serve(asks, total) && Contiguous(layers)
  {
    layers := [];
    var first, taken := 0, 0;
    for i := 0 to |ids|
      invariant Laid(layers, ids, asks, total, i)
      invariant first == taken == Sum(Counts(layers))
    {
      var count := if i == |ids| - 1 then total - taken else asks[i];
      count := Min(count, total - taken);
      var last := first + count - 1;
      LaidStep(layers, ids, asks, total, i, Slot(ids[i], first, last));
      layers := layers + [Slot(ids[i], first, last)];
      first := last + 1;
      taken := taken + count;
    }
  }

  /** `ids` are the planned node ids in sorted order. */
  method AssignBySpeed(ids: seq<string>, profiles: Profiles, spec: ModelSpec)
    returns (r: Result<Assignment, PlanError>)
    requires forall i :: 0 <= i < |ids| ==> ids[i] in profiles
    requires spec.totalLayers > 0
    ensures r.Err? <==> RealSum(Speeds(ids, profiles)) <= 0.0
    ensures r.Err? ==> r.error == NoSpeed
    ensures r.Ok? ==>
              && Ids(r.value.layers) == ids
              && Counts(r.value.layers) == SpeedSplit(Speeds(ids, profiles), spec.totalLayers)
              && Contiguous(r.value.layers)
              && r.value.tensorSplit == InitialShares(Speeds(ids, profiles), RealSum(Speeds(ids, profiles)))
              && r.value.modelId == spec.modelId
              && r.value.nCpuMoe == map id | id in ids :: 0
  {
    var speeds := Speeds(ids, profiles);
    var totalSpeed := RealSum(speeds);
    if totalSpeed <= 0.0 {
      return Err(NoSpeed);
    }
    var layers := LayOut(ids, Asks(speeds, totalSpeed, spec.totalLayers), spec.totalLayers);
    return Ok(Assignment(
                spec.modelId, layers, map id | id in ids :: 0, InitialShares(speeds, totalSpeed), 0.0));
  }

  // ---- renumbering ----

  /** `counts[node_id]`: the layers the dict entry for `id` spans. */
  function CountOf(layers: seq<Slot>, id: string): int {
    if layers == [] then 0
    else if layers[0].id == id then layers[0].Count()
    else CountOf(layers[1..], id)
  }

  lemma {:induction false} CountOfAt(layers: seq<Slot>, i: nat)
    requires i < |layers| && Distinct(Ids(layers))
    ensures CountOf(layers, layers[i].id) == layers[i].Count()
  {
    if i > 0 {
      assert Ids(layers)[0] != Ids(layers)[i];
      assert Ids(layers[1..]) == Ids(layers)[1..];
      CountOfAt(layers[1..], i - 1);
    }
  }

  /** Reassign layer numbers 0..L-1 in sorted id order, keeping every node's count. */
  method RenumberContiguous(layers: seq<Slot>) returns (result: seq<Slot>)
    requires Distinct(Ids(layers))
    ensures Ids(result) == Sort(StrLeq, Ids(layers))
    ensures Contiguous(result)
    ensures forall i :: 0 <= i < |result| ==> result[i].Count() == Max(0, CountOf(layers, result[i].id))
  {
    var ids := Sort(StrLeq, Ids(layers));
    SortIds(Ids(layers));
    result := [];
    var cursor := 0;
    for i := 0 to |ids|
      invariant |result| == i && Ids(result) == ids[..i]
      invariant cursor == Sum(Counts(result))
      invariant Contiguous(result)
      invariant forall j :: 0 <= j < i ==> result[j].Count() == Max(0, CountOf(layers, result[j].id))
    {
      var count := Max(0, CountOf(layers, ids[i]));
      var slot := if count > 0 then Slot(ids[i], cursor, cursor + count - 1)
                  else Slot(ids[i], cursor, cursor - 1);
      Extend(result, slot);
      result := result + [slot];
      cursor := cursor + count;
    }
  }

  /** If the keys were sorted already and no count is negative, counts survive exactly. */
  lemma {:induction false} RenumberKeepsCounts(layers: seq<Slot>, result: seq<Slot>)
    requires Distinct(Ids(layers)) && Ids(result) == Ids(layers)
    requires forall i :: 0 <= i < |layers| ==> 0 <= layers[i].Count()
    requires forall i :: 0 <= i < |result| ==> result[i].Count() == Max(0, CountOf(layers, result[i].id))
    ensures Counts(result) == Counts(layers)
  {
    assert |result| == |Ids(result)| == |layers|;
    forall i | 0 <= i < |layers| ensures result[i].Count() == layers[i].Count() {
      assert Ids(result)[i] == Ids(layers)[i];
      CountOfAt(layers, i);
    }
  }

  lemma {:induction false} IncreasingDistinct(ids: seq<string>)
    requires Increasing(ids)
    ensures Distinct(ids)
  {
    forall i, j | 0 <= i < j < |ids| ensures ids[i] != ids[j] { StrIrreflexive(ids[i]); }
  }

  /** `_tensor_split_from_layers`: rounded layer shares in sorted node order. */
  function Shares(layers: seq<Slot>): seq<real> {
    var c := Counts(layers);
    var total := Sum(c);
    seq(|c|, i requires 0 <= i < |c| => if total == 0 then 0.0 else Share(c[i], total))
  }

  function Share(count: int, total: int): (r: real)
    requires total != 0
    ensures -0.00005 <= r - Part(count, total) <= 0.00005
  {
    Quotient(count as real, total as real);
    Round4(count as real / total as real)
  }

  /** Rounded shares of a whole model sum to 1 within half a unit in the fourth decimal per node. */
  lemma {:induction false} SharesSumToOne(layers: seq<Slot>)
    requires Sum(Counts(layers)) > 0
    ensures 1.0 - |layers| as real * 0.00005 <= RealSum(Shares(layers)) <= 1.0 + |layers| as real * 0.00005
  {
    var shares, parts := Shares(layers), Parts(Counts(layers));
    PartsSum(Counts(layers));
    forall i | 0 <= i < |shares| ensures parts[i] - 0.00005 <= shares[i] <= parts[i] + 0.00005 {
      assert shares[i] == Share(Counts(layers)[i], Sum(Counts(layers)));
    }
    RealSumWithin(shares, parts, 0.00005);
  }

  function Part(count: int, total: int): real
    requires total != 0
  {
    count as real * (1.0 / total as real)
  }

  ghost function Parts(c: seq<int>): seq<real>
    requires Sum(c) != 0
  {
    seq(|c|, i requires 0 <= i < |c| => Part(c[i], Sum(c)))
  }

  lemma {:induction false} PartsSum(c: seq<int>)
    requires Sum(c) != 0
    ensures RealSum(Parts(c)) == 1.0
  {
    RealSumScale(c, 1.0 / Sum(c) as real, Parts(c));
  }

  lemma {:induction false} Quotient(a: real, b: real)
    requires b != 0.0
    ensures a / b == a * (1.0 / b)
  {
  }

  // ---- repair ----

  /** A planner dict: sorted keys, known nodes, all `L` layers placed back to back. */
  ghost predicate Ready(layers: seq<Slot>, profiles: Profiles, metrics: Metrics, spec: ModelSpec) {
    && spec.totalLayers > 0 && 0.0 < PerLayerMb(spec)
    && Increasing(Ids(layers)) && Known(layers, profiles, metrics)
    && Contiguous(layers) && Sum(Counts(layers)) == spec.totalLayers
  }

  /** Positions of the overflowing nodes, in key order. */
  function Overflowing(layers: seq<Slot>, profiles: Profiles, metrics: Metrics, spec: ModelSpec, from: nat): (r: seq<nat>)
    requires from <= |layers| && spec.totalLayers != 0 && Known(layers, profiles, metrics)
    ensures r == [] ==> forall i :: from <= i < |layers| ==> OverflowMb(layers[i], profiles, metrics, spec) <= 0.0
    ensures r != [] ==> from <= r[0] < |layers| && OverflowMb(layers[r[0]], profiles, metrics, spec) > 0.0
                        && forall i :: from <= i < r[0] ==> OverflowMb(layers[i], profiles, metrics, spec) <= 0.0
    decreases |layers| - from
  {
    if from == |layers| then []
    else
      var rest := Overflowing(layers, profiles, metrics, spec, from + 1);
      if OverflowMb(layers[from], profiles, metrics, spec) > 0.0 then [from] + rest else rest
  }

  /** A donor candidate `(tg_tok_s, node_id)`; positions follow the sorted ids. */
  datatype Candidate = Candidate(speed: real, at: nat)

  /** `sort(reverse=True)`: fastest first, then the larger id. */
  predicate Before(a: Candidate, b: Candidate) {
    a.speed > b.speed || (a.speed == b.speed && a.at >= b.at)
  }

  /** The candidates at positions below `upto` are exactly the nodes that can take a layer. */
  ghost predicate Listed(candidates: seq<Candidate>, c: seq<int>, caps: seq<nat>, speeds: seq<real>, exclude: int, upto: nat)
    requires |c| == |caps| == |speeds|
  {
    && (forall x :: x in candidates ==> Repair.CanTake(c, caps, exclude, x.at) && x.speed == speeds[x.at])
    && (forall j :: 0 <= j < upto && Repair.CanTake(c, caps, exclude, j) ==> Candidate(speeds[j], j) in candidates)
  }

  lemma {:induction false} ListedStep(candidates: seq<Candidate>, c: seq<int>, caps: seq<nat>, speeds: seq<real>, exclude: int, i: nat)
    requires |c| == |caps| == |speeds| && i < |c| && Listed(candidates, c, caps, speeds, exclude, i)
    ensures if Repair.CanTake(c, caps, exclude, i) then Listed(candidates + [Candidate(speeds[i], i)], c, caps, speeds, exclude, i + 1)
            else Listed(candidates, c, caps, speeds, exclude, i + 1)
  {
  }

  /** The slack test on node `i`: there is room for one more layer. */
  method HasSlack(layers: seq<Slot>, profiles: Profiles, metrics: Metrics, spec: ModelSpec, i: nat) returns (ok: bool)
    requires spec.totalLayers != 0 && 0.0 < PerLayerMb(spec) && Known(layers, profiles, metrics) && i < |layers|
    ensures ok <==> Counts(layers)[i] < Caps(layers, profiles, metrics, spec)[i]
  {
    var perLayer := PerLayerMb(spec);
    var usable := UsableMemMb(profiles[layers[i].id], metrics[layers[i].id]);
    var slack := usable - layers[i].Count() as real * perLayer;
    CapacityDecides(layers[i].Count(), usable, perLayer);
    return slack >= perLayer;
  }

  method SlackCandidates(layers: seq<Slot>, profiles: Profiles, metrics: Metrics, spec: ModelSpec, exclude: nat)
    returns (candidates: seq<Candidate>)
    requires spec.totalLayers != 0 && 0.0 < PerLayerMb(spec) && Known(layers, profiles, metrics)
    ensures Listed(candidates, Counts(layers), Caps(layers, profiles, metrics, spec),
                   Speeds(Ids(layers), profiles), exclude, |layers|)
  {
    ghost var c, caps, speeds := Counts(layers), Caps(layers, profiles, metrics, spec), Speeds(Ids(layers), profiles);
    candidates := [];
    for i := 0 to |layers|
      invariant Listed(candidates, c, caps, speeds, exclude, i)
    {
      ListedStep(candidates, c, caps, speeds, exclude, i);
      if i == exclude {
        continue;
      }
      var slack := HasSlack(layers, profiles, metrics, spec, i);
      if slack {
        candidates := candidates + [Candidate(profiles[layers[i].id].tgTokS, i)];
      }
    }
  }

  lemma {:induction false} BestCandidate(candidates: seq<Candidate>, c: seq<int>, caps: seq<nat>, speeds: seq<real>, exclude: int)
    requires |c| == |caps| == |speeds| && Listed(candidates, c, caps, speeds, exclude, |c|) && candidates != []
    ensures Sort(Before, candidates) != []
    ensures Repair.FastestDonor(c, caps, speeds, exclude, Sort(Before, candidates)[0].at)
  {
    var sorted := Sort(Before, candidates);
    SortSpec(Before, candidates);
    assert sorted[0] in multiset(sorted);
    forall j | Repair.CanTake(c, caps, exclude, j) ensures Before(sorted[0], Candidate(speeds[j], j)) {
      assert Candidate(speeds[j], j) in multiset(sorted);
    }
  }

  method FindSlackDonor(layers: seq<Slot>, profiles: Profiles, metrics: Metrics, spec: ModelSpec, exclude: nat)
    returns (donor: Option<nat>)
    requires spec.totalLayers != 0 && 0.0 < PerLayerMb(spec) && Known(layers, profiles, metrics)
    ensures var c, caps := Counts(layers), Caps(layers, profiles, metrics, spec);
            match donor
            case None => forall j :: !Repair.CanTake(c, caps, exclude, j)
            case Some(j) => Repair.FastestDonor(c, caps, Speeds(Ids(layers), profiles), exclude, j)
    ensures donor.Some? ==>
              && donor.value < |layers| && donor.value != exclude
              && forall k :: 0 <= k < |layers| && k != exclude && Repair.CanTake(Counts(layers), Caps(layers, profiles, metrics, spec), exclude, k) ==>
                   profiles[layers[k].id].tgTokS <= profiles[layers[donor.value].id].tgTokS
  {
    var candidates := SlackCandidates(layers, profiles, metrics, spec, exclude);
    if candidates == [] {
      return None;
    }
    BestCandidate(candidates, Counts(layers), Caps(layers, profiles, metrics, spec), Speeds(Ids(layers), profiles), exclude);
    return Some(Sort(Before, candidates)[0].at);
  }

  lemma {:induction false} CapsByIds(a: seq<Slot>, b: seq<Slot>, profiles: Profiles, metrics: Metrics, spec: ModelSpec)
    requires spec.totalLayers != 0 && 0.0 < PerLayerMb(spec)
    requires Ids(a) == Ids(b) && Known(a, profiles, metrics)
    ensures Known(b, profiles, metrics)
    ensures Caps(a, profiles, metrics, spec) == Caps(b, profiles, metrics, spec)
  {
    assert |a| == |Ids(a)| == |Ids(b)| == |b|;
    forall i | 0 <= i < |b| ensures a[i].id == b[i].id { assert Ids(a)[i] == Ids(b)[i]; }
  }

  /** `overflowing` and its first entry, read as counts against floor capacities. */
  lemma {:induction false} OverflowingFirst(layers: seq<Slot>, profiles: Profiles, metrics: Metrics, spec: ModelSpec)
    requires spec.totalLayers != 0 && 0.0 < PerLayerMb(spec) && Known(layers, profiles, metrics)
    ensures var r := Overflowing(layers, profiles, metrics, spec, 0);
            var c, caps := Counts(layers), Caps(layers, profiles, metrics, spec);
            if r == [] then Repair.Within(c, caps) else Repair.FirstOver(c, caps, r[0])
  {
    forall i | 0 <= i < |layers|
      ensures OverflowMb(layers[i], profiles, metrics, spec) > 0.0
         <==> Counts(layers)[i] > Caps(layers, profiles, metrics, spec)[i]
    {
      OverflowDecides(layers, profiles, metrics, spec, i);
    }
  }

  /** Take one layer from position `i`, give it to `j`, and renumber. */
  method MoveLayer(before: seq<Slot>, i: nat, j: nat) returns (layers: seq<Slot>, current: seq<Slot>)
    requires Increasing(Ids(before)) && i < |before| && j < |before| && i != j
    requires 1 <= before[i].Count() && forall k :: 0 <= k < |before| ==> 0 <= before[k].Count()
    ensures Ids(layers) == Ids(current) == Ids(before) && Contiguous(current)
    ensures Counts(layers) == Counts(current) == Repair.Moved(Counts(before), i, j)
    ensures forall k :: 0 <= k < |layers| ==> 0 <= layers[k].Count()
  {
    layers := before[i := before[i].(last := before[i].last - 1)];
    layers := layers[j := layers[j].(last := layers[j].last + 1)];
    assert Ids(layers) == Ids(before);
    assert Counts(layers) == Repair.Moved(Counts(before), i, j);
    IncreasingDistinct(Ids(before));
    SortIncreasing(Ids(before));
    current := RenumberContiguous(layers);
    RenumberKeepsCounts(layers, current);
  }

  /** What the repair loop keeps: both views of the dict agree on counts, ranges are contiguous, and
      `trace` leads from the start to here by forced moves. */
  ghost predicate Repairing(ids: seq<string>, start: seq<int>, layers: seq<Slot>, current: seq<Slot>,
                            trace: seq<seq<int>>, caps: seq<nat>, speeds: seq<real>)
  {
    && Ids(layers) == Ids(current) == ids && Counts(layers) == Counts(current) && Contiguous(current)
    && (forall k :: 0 <= k < |layers| ==> 0 <= layers[k].Count())
    && Repair.Trace(trace, caps, speeds) && trace[0] == start && trace[|trace| - 1] == Counts(current)
  }

  /** The useful end of an iteration. */
  method RepairMove(ghost ids: seq<string>, ghost start: seq<int>, before: seq<Slot>, ghost was: seq<Slot>,
                    ghost path: seq<seq<int>>, ghost caps: seq<nat>, ghost speeds: seq<real>, i: nat, j: nat)
    returns (layers: seq<Slot>, current: seq<Slot>, ghost trace: seq<seq<int>>)
    requires Repairing(ids, start, before, was, path, caps, speeds) && Increasing(ids)
    requires i < |before| && j < |before| && |caps| == |speeds| == |before|
    requires Repair.FirstOver(Counts(was), caps, i) && Counts(was)[i] > 1
    requires Repair.FastestDonor(Counts(was), caps, speeds, i, j)
    ensures Ids(layers) == Ids(current) == Ids(before) && Contiguous(current)
    ensures Counts(layers) == Counts(current) == Repair.Moved(Counts(before), i, j)
    ensures Repairing(ids, start, layers, current, trace, caps, speeds) && |trace| == |path| + 1
    ensures !Repair.Final(Counts(was), caps)
  {
    assert Counts(before)[i] == before[i].Count();
    layers, current := MoveLayer(before, i, j);
    Repair.TraceExtend(path, Counts(current), caps, speeds, i, j);
    trace := path + [Counts(current)];
  }

  /** What an iteration of the repair loop does: a move, or nothing, because nothing can be done. */
  ghost predicate Iterated(before: seq<seq<int>>, after: seq<seq<int>>, caps: seq<nat>)
    requires before != [] && |before[|before| - 1]| == |caps|
  {
    if Repair.Final(before[|before| - 1], caps) then after == before else |after| == |before| + 1
  }

  /** One iteration: `stop` is a `break`; the `continue` on a node with one layer changes nothing. */
  method RepairOnce(before: seq<Slot>, was: seq<Slot>, profiles: Profiles, metrics: Metrics, spec: ModelSpec,
                    ghost ids: seq<string>, ghost start: seq<int>, ghost path: seq<seq<int>>)
    returns (layers: seq<Slot>, current: seq<Slot>, stop: bool, ghost trace: seq<seq<int>>)
    requires spec.totalLayers > 0 && 0.0 < PerLayerMb(spec) && Increasing(ids)
    requires Known(before, profiles, metrics) && Ids(before) == ids
    requires Repairing(ids, start, before, was, path, CapsOf(ids, profiles, metrics, spec), Speeds(ids, profiles))
    ensures Repairing(ids, start, layers, current, trace, CapsOf(ids, profiles, metrics, spec), Speeds(ids, profiles))
    ensures Iterated(path, trace, CapsOf(ids, profiles, metrics, spec))
    ensures stop ==> trace == path
    ensures var caps, speeds := CapsOf(ids, profiles, metrics, spec), Speeds(ids, profiles);
            if Repair.Final(Counts(was), caps) then layers == before && current == was
            else !stop && Repair.Move(Counts(was), Counts(current), caps, speeds)
  {
    ghost var caps, speeds := CapsOf(ids, profiles, metrics, spec), Speeds(ids, profiles);
    layers, current, stop, trace := before, was, true, path;
    CapsByIds(before, was, profiles, metrics, spec);
    OverflowingFirst(was, profiles, metrics, spec);
    var overflowing := Overflowing(was, profiles, metrics, spec, 0);
    if overflowing == [] {
      return;
    }
    var i := overflowing[0];
    assert Counts(before)[i] == before[i].Count();
    if before[i].Count() <= 1 {
      assert Repair.Stuck(Counts(was), caps);
      stop := false;
      return;
    }
    var donor := FindSlackDonor(before, profiles, metrics, spec, i);
    if donor.None? {
      assert Repair.Stuck(Counts(was), caps);
      return;
    }
    stop := false;
    layers, current, trace := RepairMove(ids, start, before, was, path, caps, speeds, i, donor.value);
    assert Repair.MoveAt(Counts(was), Counts(current), caps, speeds, i, donor.value);
  }

  /** The repair loop. `trace` is the sequence of counts it goes through, one per move. It ends where
      no move is possible, or by its hard stop. */
  method RepairLoop(a: Assignment, profiles: Profiles, metrics: Metrics, spec: ModelSpec)
    returns (current: seq<Slot>, ghost trace: seq<seq<int>>)
    requires Ready(a.layers, profiles, metrics, spec)
    ensures Ids(current) == Ids(a.layers) && Contiguous(current)
    ensures var caps := Caps(a.layers, profiles, metrics, spec);
            && Repair.Trace(trace, caps, Speeds(Ids(a.layers), profiles))
            && trace[0] == Counts(a.layers) && trace[|trace| - 1] == Counts(current)
            && (|trace| - 1 == spec.totalLayers * |a.layers| || Repair.Final(Counts(current), caps))
  {
    var layers := a.layers;
    current := a.layers;
    ghost var ids, start := Ids(a.layers), Counts(a.layers);
    ghost var caps, speeds := CapsOf(ids, profiles, metrics, spec), Speeds(ids, profiles);
    trace := [start];

    var maxIterations := spec.totalLayers * |a.layers|;
    NonNegativeProduct(spec.totalLayers, |a.layers|);
    for iteration := 0 to maxIterations
      invariant Repairing(ids, start, layers, current, trace, caps, speeds)
      invariant |trace| - 1 == iteration || Repair.Final(Counts(current), caps)
    {
      CapsByIds(a.layers, layers, profiles, metrics, spec);
      var stop;
      layers, current, stop, trace := RepairOnce(layers, current, profiles, metrics, spec, ids, start, trace);
      if stop {
        break;
      }
    }
  }

  /** `_repair`: each move of `trace` is the forced one and the last entry admits no further move, so
      the hard stop of L * n iterations is invisible. */
  method RepairPlan(a: Assignment, profiles: Profiles, metrics: Metrics, spec: ModelSpec)
    returns (out: Assignment, ghost trace: seq<seq<int>>)
    requires Ready(a.layers, profiles, metrics, spec)
    ensures Ids(out.layers) == Ids(a.layers) && Ready(out.layers, profiles, metrics, spec)
    ensures out == a.(layers := out.layers, tensorSplit := Shares(out.layers))
    ensures var caps := Caps(a.layers, profiles, metrics, spec);
            && Repair.Trace(trace, caps, Speeds(Ids(a.layers), profiles))
            && trace[0] == Counts(a.layers) && trace[|trace| - 1] == Counts(out.layers)
            && Repair.Final(Counts(out.layers), caps)
    ensures |trace| - 1 <= spec.totalLayers - 1
  {
    ghost var caps := Caps(a.layers, profiles, metrics, spec);
    var current;
    current, trace := RepairLoop(a, profiles, metrics, spec);
    assert Repair.Counts(trace[0], caps);
    Repair.MovesBounded(trace, caps, Speeds(Ids(a.layers), profiles));
    Repair.TraceKeeps(trace, caps, Speeds(Ids(a.layers), profiles));
    IncreasingDistinct(Ids(a.layers));
    SortIncreasing(Ids(a.layers));
    var finalLayers := RenumberContiguous(current);
    RenumberKeepsCounts(current, finalLayers);
    CapsByIds(a.layers, finalLayers, profiles, metrics, spec);
    out := a.(layers := finalLayers, tensorSplit := Shares(finalLayers));
  }

  // ---- plan() ----

  function ProfileIds(profiles: seq<NodeProfile>): seq<string> {
    seq(|profiles|, i requires 0 <= i < |profiles| => profiles[i].id)
  }

  function MetricIds(metrics: seq<NodeMetrics>): seq<string> {
    seq(|metrics|, i requires 0 <= i < |metrics| => metrics[i].nodeId)
  }

  /** `{p.id: p for p in profiles}`. */
  function ById(profiles: seq<NodeProfile>): (m: Profiles)
    ensures forall id :: id in m ==> m[id] in profiles && m[id].id == id
    ensures forall p :: p in profiles ==> p.id in m
  {
    if profiles == [] then map[] else
    var n := |profiles| - 1;
    assert profiles == profiles[..n] + [profiles[n]];
    ById(profiles[..n])[profiles[n].id := profiles[n]]
  }

  function MetricsById(metrics: seq<NodeMetrics>): (m: Metrics)
    ensures forall id :: id in m ==> m[id] in metrics && m[id].nodeId == id
    ensures forall x :: x in metrics ==> x.nodeId in m
  {
    if metrics == [] then map[] else
    var n := |metrics| - 1;
    assert metrics == metrics[..n] + [metrics[n]];
    MetricsById(metrics[..n])[metrics[n].nodeId := metrics[n]]
  }

  /** Nodes that reported metrics and are not offline. */
  function Usable(profiles: seq<NodeProfile>, metrics: Metrics): (r: seq<NodeProfile>)
    ensures forall p :: p in r <==> p in profiles && p.id in metrics && p.state != Offline
  {
    if profiles == [] then [] else
    var p, rest := profiles[0], Usable(profiles[1..], metrics);
    if p.id in metrics && p.state != Offline then [p] + rest else rest
  }

  lemma {:induction false} UsableDistinct(profiles: seq<NodeProfile>, metrics: Metrics)
    requires Distinct(ProfileIds(profiles))
    ensures Distinct(ProfileIds(Usable(profiles, metrics)))
  {
    if profiles != [] {
      var rest := Usable(profiles[1..], metrics);
      assert ProfileIds(profiles[1..]) == ProfileIds(profiles)[1..];
      UsableDistinct(profiles[1..], metrics);
      forall k | 0 <= k < |rest| ensures rest[k].id != profiles[0].id {
        var j :| 0 <= j < |profiles[1..]| && profiles[1..][j] == rest[k];
        assert ProfileIds(profiles)[0] != ProfileIds(profiles)[j + 1];
      }
      assert ProfileIds([profiles[0]] + rest) == [profiles[0].id] + ProfileIds(rest);
    }
  }

  /** The planned node ids, in the order of every dict the planner builds. */
  function PlannedIds(profiles: seq<NodeProfile>, metrics: Metrics): (ids: seq<string>) {
    Sort(StrLeq, ProfileIds(Usable(profiles, metrics)))
  }

  lemma {:induction false} PlannedIdsSpec(profiles: seq<NodeProfile>, metrics: Metrics)
    requires Distinct(ProfileIds(profiles))
    ensures var usable, ids := Usable(profiles, metrics), PlannedIds(profiles, metrics);
            && Increasing(ids) && |ids| == |usable|
            && forall i :: 0 <= i < |ids| ==> ids[i] in ById(usable) && ids[i] in metrics
  {
    var usable, ids := Usable(profiles, metrics), PlannedIds(profiles, metrics);
    UsableDistinct(profiles, metrics);
    SortIds(ProfileIds(usable));
    forall i | 0 <= i < |ids| ensures ids[i] in ById(usable) && ids[i] in metrics {
      assert ids[i] in ids;
      var j :| 0 <= j < |usable| && ProfileIds(usable)[j] == ids[i];
      assert usable[j] in usable;
    }
  }

  /** Every planned node can be looked up. */
  ghost predicate Lookups(ids: seq<string>, profiles: Profiles, metrics: Metrics) {
    Increasing(ids) && forall i :: 0 <= i < |ids| ==> ids[i] in profiles && ids[i] in metrics
  }

  /** The exact condition for the repaired split to fit, read off the inputs: the pool's floor
      capacities add up to the model, and the speed split gives nothing to a node without room. */
  ghost predicate Placeable(ids: seq<string>, profiles: Profiles, metrics: Metrics, spec: ModelSpec)
    requires Lookups(ids, profiles, metrics) && spec.totalLayers > 0 && 0.0 < PerLayerMb(spec)
    requires RealSum(Speeds(ids, profiles)) > 0.0
  {
    var caps, split := CapsOf(ids, profiles, metrics, spec), SpeedSplit(Speeds(ids, profiles), spec.totalLayers);
    && spec.totalLayers <= Sum(caps)
    && forall i :: 0 <= i < |ids| && caps[i] == 0 ==> split[i] == 0
  }

  /** What a returned assignment promises. */
  ghost predicate Good(a: Assignment, ids: seq<string>, profiles: Profiles, metrics: Metrics, rtts: seq<real>, spec: ModelSpec)
  {
    && Ids(a.layers) == ids && Ready(a.layers, profiles, metrics, spec)
    && (forall i :: 0 <= i < |a.layers| ==>
          FootprintMb(a.layers[i], spec) <= UsableMemMb(profiles[ids[i]], metrics[ids[i]]))
    && a.tensorSplit == Shares(a.layers)
    && a.modelId == spec.modelId && a.nCpuMoe == (map id | id in ids :: 0)
    && Measured(a.layers, profiles) && rtts != []
    && 0.0 < TokenTime(a.layers, profiles, rtts, spec.totalLayers)
    && a.predictedTokS == 1.0 / TokenTime(a.layers, profiles, rtts, spec.totalLayers)
  }

  /** Assign, repair, check and predict for nodes that can be placed on. */
  method PlanFor(ids: seq<string>, profiles: Profiles, metrics: Metrics, rtts: seq<real>, spec: ModelSpec)
    returns (r: Result<Assignment, PlanError>)
    requires Lookups(ids, profiles, metrics) && ids != [] && rtts != []
    requires spec.totalLayers > 0 && 0.0 < PerLayerMb(spec)
    ensures r == Err(NoSpeed) <==> RealSum(Speeds(ids, profiles)) <= 0.0
    ensures RealSum(Speeds(ids, profiles)) > 0.0 ==>
              (r == Err(DoesNotFit) <==> !Placeable(ids, profiles, metrics, spec))
    ensures RealSum(Speeds(ids, profiles)) > 0.0 && Placeable(ids, profiles, metrics, spec) ==>
              (r.Err? && r.error.Prediction? && r.error.cause.Unmeasured?
               <==> exists i :: 0 <= i < |ids| && profiles[ids[i]].tgTokS <= 0.0)
    ensures (forall i :: 0 <= i < |rtts| ==> 0.0 <= rtts[i]) ==> r != Err(Prediction(ZeroTime))
    ensures r != Err(NoNodes) && r != Err(NoMetrics)
    ensures r.Ok? ==> Good(r.value, ids, profiles, metrics, rtts, spec)
  {
    var start := AssignBySpeed(ids, profiles, spec);
    if start.Err? {
      return Err(start.error);
    }
    var initial := start.value;
    StartReady(initial, ids, profiles, metrics, spec);
    var repaired, trace := RepairPlan(initial, profiles, metrics, spec);
    ghost var caps := CapsOf(ids, profiles, metrics, spec);
    Repair.RepairExact(trace, caps, Speeds(ids, profiles));
    FitsMeansWithin(repaired.layers, profiles, metrics, spec);
    SlotIds(repaired.layers, ids);

    var ok := Fits(repaired.layers, profiles, metrics, spec);
    if !ok {
      return Err(DoesNotFit);
    }
    var speed := PredictTokS(repaired.layers, profiles, rtts, spec);
    if speed.Err? {
      if Measured(repaired.layers, profiles) && forall i :: 0 <= i < |rtts| ==> 0.0 <= rtts[i] {
        PredictedSpeedWithinPool(repaired.layers, profiles, rtts, spec.totalLayers);
      }
      return Err(Prediction(speed.error));
    }
    return Ok(repaired.(predictedTokS := speed.value));
  }

  lemma {:induction false} SlotIds(layers: seq<Slot>, ids: seq<string>)
    requires Ids(layers) == ids
    ensures |layers| == |ids| && forall i :: 0 <= i < |ids| ==> layers[i].id == ids[i]
  {
    assert |Ids(layers)| == |layers|;
    forall i | 0 <= i < |ids| ensures layers[i].id == ids[i] { assert Ids(layers)[i] == ids[i]; }
  }

  lemma {:induction false} StartReady(a: Assignment, ids: seq<string>, profiles: Profiles, metrics: Metrics, spec: ModelSpec)
    requires Lookups(ids, profiles, metrics) && ids != []
    requires spec.totalLayers > 0 && 0.0 < PerLayerMb(spec)
    requires RealSum(Speeds(ids, profiles)) > 0.0
    requires Ids(a.layers) == ids && Contiguous(a.layers)
    requires Counts(a.layers) == SpeedSplit(Speeds(ids, profiles), spec.totalLayers)
    ensures Ready(a.layers, profiles, metrics, spec)
    ensures Repair.Counts(Counts(a.layers), Caps(a.layers, profiles, metrics, spec))
  {
    SlotIds(a.layers, ids);
    SpeedSplitSpec(Speeds(ids, profiles), spec.totalLayers);
  }

  lemma {:induction false} FitsMeansWithin(layers: seq<Slot>, profiles: Profiles, metrics: Metrics, spec: ModelSpec)
    requires spec.totalLayers != 0 && 0.0 < PerLayerMb(spec) && Known(layers, profiles, metrics)
    ensures (forall i :: 0 <= i < |layers| ==>
               FootprintMb(layers[i], spec) <= UsableMemMb(profiles[layers[i].id], metrics[layers[i].id]))
       <==> Repair.Within(Counts(layers), Caps(layers, profiles, metrics, spec))
  {
    forall i | 0 <= i < |layers|
      ensures FootprintMb(layers[i], spec) <= UsableMemMb(profiles[layers[i].id], metrics[layers[i].id])
         <==> Counts(layers)[i] <= Caps(layers, profiles, metrics, spec)[i]
    {
      OverflowDecides(layers, profiles, metrics, spec, i);
    }
  }

  method MakePlan(profiles: seq<NodeProfile>, metrics: seq<NodeMetrics>, spec: ModelSpec)
    returns (r: Result<Assignment, PlanError>)
    requires Distinct(ProfileIds(profiles)) && Distinct(MetricIds(metrics))
    requires spec.totalLayers > 0 && 0.0 < PerLayerMb(spec)
    ensures r == Err(NoNodes) <==> profiles == []
    ensures r == Err(NoMetrics) <==> profiles != [] && Usable(profiles, MetricsById(metrics)) == []
    ensures Usable(profiles, MetricsById(metrics)) != [] ==>
              var m := MetricsById(metrics);
              var nodes, ids := ById(Usable(profiles, m)), PlannedIds(profiles, m);
              && Lookups(ids, nodes, m)
              && (r == Err(NoSpeed) <==> RealSum(Speeds(ids, nodes)) <= 0.0)
              && (RealSum(Speeds(ids, nodes)) > 0.0 ==> (r == Err(DoesNotFit) <==> !Placeable(ids, nodes, m, spec)))
              && (RealSum(Speeds(ids, nodes)) > 0.0 && Placeable(ids, nodes, m, spec) ==>
                    (r.Err? && r.error.Prediction? && r.error.cause.Unmeasured?
                     <==> exists i :: 0 <= i < |ids| && nodes[ids[i]].tgTokS <= 0.0))
              && (r.Ok? ==> Good(r.value, ids, nodes, m, Rtts(Usable(profiles, m)), spec))
    ensures (forall p :: p in profiles ==> 0.0 <= p.rttMs) ==> r != Err(Prediction(ZeroTime))
  {
    if profiles == [] {
      return Err(NoNodes);
    }
    var byId := MetricsById(metrics);
    var usable := Usable(profiles, byId);
    if usable == [] {
      return Err(NoMetrics);
    }
    PlannedIdsSpec(profiles, byId);
    r := PlanFor(PlannedIds(profiles, byId), ById(usable), byId, Rtts(usable), spec);
  }

  function Rtts(profiles: seq<NodeProfile>): (r: seq<real>)
    ensures |r| == |profiles| && forall i :: 0 <= i < |r| ==> r[i] == profiles[i].rttMs
  {
    seq(|profiles|, i requires 0 <= i < |profiles| => profiles[i].rttMs)
  }

  /** When memory is the reported failure, either no split of the model fits at all, or one does
      and the repair missed it because a node without room was given a layer it cannot shed. */
  lemma {:induction false} DoesNotFitExplained(ids: seq<string>, profiles: Profiles, metrics: Metrics, spec: ModelSpec)
    requires Lookups(ids, profiles, metrics) && spec.totalLayers > 0 && 0.0 < PerLayerMb(spec)
    requires RealSum(Speeds(ids, profiles)) > 0.0 && !Placeable(ids, profiles, metrics, spec)
    ensures FittingSplit(CapsOf(ids, profiles, metrics, spec), spec.totalLayers) ==>
              exists i :: 0 <= i < |ids| && CapsOf(ids, profiles, metrics, spec)[i] == 0
                          && SpeedSplit(Speeds(ids, profiles), spec.totalLayers)[i] > 0
    ensures !FittingSplit(CapsOf(ids, profiles, metrics, spec), spec.totalLayers)
       <==> Sum(CapsOf(ids, profiles, metrics, spec)) < spec.totalLayers
  {
    Repair.FittingSplitExists(CapsOf(ids, profiles, metrics, spec), spec.totalLayers);
    SpeedSplitSpec(Speeds(ids, profiles), spec.totalLayers);
  }

  ghost predicate FittingSplit(caps: seq<nat>, total: int) {
    exists d :: Repair.Counts(d, caps) && Sum(d) == total && Repair.Within(d, caps)
  }

  /** `Placeable` in closed form, for a caller to check: what the nodes before one without room ask
      for, by speed, already uses up the model. */
  lemma {:induction false} PlaceableClosed(ids: seq<string>, profiles: Profiles, metrics: Metrics, spec: ModelSpec)
    requires Lookups(ids, profiles, metrics) && spec.totalLayers > 0 && 0.0 < PerLayerMb(spec)
    requires RealSum(Speeds(ids, profiles)) > 0.0
    ensures var caps, speeds := CapsOf(ids, profiles, metrics, spec), Speeds(ids, profiles);
            var asks := Asks(speeds, RealSum(speeds), spec.totalLayers);
            Placeable(ids, profiles, metrics, spec) <==>
              && spec.totalLayers <= Sum(caps)
              && forall i :: 0 <= i < |ids| && caps[i] == 0 ==> Sum(asks[..i]) >= spec.totalLayers
  {
    var caps, speeds := CapsOf(ids, profiles, metrics, spec), Speeds(ids, profiles);
    var asks := Asks(speeds, RealSum(speeds), spec.totalLayers);
    forall i | 0 <= i < |ids|
      ensures SpeedSplit(speeds, spec.totalLayers)[i] == 0 <==> Sum(asks[..i]) >= spec.totalLayers
    {
      ServeZero(asks, spec.totalLayers, i);
    }
  }

  /** Exactly when `plan()` reports that the model does not fit although a split fits: the pool is
      large enough, and some node without room comes before the asks have used up the model. */
  lemma {:induction false} MissedFit(ids: seq<string>, profiles: Profiles, metrics: Metrics, spec: ModelSpec)
    requires Lookups(ids, profiles, metrics) && spec.totalLayers > 0 && 0.0 < PerLayerMb(spec)
    requires RealSum(Speeds(ids, profiles)) > 0.0
    ensures var caps, speeds := CapsOf(ids, profiles, metrics, spec), Speeds(ids, profiles);
            var asks := Asks(speeds, RealSum(speeds), spec.totalLayers);
            (!Placeable(ids, profiles, metrics, spec) && FittingSplit(caps, spec.totalLayers)) <==>
              && spec.totalLayers <= Sum(caps)
              && exists i :: 0 <= i < |ids| && caps[i] == 0 && Sum(asks[..i]) < spec.totalLayers
  {
    PlaceableClosed(ids, profiles, metrics, spec);
    Repair.FittingSplitExists(CapsOf(ids, profiles, metrics, spec), spec.totalLayers);
  }

  /** A returned plan's predicted speed is positive and at most that of the fastest node holding
      layers; with zero round-trip times it is at least that of the slowest. */
  lemma {:induction false} PlanSpeedWithinPool(a: Assignment, ids: seq<string>, profiles: Profiles, metrics: Metrics,
                                               rtts: seq<real>, spec: ModelSpec)
    requires Good(a, ids, profiles, metrics, rtts, spec) && forall i :: 0 <= i < |rtts| ==> 0.0 <= rtts[i]
    ensures 0.0 < a.predictedTokS
    ensures exists k :: 0 <= k < |a.layers| && a.layers[k].Count() > 0
                        && a.predictedTokS <= profiles[a.layers[k].id].tgTokS
    ensures (forall i :: 0 <= i < |rtts| ==> rtts[i] == 0.0) ==>
              exists k :: 0 <= k < |a.layers| && a.layers[k].Count() > 0
                          && profiles[a.layers[k].id].tgTokS <= a.predictedTokS
  {
    PredictedSpeedWithinPool(a.layers, profiles, rtts, spec.totalLayers);
  }

  /** In a returned plan every node that holds a layer has it, its KV cache and the compute overhead in
      its RAM, plus its VRAM unless it is a Metal node. */
  lemma {:induction false} PlanWithinMemory(a: Assignment, ids: seq<string>, profiles: Profiles, metrics: Metrics,
                                            rtts: seq<real>, spec: ModelSpec, i: nat)
    requires Good(a, ids, profiles, metrics, rtts, spec) && i < |a.layers| && a.layers[i].Count() > 0
    ensures a.layers[i].id in profiles && a.layers[i].id in metrics
    ensures var p, m, mb := profiles[a.layers[i].id], metrics[a.layers[i].id], FootprintMb(a.layers[i], spec);
            && (p.backend == "metal" || m.vramFreeMb.None? ==> mb + 1600.0 <= m.ramFreeMb as real)
            && (p.backend != "metal" && m.vramFreeMb.Some? ==> mb + 1600.0 <= (m.ramFreeMb + m.vramFreeMb.value) as real)
  {
    SlotIds(a.layers, ids);
    FootprintRoom(a.layers[i], profiles[ids[i]], metrics[ids[i]], spec);
  }

  /** What a node's capacity means, for a caller to check: the layers that fit its memory beside the
      compute overhead. */
  lemma {:induction false} CapsExact(ids: seq<string>, profiles: Profiles, metrics: Metrics, spec: ModelSpec, i: nat, k: int)
    requires Lookups(ids, profiles, metrics) && spec.totalLayers > 0 && 0.0 < PerLayerMb(spec) && i < |ids| && 0 < k
    ensures var p, m, mb := profiles[ids[i]], metrics[ids[i]], k as real * PerLayerMb(spec);
            && (p.backend == "metal" || m.vramFreeMb.None? ==>
                  (k <= CapsOf(ids, profiles, metrics, spec)[i] <==> mb + 1600.0 <= m.ramFreeMb as real))
            && (p.backend != "metal" && m.vramFreeMb.Some? ==>
                  (k <= CapsOf(ids, profiles, metrics, spec)[i] <==>
                   mb + 1600.0 <= (m.ramFreeMb + m.vramFreeMb.value) as real))
  {
    RoomFor(profiles[ids[i]], metrics[ids[i]], PerLayerMb(spec), k);
  }

  /** The time per token a plan predicts, beyond the stages' own, is one average round trip for every
      hop between neighbours. */
  lemma {:induction false} PlanNetworkTime(a: Assignment, ids: seq<string>, profiles: Profiles, metrics: Metrics,
                                           rtts: seq<real>, spec: ModelSpec)
    requires Good(a, ids, profiles, metrics, rtts, spec)
    ensures a.layers != [] && a.predictedTokS != 0.0
    ensures (1.0 / a.predictedTokS - RealSum(StageTimes(a.layers, profiles, spec.totalLayers))) * 1000.0 * |rtts| as real
         == (|a.layers| - 1) as real * RealSum(rtts)
  {
    var t := TokenTime(a.layers, profiles, rtts, spec.totalLayers);
    DoubleReciprocal(t);
    NetworkTimeExact(|a.layers| - 1, rtts);
  }

  lemma {:induction false} DoubleReciprocal(t: real)
    requires t > 0.0
    ensures 1.0 / t != 0.0 && 1.0 / (1.0 / t) == t
  {
    var q := 1.0 / t;
    assert q * t == 1.0;
  }

  // ---- an input of plan() that shows the gap ----

  /** Node "a" has no room once the overhead is taken off; node "b" has room for all three layers. */
  const PROFILES := [NodeProfile("a", "", "cpu", 1.0, 0.0, Idle), NodeProfile("b", "", "cpu", 2.0, 0.0, Idle)]
  const METRICS := [NodeMetrics("a", 1600, None, 0), NodeMetrics("b", 1900, None, 0)]
  const SPEC := ModelSpec("m", 3, 300.0, 0.0)

  lemma {:induction false} ExampleIds()
    ensures Distinct(ProfileIds(PROFILES)) && Distinct(MetricIds(METRICS))
    ensures Usable(PROFILES, MetricsById(METRICS)) == PROFILES
    ensures PlannedIds(PROFILES, MetricsById(METRICS)) == ["a", "b"]
  {
    var m := MetricsById(METRICS);
    assert METRICS[0] in METRICS && METRICS[1] in METRICS;
    assert "a" in m && "b" in m;
    assert PROFILES[1..] == [PROFILES[1]] && PROFILES[1..][1..] == [];
    assert Usable(PROFILES[1..], m) == [PROFILES[1]];
    assert ProfileIds(PROFILES) == ["a", "b"];
    assert ["a", "b"][1..] == ["b"] && ["b"][1..] == [];
    assert Sort(StrLeq, ["b"]) == ["b"];
    assert StrLess("a", "b");
  }

  lemma {:induction false} ExampleMaps()
    ensures var m, p := MetricsById(METRICS), ById(PROFILES);
            "a" in m && "b" in m && m["a"] == METRICS[0] && m["b"] == METRICS[1]
            && "a" in p && "b" in p && p["a"] == PROFILES[0] && p["b"] == PROFILES[1]
  {
    assert METRICS[..1] == [METRICS[0]] && METRICS[..1][..0] == [];
    assert PROFILES[..1] == [PROFILES[0]] && PROFILES[..1][..0] == [];
  }

  lemma {:induction false} ExampleCaps(p: Profiles, m: Metrics)
    requires "a" in m && "b" in m && m["a"] == METRICS[0] && m["b"] == METRICS[1]
    requires "a" in p && "b" in p && p["a"] == PROFILES[0] && p["b"] == PROFILES[1]
    ensures SPEC.totalLayers > 0 && PerLayerMb(SPEC) == 100.0
    ensures CapsOf(["a", "b"], p, m, SPEC) == [0, 3]
    ensures RealSum(Speeds(["a", "b"], p)) == 3.0
  {
    assert PerLayerMb(SPEC) == 100.0;
    assert UsableMemMb(p["a"], m["a"]) == 0.0 && UsableMemMb(p["b"], m["b"]) == 300.0;
    assert (300.0 / 100.0).Floor == 3;
    var speeds := Speeds(["a", "b"], p);
    assert speeds == [1.0, 2.0] && speeds[1..] == [2.0] && speeds[1..][1..] == [];
    assert RealSum([2.0]) == 2.0 + RealSum([]);
    assert RealSum(speeds) == 1.0 + RealSum(speeds[1..]);
  }

  /** An input of `plan()` on which it reports that the model does not fit although it does. */
  lemma {:induction false} PlanMissesFit()
    ensures Distinct(ProfileIds(PROFILES)) && Distinct(MetricIds(METRICS))
    ensures var m := MetricsById(METRICS);
            var nodes, ids := ById(Usable(PROFILES, m)), PlannedIds(PROFILES, m);
            && Usable(PROFILES, m) != [] && Lookups(ids, nodes, m)
            && SPEC.totalLayers > 0 && 0.0 < PerLayerMb(SPEC) && RealSum(Speeds(ids, nodes)) > 0.0
            && !Placeable(ids, nodes, m, SPEC)
            && FittingSplit(CapsOf(ids, nodes, m, SPEC), SPEC.totalLayers)
  {
    ExampleIds();
    ExampleMaps();
    var m, p, ids := MetricsById(METRICS), ById(PROFILES), ["a", "b"];
    ExampleCaps(p, m);
    StrOrder();
    assert Increasing(ids) by { assert StrLess("a", "b"); }
    MissedFit(ids, p, m, SPEC);
    var caps: seq<nat> := [0, 3];
    assert caps[1..] == [3] && caps[1..][1..] == [];
    assert Sum(caps) == 3;
    assert Asks(Speeds(ids, p), 3.0, 3)[..0] == [];
  }
}
