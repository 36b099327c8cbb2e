/** infer/launch.py: the head command line a placement drives. */
module Launch {
  import opened Contracts
  import opened Cost
  import opened Numbers
  import opened Ordering
  import Plan

  datatype Member = Member(nodeId: string, host: string, isHead: bool)

  datatype LaunchError = NotOneHead | TooFewWorkers | Stale

  /** The parts of the llama-server argv that depend on membership and placement. `rpc` lists
      the worker hosts in `--rpc` order; `split` is `--tensor-split`, or None for `--fit on`. */
  datatype Command = Command(headHost: string, rpc: seq<string>, split: Option<seq<real>>, cpuMoe: Option<int>)

  function MemberIds(members: seq<Member>): seq<string> {
    seq(|members|, i requires 0 <= i < |members| => members[i].nodeId)
  }

  function Hosts(members: seq<Member>): seq<string> {
    seq(|members|, i requires 0 <= i < |members| => members[i].host)
  }

  function Heads(members: seq<Member>): seq<Member> {
    if members == [] then []
    else if members[0].isHead then [members[0]] + Heads(members[1..]) else Heads(members[1..])
  }

  function Workers(members: seq<Member>): (w: seq<Member>)
    ensures forall m :: m in w ==> !m.isHead
  {
    if members == [] then []
    else if members[0].isHead then Workers(members[1..]) else [members[0]] + Workers(members[1..])
  }

  lemma {:induction false} SplitKeepsMembers(members: seq<Member>)
    ensures multiset(members) == multiset(Heads(members) + Workers(members))
  {
    if members != [] {
      SplitKeepsMembers(members[1..]);
      assert members == [members[0]] + members[1..];
    }
  }

  /** The device order of `--tensor-split`: the head, then the workers in `--rpc` order. */
  function Devices(members: seq<Member>): seq<Member> {
    Heads(members) + Workers(members)
  }

  /** `_assert_plan_matches_membership`: as many shares as members, and the same id set. */
  predicate Matches(placement: Assignment, members: seq<Member>) {
    && |placement.tensorSplit| == |members|
    && (set id | id in Ids(placement.layers)) == (set id | id in MemberIds(members))
  }

  /** `list(placement.layers).index(id)`. */
  function IndexOf(layers: seq<Slot>, id: string): (i: nat)
    requires id in Ids(layers)
    ensures i < |layers| && layers[i].id == id
  {
    if layers[0].id == id then 0 else
    assert Ids(layers) == [layers[0].id] + Ids(layers[1..]);
    1 + IndexOf(layers[1..], id)
  }

  function DeviceShares(placement: Assignment, devices: seq<Member>): seq<real>
    requires |placement.layers| <= |placement.tensorSplit|
    requires forall k :: 0 <= k < |devices| ==> devices[k].nodeId in Ids(placement.layers)
  {
    seq(|devices|, k requires 0 <= k < |devices| =>
      placement.tensorSplit[IndexOf(placement.layers, devices[k].nodeId)])
  }

  method LlamaServerCommand(members: seq<Member>, minWorkers: int, placement: Option<Assignment>)
    returns (r: Result<Command, LaunchError>)
    requires placement.Some? ==> Distinct(Ids(placement.value.layers))
    ensures r == Err(NotOneHead) <==> |Heads(members)| != 1
    ensures |Heads(members)| == 1 ==> (r == Err(TooFewWorkers) <==> |Workers(members)| < minWorkers)
    ensures |Heads(members)| == 1 && |Workers(members)| >= minWorkers ==>
              (r == Err(Stale) <==> placement.Some? && !Matches(placement.value, members))
    ensures |Heads(members)| == 1 && |Workers(members)| >= minWorkers && placement.Some? ==>
              (r == Err(Stale) <==>
                || |placement.value.tensorSplit| != |members|
                || exists id :: id in Ids(placement.value.layers) <==> id !in MemberIds(members))
    ensures |Heads(members)| == 1 && |Workers(members)| >= minWorkers && placement.Some?
              && |placement.value.tensorSplit| == |placement.value.layers| ==>
              (r == Err(Stale) <==> multiset(MemberIds(members)) != multiset(Ids(placement.value.layers)))
    ensures r.Ok? ==>
              && [r.value.headHost] + r.value.rpc == Hosts(Devices(members))
              && (placement.None? <==> r.value.split.None?)
              && (placement.None? ==> r.value.cpuMoe.None?)
    ensures r.Ok? && placement.Some? ==>
              var head, moe := Heads(members)[0].nodeId, placement.value.nCpuMoe;
              r.value.cpuMoe == if head in moe then Some(moe[head]) else None
    ensures r.Ok? && placement.Some? ==>
              && (forall k :: 0 <= k < |Devices(members)| ==> Devices(members)[k].nodeId in Ids(placement.value.layers))
              && |placement.value.layers| <= |placement.value.tensorSplit|
              && r.value.split == Some(DeviceShares(placement.value, Devices(members)))
  {
    var heads, workers := Heads(members), Workers(members);
    if |heads| != 1 {
      return Err(NotOneHead);
    }
    if |workers| < minWorkers {
      return Err(TooFewWorkers);
    }
    var head := heads[0];
    var command := Command(head.host, Hosts(workers), None, None);
    assert [head.host] + Hosts(workers) == Hosts([head] + workers);
    if placement.None? {
      return Ok(command);
    }
    MatchesMeans(placement.value, members);
    if |placement.value.tensorSplit| == |placement.value.layers| { StaleExactly(placement.value, members); }
    if !Matches(placement.value, members) {
      return Err(Stale);
    }
    DevicesPlanned(placement.value, members);
    assert Devices(members) == [head] + workers;
    command := command.(split := Some(DeviceShares(placement.value, [head] + workers)));
    if head.nodeId in placement.value.nCpuMoe {
      command := command.(cpuMoe := Some(placement.value.nCpuMoe[head.nodeId]));
    }
    return Ok(command);
  }

  lemma {:induction false} DevicesPlanned(placement: Assignment, members: seq<Member>)
    requires Matches(placement, members) && Distinct(Ids(placement.layers))
    ensures |Devices(members)| == |members|
    ensures |placement.layers| <= |placement.tensorSplit|
    ensures forall k :: 0 <= k < |Devices(members)| ==> Devices(members)[k].nodeId in Ids(placement.layers)
  {
    SplitKeepsMembers(members);
    var d := Devices(members);
    assert |multiset(d)| == |multiset(members)|;
    DistinctCardinality(Ids(placement.layers));
    DistinctByCardinality(MemberIds(members));
    var planned, live := set id | id in Ids(placement.layers), set id | id in MemberIds(members);
    forall k | 0 <= k < |d| ensures d[k].nodeId in Ids(placement.layers) {
      assert d[k] in multiset(d) && d[k] in members;
      var j :| 0 <= j < |members| && members[j] == d[k];
      assert MemberIds(members)[j] == d[k].nodeId;
      assert d[k].nodeId in live && d[k].nodeId in planned;
    }
  }

  /** Members that pass the staleness check are the planned nodes, each exactly once. */
  lemma {:induction false} MembersArePlannedNodes(placement: Assignment, members: seq<Member>)
    requires Matches(placement, members) && Distinct(Ids(placement.layers))
    requires |placement.tensorSplit| == |placement.layers|
    ensures Distinct(MemberIds(members))
    ensures multiset(MemberIds(members)) == multiset(Ids(placement.layers))
    ensures multiset(MemberIds(Devices(members))) == multiset(Ids(placement.layers))
  {
    var ids, live := Ids(placement.layers), MemberIds(members);
    DistinctCardinality(ids);
    DistinctByCardinality(live);
    SameElements(ids, live);
    SplitKeepsMembers(members);
    IdsOfPermutation(members, Devices(members));
  }

  /** The staleness check passes exactly on the planned ids, whatever their order. */
  lemma {:induction false} MatchesMeans(placement: Assignment, members: seq<Member>)
    ensures Matches(placement, members) <==>
            && |placement.tensorSplit| == |members|
            && !exists id :: id in Ids(placement.layers) <==> id !in MemberIds(members)
  {
    var planned, live := set id | id in Ids(placement.layers), set id | id in MemberIds(members);
    assert forall id :: id in planned <==> id in Ids(placement.layers);
    assert forall id :: id in live <==> id in MemberIds(members);
    if planned == live {
      forall id ensures !(id in Ids(placement.layers) <==> id !in MemberIds(members)) {
        assert id in planned <==> id in live;
      }
    }
  }

  /** With one share per planned node, the check passes exactly if the members are a permutation of
      the planned nodes. */
  lemma {:induction false} StaleExactly(placement: Assignment, members: seq<Member>)
    requires Distinct(Ids(placement.layers)) && |placement.tensorSplit| == |placement.layers|
    ensures Matches(placement, members) <==> multiset(MemberIds(members)) == multiset(Ids(placement.layers))
  {
    var ids, live := Ids(placement.layers), MemberIds(members);
    if Matches(placement, members) {
      MembersArePlannedNodes(placement, members);
    } else if multiset(live) == multiset(ids) {
      assert |multiset(live)| == |multiset(ids)|;
      assert forall id :: id in ids <==> id in multiset(ids);
      assert forall id :: id in live <==> id in multiset(live);
      MatchesMeans(placement, members);
    }
  }

  lemma {:induction false} SameElements(a: seq<string>, b: seq<string>)
    requires Distinct(a) && Distinct(b) && (set x | x in a) == (set x | x in b)
    ensures multiset(a) == multiset(b)
  {
    var sa, sb := set x | x in a, set x | x in b;
    forall x ensures multiset(a)[x] == multiset(b)[x] {
      DistinctCount(a, x);
      DistinctCount(b, x);
      assert x in a <==> x in sa;
      assert x in b <==> x in sb;
    }
  }

  lemma {:induction false} IdsOfPermutation(a: seq<Member>, b: seq<Member>)
    requires multiset(a) == multiset(b)
    ensures multiset(MemberIds(a)) == multiset(MemberIds(b))
  {
    if a == [] {
      assert |multiset(b)| == 0;
    } else {
      assert a[0] in multiset(b);
      var j :| 0 <= j < |b| && b[j] == a[0];
      var rest := b[..j] + b[j + 1..];
      PermutationTail(a, b, j);
      IdsOfPermutation(a[1..], rest);
      assert MemberIds(a) == [a[0].nodeId] + MemberIds(a[1..]);
      assert MemberIds(b) == MemberIds(b[..j]) + [b[j].nodeId] + MemberIds(b[j + 1..]);
      assert MemberIds(rest) == MemberIds(b[..j]) + MemberIds(b[j + 1..]);
    }
  }

  /** Sum of `f` over a list of ids. */
  ghost function SumOver(f: string -> real, ids: seq<string>): real {
    if ids == [] then 0.0 else f(ids[0]) + SumOver(f, ids[1..])
  }

  lemma {:induction false} SumOverInsert(f: string -> real, a: seq<string>, x: string, b: seq<string>)
    ensures SumOver(f, a + [x] + b) == f(x) + SumOver(f, a + b)
  {
    if a == [] {
      assert [] + [x] + b == [x] + b && [] + b == b;
    } else {
      SumOverInsert(f, a[1..], x, b);
      assert (a + [x] + b)[1..] == a[1..] + [x] + b && (a + b)[1..] == a[1..] + b;
    }
  }

  lemma {:induction false} SumOverPermutation(f: string -> real, a: seq<string>, b: seq<string>)
    requires multiset(a) == multiset(b)
    ensures SumOver(f, a) == SumOver(f, b)
  {
    if a == [] {
      assert |multiset(b)| == 0;
    } else {
      assert a[0] in multiset(b);
      var j :| 0 <= j < |b| && b[j] == a[0];
      var rest := b[..j] + b[j + 1..];
      PermutationTail(a, b, j);
      SumOverPermutation(f, a[1..], rest);
      SumOverInsert(f, b[..j], b[j], b[j + 1..]);
    }
  }

  lemma {:induction false} SumOverIsSum(f: string -> real, ids: seq<string>, values: seq<real>)
    requires |ids| == |values| && forall i :: 0 <= i < |ids| ==> values[i] == f(ids[i])
    ensures SumOver(f, ids) == RealSum(values)
  {
    if ids != [] { SumOverIsSum(f, ids[1..], values[1..]); }
  }

  /** The rounded share of the model that the plan puts on `id`. */
  function PlannedShare(layers: seq<Slot>, id: string): real {
    var total := Sum(Counts(layers));
    if total == 0 then 0.0 else Plan.Share(Plan.CountOf(layers, id), total)
  }

  /** Plan and launch agree by position: for any plan and any membership that passes the staleness
      check, in whatever order, the k-th share on the command line is the planned share of the k-th
      device (head first, then the `--rpc` order), and the shares still sum to one. */
  lemma {:induction false} ShareFollowsDevice(a: Assignment, members: seq<Member>)
    requires Distinct(Ids(a.layers)) && a.tensorSplit == Plan.Shares(a.layers) && Matches(a, members)
    requires forall k :: 0 <= k < |Devices(members)| ==> Devices(members)[k].nodeId in Ids(a.layers)
    ensures var devices := Devices(members);
            var shares := DeviceShares(a, devices);
            && |shares| == |members|
            && (forall k :: 0 <= k < |shares| ==> shares[k] == PlannedShare(a.layers, devices[k].nodeId))
            && RealSum(shares) == RealSum(a.tensorSplit)
            && (Sum(Counts(a.layers)) > 0 ==>
                  1.0 - |members| as real * 0.00005 <= RealSum(shares) <= 1.0 + |members| as real * 0.00005)
  {
    var devices, ids := Devices(members), Ids(a.layers);
    var shares := DeviceShares(a, devices);
    DevicesPlanned(a, members);
    var f := id => PlannedShare(a.layers, id);
    forall i | 0 <= i < |ids| ensures a.tensorSplit[i] == f(ids[i]) { Plan.CountOfAt(a.layers, i); }
    forall k | 0 <= k < |shares| ensures shares[k] == f(MemberIds(devices)[k]) {
      var i := IndexOf(a.layers, devices[k].nodeId);
      assert ids[i] == devices[k].nodeId;
    }
    MembersArePlannedNodes(a, members);
    SumOverPermutation(f, MemberIds(devices), ids);
    SumOverIsSum(f, MemberIds(devices), shares);
    SumOverIsSum(f, ids, a.tensorSplit);
    if Sum(Counts(a.layers)) > 0 { Plan.SharesSumToOne(a.layers); }
  }
}
