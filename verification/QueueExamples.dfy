/** Two runs of the queue that end somewhere a caller might not expect. */
module QueueExamples {
  import opened Contracts
  import opened Ordering
  import opened Queue
  import opened QueueInvariants
  import opened QueueRuns
  import P = Payload

  /** What the queue's one job is given. */
  datatype Setup = Setup(kind: Kind, nodes: set<string>, pinned: Option<string>, selected: seq<string>)

  /** Some run of a queue with one permit per node leads to `s`. */
  ghost predicate Reached(s: State) {
    exists acts :: Runnable(Init(1), acts) && Run(Init(1), acts) == s
  }

  lemma {:induction false} Replay(s: State) returns (acts: seq<Action>)
    requires Reached(s)
    ensures Runnable(Init(1), acts) && Run(Init(1), acts) == s
  {
    acts :| Runnable(Init(1), acts) && Run(Init(1), acts) == s;
  }

  lemma {:induction false} ReachedInv(s: State)
    requires Reached(s)
    ensures Inv(s)
  {
    var acts :| Runnable(Init(1), acts) && Run(Init(1), acts) == s;
    InitInv(1);
    RunInv(Init(1), acts);
  }

  lemma {:induction false} RunSnoc(s: State, acts: seq<Action>, a: Action)
    requires Runnable(s, acts) && Enabled(Run(s, acts), a) && Wired(Run(s, acts)) && Wired(Apply(Run(s, acts), a))
    ensures Runnable(s, acts + [a]) && Run(s, acts + [a]) == Apply(Run(s, acts), a)
    decreases |acts|
  {
    if acts == [] {
      assert acts + [a] == [a] && [a][1..] == [];
    } else {
      RunSnoc(Apply(s, acts[0]), acts[1..], a);
      assert (acts + [a])[1..] == acts[1..] + [a];
    }
  }

  lemma {:induction false} Next(s: State, a: Action) returns (t: State)
    requires Reached(s) && Enabled(s, a)
    ensures Wired(s) && t == Apply(s, a) && Reached(t)
  {
    ReachedInv(s);
    var acts :| Runnable(Init(1), acts) && Run(Init(1), acts) == s;
    t := Apply(s, a);
    InvKept(s, a);
    RunSnoc(Init(1), acts, a);
  }

  /** The one job is running, and its shards are `shards`. */
  ghost predicate Stage(s: State, u: Setup, shards: seq<Shard>) {
    && s.limit == 1 && !s.closed && s.available == u.nodes && s.shards == shards && |s.jobs| == 1
    && var job := s.jobs[0];
    && job.status == Running && job.base == 0 && job.kind == u.kind && |job.chunks| == |shards|
    && job.pinned == u.pinned && job.selected == u.selected
    && forall k :: 0 <= k < |shards| ==> shards[k].job == 0 && shards[k].index == k
  }

  function Fresh(u: Setup): seq<Shard> {
    seq(|u.selected|, k requires 0 <= k < |u.selected| => Shard(0, k, map[], u.selected[k], 0, {}, Waiting))
  }

  lemma {:induction false} Begin(u: Setup) returns (s: State)
    requires u.selected != []
    requires if u.pinned.Some? then u.pinned.value in u.nodes && u.selected == [u.pinned.value]
             else LeadsRanking(Init(1).(available := u.nodes), u.selected)
    ensures Reached(s) && Stage(s, u, Fresh(u))
  {
    assert Runnable(Init(1), []) && Run(Init(1), []) == Init(1);
    s := Next(Init(1), SetNodes(u.nodes, map[]));
    assert s == Init(1).(available := u.nodes);
    var submit := Submit(u.kind, map[], |u.selected|, u.pinned, u.selected);
    assert P.Shards(map[], |u.selected|) == seq(|u.selected|, k => map[]);
    s := Next(s, submit);
    s := BeginStart(s, u);
  }

  lemma {:induction false} BeginStart(s: State, u: Setup) returns (t: State)
    requires Reached(s) && s.limit == 1 && !s.closed && s.available == u.nodes && s.shards == [] && |s.jobs| == 1
    requires var job := s.jobs[0];
             && job.status == Queued && job.kind == u.kind && job.pinned == u.pinned && job.selected == u.selected
             && job.chunks == seq(|u.selected|, k => map[])
    ensures Reached(t) && Stage(t, u, Fresh(u))
  {
    t := Next(s, Start(0));
    assert NewShards(s, 0) == Fresh(u);
    assert t.shards == [] + NewShards(s, 0);
  }

  lemma {:induction false} NoneBusy(shards: seq<Shard>, n: string)
    requires forall k :: 0 <= k < |shards| ==> !shards[k].phase.InRequest?
    ensures Busy(shards, n) == 0
  {
    if shards != [] { NoneBusy(shards[1..], n); }
  }

  lemma {:induction false} Send(s: State, u: Setup, shards: seq<Shard>, i: nat)
    returns (t: State)
    requires Reached(s) && Stage(s, u, shards)
    requires i < |shards| && shards[i].phase.Waiting? && shards[i].node in u.nodes
    requires forall k :: 0 <= k < |shards| ==> !shards[k].phase.InRequest?
    ensures Reached(t) && Stage(t, u, shards[i := shards[i].(phase := InRequest)])
  {
    ReachedInv(s);
    NoneBusy(shards, shards[i].node);
    assert BalancedAt(s, shards[i].node);
    var next := NextExists(s, i);
    t := Next(s, Acquire(i, next));
  }

  lemma {:induction false} Answer(s: State, u: Setup, shards: seq<Shard>, i: nat)
    returns (t: State)
    requires Reached(s) && Stage(s, u, shards) && i < |shards| && shards[i].phase.InRequest?
    ensures Reached(t) && Stage(t, u, shards[i := shards[i].(phase := Finished)])
  {
    var next := NextExists(Release(s, shards[i].node), i);
    t := Next(s, Respond(i, Success, next));
  }

  lemma {:induction false} FailOnce(s: State, u: Setup, shards: seq<Shard>, i: nat)
    returns (t: State)
    requires Reached(s) && Stage(s, u, shards)
    requires i < |shards| && shards[i].phase.InRequest? && shards[i].attempt == 0
    ensures Reached(t) && Stage(t, u, shards[i := shards[i].(attempt := 1, phase := Waiting)])
  {
    var next := NextExists(Release(s, shards[i].node), i);
    t := Next(s, Respond(i, Transient, next));
  }

  /** The second failure on the only other node's rival moves the shard there. */
  lemma {:induction false} FailTwice(s: State, u: Setup, shards: seq<Shard>,
                                     i: nat, other: string)
    returns (t: State)
    requires Reached(s) && Stage(s, u, shards)
    requires i < |shards| && shards[i].phase.InRequest? && shards[i].attempt == 1 && shards[i].attempted == {}
    requires u.nodes == {shards[i].node, other} && other != shards[i].node
    ensures Reached(t)
    ensures Stage(t, u,
                  shards[i := shards[i].(attempted := {shards[i].node}, node := other, attempt := 0, phase := Waiting)])
  {
    var sh := shards[i];
    var tried := sh.attempted + {sh.node};
    assert tried == {sh.node} && u.nodes - tried == {other};
    RankingTotal(Release(s, sh.node), other, other, other);
    t := Next(s, Respond(i, Transient, other));
  }

  lemma {:induction false} Conclude(s: State, u: Setup, shards: seq<Shard>)
    returns (t: State)
    requires Reached(s) && Stage(s, u, shards)
    requires forall k :: 0 <= k < |shards| ==> shards[k].phase.Finished?
    ensures Reached(t) && |t.jobs| == 1
    ensures var job := t.jobs[0];
            && job.status == Done && job.kind == u.kind && job.pinned == u.pinned && job.selected == u.selected
            && |job.results| == |shards| && forall k :: 0 <= k < |shards| ==> job.results[k].node == shards[k].node
  {
    assert JobShards(s, 0) == shards;
    AllFinished(shards);
    ResultsWhenAllFinished(shards);
    t := Next(s, Finish(0, true));
  }

  lemma {:induction false} AllFinished(shards: seq<Shard>)
    requires forall k :: 0 <= k < |shards| ==> shards[k].phase.Finished?
    ensures Errors(shards) == []
  {
    if shards != [] { AllFinished(shards[1..]); }
  }

  lemma {:induction false} SetTwice(shards: seq<Shard>, i: nat, a: Shard, b: Shard)
    requires i < |shards|
    ensures shards[i := a][i := b] == shards[i := b]
  {
  }

  lemma {:induction false} SetInPair(x: Shard, y: Shard, z: Shard)
    ensures [x][0 := z] == [z] && [x, y][0 := z] == [z, y] && [x, y][1 := z] == [x, z]
  {
  }

  lemma {:induction false} SendAndAnswer(s: State, u: Setup, shards: seq<Shard>, i: nat) returns (t: State)
    requires Reached(s) && Stage(s, u, shards)
    requires i < |shards| && shards[i].phase.Waiting? && shards[i].node in u.nodes
    requires forall k :: 0 <= k < |shards| ==> !shards[k].phase.InRequest?
    ensures Reached(t) && Stage(t, u, shards[i := shards[i].(phase := Finished)])
  {
    var busy := shards[i := shards[i].(phase := InRequest)];
    t := Send(s, u, shards, i);
    t := Answer(t, u, busy, i);
    SetTwice(shards, i, busy[i], shards[i].(phase := Finished));
  }

  lemma {:induction false} SendAndFail(s: State, u: Setup, shards: seq<Shard>, i: nat) returns (t: State)
    requires Reached(s) && Stage(s, u, shards)
    requires i < |shards| && shards[i].phase.Waiting? && shards[i].attempt == 0 && shards[i].node in u.nodes
    requires forall k :: 0 <= k < |shards| ==> !shards[k].phase.InRequest?
    ensures Reached(t) && Stage(t, u, shards[i := shards[i].(attempt := 1)])
  {
    var busy := shards[i := shards[i].(phase := InRequest)];
    t := Send(s, u, shards, i);
    t := FailOnce(t, u, busy, i);
    SetTwice(shards, i, busy[i], shards[i].(attempt := 1));
  }

  lemma {:induction false} SendAndLeave(s: State, u: Setup, shards: seq<Shard>, i: nat, other: string) returns (t: State)
    requires Reached(s) && Stage(s, u, shards)
    requires i < |shards| && shards[i].phase.Waiting? && shards[i].attempt == 1 && shards[i].attempted == {}
    requires forall k :: 0 <= k < |shards| ==> !shards[k].phase.InRequest?
    requires u.nodes == {shards[i].node, other} && other != shards[i].node
    ensures Reached(t)
    ensures Stage(t, u, shards[i := shards[i].(attempted := {shards[i].node}, node := other, attempt := 0)])
  {
    var busy := shards[i := shards[i].(phase := InRequest)];
    t := Send(s, u, shards, i);
    t := FailTwice(t, u, busy, i, other);
    SetTwice(shards, i, busy[i], shards[i].(attempted := {shards[i].node}, node := other, attempt := 0));
  }

  /** A shard that fails twice moves to the only other node. */
  lemma {:induction false} SendAndMove(s: State, u: Setup, shards: seq<Shard>, i: nat, other: string) returns (t: State)
    requires Reached(s) && Stage(s, u, shards)
    requires i < |shards| && shards[i].phase.Waiting? && shards[i].attempt == 0 && shards[i].attempted == {}
    requires forall k :: 0 <= k < |shards| ==> !shards[k].phase.InRequest?
    requires u.nodes == {shards[i].node, other} && other != shards[i].node
    ensures Reached(t) && Stage(t, u, shards[i := shards[i].(attempted := {shards[i].node}, node := other)])
  {
    var again := shards[i := shards[i].(attempt := 1)];
    t := SendAndFail(s, u, shards, i);
    t := SendAndLeave(t, u, again, i, other);
    SetTwice(shards, i, again[i], shards[i].(attempted := {shards[i].node}, node := other));
  }

  /** Pinning a job to a node does not make it run there: for any two nodes there is a run in which
      the pinned node fails twice and the job is done by the other. */
  lemma {:induction false} PinnedJobMayMove(kind: Kind, a: string, b: string) returns (acts: seq<Action>)
    requires a != b
    ensures Runnable(Init(1), acts) && |Run(Init(1), acts).jobs| == 1
    ensures var job := Run(Init(1), acts).jobs[0];
            job.status == Done && job.pinned == Some(a) && |job.results| == 1 && job.results[0].node == b
  {
    var u, sh := Setup(kind, {a, b}, Some(a), [a]), Shard(0, 0, map[], a, 0, {}, Waiting);
    var moved := sh.(attempted := {a}, node := b);
    var s := Begin(u);
    assert Fresh(u) == [sh];
    s := SendAndMove(s, u, [sh], 0, b);
    SetInPair(sh, sh, moved);
    s := SendAndAnswer(s, u, [moved], 0);
    var ended := moved.(phase := Finished);
    SetInPair(moved, moved, ended);
    s := Conclude(s, u, [ended]);
    acts := Replay(s);
  }

  lemma {:induction false} TwoLead(a: string, b: string)
    requires StrLess(a, b)
    ensures LeadsRanking(Init(1).(available := {a, b}), [a, b])
  {
    StrIrreflexive(a);
  }

  lemma {:induction false} SecondMovesToFirst(a: string, b: string) returns (s: State, moved: Shard)
    requires StrLess(a, b)
    ensures moved == Shard(0, 1, map[], a, 0, {b}, Waiting)
    ensures Reached(s) && Stage(s, Setup(Search, {a, b}, None, [a, b]), [Shard(0, 0, map[], a, 0, {}, Finished), moved])
  {
    TwoLead(a, b);
    StrIrreflexive(a);
    var u := Setup(Search, {a, b}, None, [a, b]);
    var x, y := Shard(0, 0, map[], a, 0, {}, Waiting), Shard(0, 1, map[], b, 0, {}, Waiting);
    s := Begin(u);
    assert Fresh(u) == [x, y];
    s := SendAndAnswer(s, u, [x, y], 0);
    var z := x.(phase := Finished);
    SetInPair(x, y, z);
    s := SendAndMove(s, u, [z, y], 1, a);
    moved := y.(attempted := {b}, node := a);
    SetInPair(z, y, moved);
  }

  /** A search job given two nodes may have both results from one: the second node fails twice, and
      its shard goes to the node that has already answered. */
  lemma {:induction false} SearchMayRepeatNode(a: string, b: string) returns (acts: seq<Action>)
    requires StrLess(a, b)
    ensures Runnable(Init(1), acts) && |Run(Init(1), acts).jobs| == 1
    ensures var job := Run(Init(1), acts).jobs[0];
            && job.status == Done && job.kind == Search && job.pinned == None
            && job.selected == [a, b] && ResultNodes(job) == [a, a]
  {
    var u, z := Setup(Search, {a, b}, None, [a, b]), Shard(0, 0, map[], a, 0, {}, Finished);
    var s, moved := SecondMovesToFirst(a, b);
    s := SendAndAnswer(s, u, [z, moved], 1);
    var ended := moved.(phase := Finished);
    SetInPair(z, moved, ended);
    s := Conclude(s, u, [z, ended]);
    acts := Replay(s);
    assert ResultNodes(s.jobs[0]) == [a, a];
  }

  /** Closing the queue before a submitted job has taken its first step leaves that job queued. */
  lemma {:induction false} ClosedWithQueuedJob(kind: Kind, a: string) returns (acts: seq<Action>)
    ensures Runnable(Init(1), acts) && |Run(Init(1), acts).jobs| == 1
    ensures Run(Init(1), acts).closed && Run(Init(1), acts).jobs[0].status == Queued
  {
    assert Runnable(Init(1), []) && Run(Init(1), []) == Init(1);
    var s := Next(Init(1), SetNodes({a}, map[]));
    assert P.Shards(map[], 1) == seq(1, k => map[]);
    s := Next(s, Submit(kind, map[], 1, Some(a), [a]));
    s := Next(s, Close);
    acts := Replay(s);
  }
}
