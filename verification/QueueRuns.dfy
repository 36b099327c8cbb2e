/** Whole runs of the job queue: safety in every reachable state, what never changes again, no
    deadlock, termination, and where results come from. */
module QueueRuns {
  import opened Contracts
  import opened Numbers
  import opened Ordering
  import opened Queue
  import opened QueueInvariants
  import P = Payload

  ghost predicate Runnable(s: State, acts: seq<Action>)
    decreases |acts|
  {
    Wired(s) && (acts == [] || (Enabled(s, acts[0]) && Runnable(Apply(s, acts[0]), acts[1..])))
  }

  ghost function Run(s: State, acts: seq<Action>): (t: State)
    requires Runnable(s, acts)
    ensures Wired(t)
    decreases |acts|
  {
    if acts == [] then s else Run(Apply(s, acts[0]), acts[1..])
  }

  lemma {:induction false} RunInv(s: State, acts: seq<Action>)
    requires Inv(s) && Runnable(s, acts)
    ensures Inv(Run(s, acts))
    decreases |acts|
  {
    if acts != [] {
      InvKept(s, acts[0]);
      RunInv(Apply(s, acts[0]), acts[1..]);
    }
  }

  /** In every reachable state, whatever nodes do and whenever the queue is closed, the in-flight
      counter of a node is the number of shards inside its request region and within the limit. */
  lemma {:induction false} InFlightExact(limit: nat, acts: seq<Action>, n: string)
    requires Runnable(Init(limit), acts)
    ensures InFlight(Run(Init(limit), acts), n) == Busy(Run(Init(limit), acts).shards, n) <= limit
  {
    InitInv(limit);
    RunInv(Init(limit), acts);
    LimitFixed(Init(limit), acts);
    assert BalancedAt(Run(Init(limit), acts), n);
  }

  lemma {:induction false} LimitFixed(s: State, acts: seq<Action>)
    requires Runnable(s, acts)
    ensures Run(s, acts).limit == s.limit
    decreases |acts|
  {
    if acts != [] { LimitFixed(Apply(s, acts[0]), acts[1..]); }
  }

  /** Every job's events read queued, started, dispatch/retry/reassign events, then at most one
      terminal event, which is last; the log is numbered 1, 2, 3, ... */
  lemma {:induction false} EventTracesWellFormed(limit: nat, acts: seq<Action>, j: nat)
    requires Runnable(Init(limit), acts) && j < |Run(Init(limit), acts).jobs|
    ensures var s := Run(Init(limit), acts);
            TraceFits(s.jobs[j].status, Trace(s.events, j)) && Numbered(s)
  {
    InitInv(limit);
    RunInv(Init(limit), acts);
  }

  /** No shard is ever sent to one node more than twice. */
  lemma {:induction false} AtMostTwoSends(limit: nat, acts: seq<Action>, i: nat, n: string)
    requires Runnable(Init(limit), acts)
    ensures Dispatches(Run(Init(limit), acts).events, i, n) <= 2
  {
    InitInv(limit);
    RunInv(Init(limit), acts);
    var s := Run(Init(limit), acts);
    assert FrugalAt(s, i, n);
    if i < |s.shards| { assert ShardOk(s, i); }
  }

  ghost function ResultPayloads(job: Job): seq<P.Payload> {
    seq(|job.results|, k requires 0 <= k < |job.results| => job.results[k].payload)
  }

  /** A done job covers its input exactly once: result k is shard k's, from a node the job was
      assigned to, and the payloads the results were computed from are the job's shards. */
  lemma {:induction false} DoneJobCoversInput(limit: nat, acts: seq<Action>, j: nat)
    requires Runnable(Init(limit), acts) && j < |Run(Init(limit), acts).jobs|
    requires Run(Init(limit), acts).jobs[j].status == Done
    ensures var job := Run(Init(limit), acts).jobs[j];
            Covers(job) && job.fanout > 0 && ResultPayloads(job) == P.Shards(job.payload, job.fanout)
  {
    InitInv(limit);
    RunInv(Init(limit), acts);
    var job := Run(Init(limit), acts).jobs[j];
    assert JobOk(Run(Init(limit), acts), j);
    assert ResultPayloads(job) == job.chunks;
  }

  /** Task `m` of a done job's list was computed by result `m % n`, as its entry `m / n`. */
  lemma {:induction false} DoneJobDealsBack(limit: nat, acts: seq<Action>, j: nat)
    requires Runnable(Init(limit), acts) && j < |Run(Init(limit), acts).jobs|
    requires var job := Run(Init(limit), acts).jobs[j]; job.status == Done && P.ShardKey(job.payload).Some?
    ensures var job := Run(Init(limit), acts).jobs[j];
            var key, parts := P.ShardKey(job.payload).value, ResultPayloads(job);
            && |parts| > 0 && (forall k :: 0 <= k < |parts| ==> key in parts[k] && parts[k][key].List?)
            && (forall m :: 0 <= m < |job.payload[key].items| ==> m / |parts| < |P.ListsOf(parts, key)[m % |parts|]|)
            && P.Interleave(P.ListsOf(parts, key), |job.payload[key].items|) == job.payload[key].items
  {
    DoneJobCoversInput(limit, acts, j);
    var job := Run(Init(limit), acts).jobs[j];
    P.ShardsCoverTasks(job.payload, job.fanout);
  }

  // ---- what never changes again ----

  function Rank(st: Status): nat { match st case Queued => 0 case Running => 1 case _ => 2 }

  /** A job's status only moves queued, running, then done or failed; once ended it is frozen. */
  ghost predicate JobLater(a: Job, b: Job) {
    && Rank(a.status) <= Rank(b.status) && a.nodes <= b.nodes
    && (Rank(a.status) == 2 ==> b == a)
    && b.payload == a.payload && b.chunks == a.chunks && b.fanout == a.fanout && b.kind == a.kind
  }

  /** An ended shard (rejected ones included) is frozen and never sent again, and a shard is never
      again sent to a node it has left. */
  ghost predicate ShardLater(s: State, t: State, i: nat)
    requires i < |s.shards| && i < |t.shards|
  {
    var a, b := s.shards[i], t.shards[i];
    && b.job == a.job && b.index == a.index && b.payload == a.payload && a.attempted <= b.attempted
    && (!a.Live() ==> b == a)
    && forall n :: !a.Live() || n in a.attempted ==> Dispatches(t.events, i, n) == Dispatches(s.events, i, n)
  }

  ghost predicate Later(s: State, t: State) {
    && |s.jobs| <= |t.jobs| && |s.shards| <= |t.shards| && s.events <= t.events
    && (forall j :: 0 <= j < |s.jobs| ==> JobLater(s.jobs[j], t.jobs[j]))
    && (forall i :: 0 <= i < |s.shards| ==> ShardLater(s, t, i))
  }

  /** One step sends at most the shard it acts on, to that shard's current node. */
  lemma {:induction false} StepSends(s: State, a: Action, i: nat, n: string)
    requires Shape(s) && Wired(s) && Enabled(s, a)
    requires i < |s.shards| && (!s.shards[i].Live() || n in s.shards[i].attempted)
    ensures Dispatches(Apply(s, a).events, i, n) == Dispatches(s.events, i, n)
    ensures s.events <= Apply(s, a).events
  {
    var t := Apply(s, a);
    assert ShardOk(s, i);
    if ByShard(a) {
      assert ShardOk(s, a.shard);
      ShardActionCases(s, a);
      if Sent(s, t, a.shard) {
        DispatchesAppend(s.events, t.events[|s.events|], i, n);
      } else if !Ended(s, t, a.shard) {
        GaveWaySends(s, t, a.shard, a.next, i, n);
      }
    } else {
      JobStepSendsNothing(s, a, i, n);
      if t.events != s.events {
        var e: Event :| t.events == s.events + [e] && !IsDispatch(e, i, n);
        DispatchesAppend(s.events, e, i, n);
      }
    }
  }

  lemma {:induction false} GaveWaySends(s: State, t: State, k: nat, next: string, i: nat, n: string)
    requires GaveWay(s, t, k, next)
    ensures Dispatches(t.events, i, n) == Dispatches(s.events, i, n) && s.events <= t.events
  {
    var a := s.shards[k];
    FailFacts(if a.phase.InRequest? then Release(s, a.node) else s, k, next);
    if t.events != s.events { DispatchesAppend(s.events, t.events[|s.events|], i, n); }
  }

  lemma {:induction false} StepLater(s: State, a: Action)
    requires Shape(s) && Wired(s) && Enabled(s, a)
    ensures Later(s, Apply(s, a))
  {
    var t := Apply(s, a);
    if ByShard(a) { IsShardStep(s, a); }
    forall i, n | 0 <= i < |s.shards| && (!s.shards[i].Live() || n in s.shards[i].attempted)
      ensures Dispatches(t.events, i, n) == Dispatches(s.events, i, n)
    {
      StepSends(s, a, i, n);
    }
    LogGrows(s, a);
    JobsLater(s, a);
    forall i | 0 <= i < |s.shards| ensures ShardLater(s, t, i) {
      assert t.shards[i] == s.shards[i] || (ByShard(a) && i == a.shard);
    }
  }

  lemma {:induction false} JobsLater(s: State, a: Action)
    requires Shape(s) && Wired(s) && Enabled(s, a)
    ensures var t := Apply(s, a);
            |s.jobs| <= |t.jobs| && forall j :: 0 <= j < |s.jobs| ==> JobLater(s.jobs[j], t.jobs[j])
  {
    if ByShard(a) {
      IsShardStep(s, a);
      assert ShardOk(s, a.shard);
    }
  }

  lemma {:induction false} LogGrows(s: State, a: Action)
    requires Shape(s) && Wired(s) && Enabled(s, a)
    ensures s.events <= Apply(s, a).events
  {
    var t := Apply(s, a);
    if ByShard(a) {
      ShardActionCases(s, a);
      if !Sent(s, t, a.shard) && !Ended(s, t, a.shard) { GaveWaySends(s, t, a.shard, a.next, 0, ""); }
    } else {
      JobStepSendsNothing(s, a, 0, "");
    }
  }

  lemma {:induction false} LaterTransitive(s: State, t: State, u: State)
    requires Later(s, t) && Later(t, u)
    ensures Later(s, u)
  {
    forall j | 0 <= j < |s.jobs| ensures JobLater(s.jobs[j], u.jobs[j]) {
      assert JobLater(s.jobs[j], t.jobs[j]) && JobLater(t.jobs[j], u.jobs[j]);
    }
    forall i | 0 <= i < |s.shards| ensures ShardLater(s, u, i) {
      assert ShardLater(s, t, i) && ShardLater(t, u, i);
    }
  }

  /** Over any run: statuses only advance, ended jobs and shards are frozen, a rejection ends a
      shard's dispatches for good, no shard returns to a node it left, and the log only grows. */
  lemma {:induction false} RunLater(s: State, acts: seq<Action>)
    requires Inv(s) && Runnable(s, acts)
    ensures Later(s, Run(s, acts))
    decreases |acts|
  {
    if acts != [] {
      StepLater(s, acts[0]);
      InvKept(s, acts[0]);
      RunLater(Apply(s, acts[0]), acts[1..]);
      LaterTransitive(s, Apply(s, acts[0]), Run(s, acts));
    }
  }

  /** A job whose task is cancelled before its first step is never started or failed: once the
      queue is closed, a queued job keeps that status for good. */
  lemma {:induction false} UnstartedStaysQueued(s: State, acts: seq<Action>, j: nat)
    requires Inv(s) && Runnable(s, acts) && s.closed && j < |s.jobs| && s.jobs[j].status == Queued
    ensures Run(s, acts).closed && j < |Run(s, acts).jobs| && Run(s, acts).jobs[j] == s.jobs[j]
    decreases |acts|
  {
    if acts != [] {
      var t := Apply(s, acts[0]);
      InvKept(s, acts[0]);
      StepLater(s, acts[0]);
      assert t.closed && t.jobs[j] == s.jobs[j];
      UnstartedStaysQueued(t, acts[1..], j);
    }
  }

  // ---- no deadlock ----

  lemma {:induction false} RankingTotal(s: State, a: string, b: string, c: string)
    ensures RankedBefore(s, a, b) || RankedBefore(s, b, a)
    ensures RankedBefore(s, a, b) && RankedBefore(s, b, c) ==> RankedBefore(s, a, c)
  {
    StrOrder();
  }

  lemma {:induction false} BestOf(s: State, nodes: set<string>) returns (n: string)
    requires nodes != {}
    ensures n in nodes && forall m :: m in nodes ==> RankedBefore(s, n, m)
    decreases |nodes|
  {
    var x :| x in nodes;
    RankingTotal(s, x, x, x);
    if nodes == {x} { return x; }
    assert nodes - {x} != {};
    var y := BestOf(s, nodes - {x});
    RankingTotal(s, x, y, x);
    n := if RankedBefore(s, x, y) then x else y;
    forall m | m in nodes ensures RankedBefore(s, n, m) {
      if m != x { RankingTotal(s, x, y, m); }
    }
  }

  lemma {:induction false} NextExists(s: State, i: nat) returns (next: string)
    requires i < |s.shards|
    ensures NextIs(s, i, next)
  {
    var tried := s.shards[i].attempted + {s.shards[i].node};
    next := "";
    if s.available - tried != {} { next := BestOf(s, s.available - tried); }
  }

  lemma {:induction false} BusyWitness(shards: seq<Shard>, n: string) returns (k: nat)
    requires Busy(shards, n) > 0
    ensures k < |shards| && shards[k].Holding(n)
  {
    if shards[0].Holding(n) {
      k := 0;
    } else {
      k := BusyWitness(shards[1..], n);
      k := k + 1;
    }
  }

  lemma {:induction false} CanRespond(s: State, k: nat) returns (a: Action)
    requires !s.closed && k < |s.shards| && s.shards[k].phase.InRequest?
    ensures a.Progress() && Enabled(s, a)
  {
    var free := Release(s, s.shards[k].node);
    var next := NextExists(free, k);
    a := Respond(k, Success, next);
  }

  /** While a started job is unfinished, some step of the queue is enabled: a shard blocked on a
      full semaphore is waiting for a request that can still be answered. */
  lemma {:induction false} NoDeadlock(s: State, j: nat) returns (a: Action)
    requires Inv(s) && s.limit > 0 && j < |s.jobs| && s.jobs[j].status == Running
    ensures a.Progress() && Enabled(s, a)
  {
    assert JobOk(s, j);
    if ShardsEnded(s, j) {
      a := if s.closed then FinishCancelled(j) else Finish(j, true);
      return;
    }
    var job := s.jobs[j];
    var i :| job.base <= i < job.base + |job.chunks| && s.shards[i].Live();
    if s.closed {
      a := CancelShard(i);
    } else if s.shards[i].phase.InRequest? {
      a := CanRespond(s, i);
    } else if Permits(s, s.shards[i].node) > 0 {
      var next := NextExists(s, i);
      a := Acquire(i, next);
    } else {
      assert BalancedAt(s, s.shards[i].node);
      var k := BusyWitness(s.shards, s.shards[i].node);
      a := CanRespond(s, k);
    }
  }

  /** When the queue has nothing left to do, every job has ended, or was never started because the
      queue was closed first. */
  lemma {:induction false} QuietMeansEnded(s: State, j: nat)
    requires Inv(s) && s.limit > 0 && j < |s.jobs|
    requires forall a: Action :: a.Progress() ==> !Enabled(s, a)
    ensures s.jobs[j].status == Done || s.jobs[j].status == Failed || (s.jobs[j].status == Queued && s.closed)
  {
    if s.jobs[j].status == Running {
      var a := NoDeadlock(s, j);
      assert false;
    } else if s.jobs[j].status == Queued && !s.closed {
      assert Enabled(s, Start(j));
    }
  }

  // ---- termination ----

  /** Everything the queue knows about lies in the finite universe `u` of node ids. */
  ghost predicate Within(s: State, u: set<string>) {
    && s.available <= u
    && (forall i :: 0 <= i < |s.shards| ==> s.shards[i].node in u && s.shards[i].attempted <= u)
    && (forall j, k :: 0 <= j < |s.jobs| && 0 <= k < |s.jobs[j].selected| ==> s.jobs[j].selected[k] in u)
  }

  ghost predicate Stays(a: Action, u: set<string>) {
    a.SetNodes? ==> a.available <= u
  }

  lemma {:induction false} WithinKept(s: State, a: Action, u: set<string>)
    requires Shape(s) && Wired(s) && Enabled(s, a) && Within(s, u) && Stays(a, u)
    ensures Within(Apply(s, a), u)
  {
    if ByShard(a) { ShardStaysWithin(s, a, u); }
  }

  lemma {:induction false} ShardStaysWithin(s: State, a: Action, u: set<string>)
    requires Shape(s) && Wired(s) && Enabled(s, a) && Within(s, u) && ByShard(a)
    ensures Within(Apply(s, a), u)
  {
    var t, i := Apply(s, a), a.shard;
    assert ShardOk(s, i);
    ShardActionCases(s, a);
    IsShardStep(s, a);
    if !Sent(s, t, i) && !Ended(s, t, i) {
      var sh := s.shards[i];
      FailFacts(if sh.phase.InRequest? then Release(s, sh.node) else s, i, a.next);
    }
    OneShardWithin(s, t, i, u);
  }

  lemma {:induction false} OneShardWithin(s: State, t: State, i: nat, u: set<string>)
    requires Within(s, u) && ShardStep(s, t, i) && t.available == s.available
    requires t.shards[i].node in u && t.shards[i].attempted <= u
    ensures Within(t, u)
  {
  }

  /** Requests a shard may still make, counting waiting and being in flight separately. */
  ghost function ShardWork(sh: Shard, u: set<string>): int {
    if !sh.Live() then 0
    else 4 * |u - sh.attempted| - 2 * sh.attempt - (if sh.phase.InRequest? then 1 else 0)
  }

  ghost function JobWork(job: Job, u: set<string>): int {
    match job.status
    case Queued => 2 + 4 * |u| * |job.chunks|
    case Running => 1
    case _ => 0
  }

  ghost function ShardWorks(shards: seq<Shard>, u: set<string>): seq<int> {
    seq(|shards|, i requires 0 <= i < |shards| => ShardWork(shards[i], u))
  }

  ghost function JobWorks(jobs: seq<Job>, u: set<string>): seq<int> {
    seq(|jobs|, j requires 0 <= j < |jobs| => JobWork(jobs[j], u))
  }

  /** The measure: what is left to do for all accepted jobs. */
  ghost function Work(s: State, u: set<string>): int {
    Sum(ShardWorks(s.shards, u)) + Sum(JobWorks(s.jobs, u))
  }

  lemma {:induction false} LiveShardWork(s: State, i: nat, u: set<string>)
    requires Shape(s) && Within(s, u) && i < |s.shards|
    ensures 0 <= ShardWork(s.shards[i], u)
    ensures s.shards[i].Live() ==> 0 < ShardWork(s.shards[i], u)
  {
    var sh := s.shards[i];
    assert ShardOk(s, i);
    if sh.Live() { assert sh.node in u - sh.attempted; }
  }

  lemma {:induction false} WorkNonNegative(s: State, u: set<string>)
    requires Shape(s) && Within(s, u)
    ensures 0 <= Work(s, u)
  {
    forall i | 0 <= i < |s.shards| ensures 0 <= ShardWorks(s.shards, u)[i] { LiveShardWork(s, i, u); }
    SumNonNegative(ShardWorks(s.shards, u));
    JobsWorkNonNegative(s.jobs, u);
  }

  lemma {:induction false} JobWorkNonNegative(job: Job, u: set<string>)
    ensures 0 <= JobWork(job, u)
  {
    NonNegativeProduct(4 * |u|, |job.chunks|);
  }

  lemma {:induction false} JobsWorkNonNegative(jobs: seq<Job>, u: set<string>)
    ensures 0 <= Sum(JobWorks(jobs, u))
  {
    forall j | 0 <= j < |jobs| ensures 0 <= JobWorks(jobs, u)[j] { JobWorkNonNegative(jobs[j], u); }
    SumNonNegative(JobWorks(jobs, u));
  }

  lemma {:induction false} ShardsWorkUpdate(shards: seq<Shard>, i: nat, sh: Shard, u: set<string>)
    requires i < |shards|
    ensures Sum(ShardWorks(shards[i := sh], u)) == Sum(ShardWorks(shards, u)) - ShardWork(shards[i], u) + ShardWork(sh, u)
  {
    SumUpdate(ShardWorks(shards, u), i, ShardWork(sh, u));
    assert ShardWorks(shards[i := sh], u) == ShardWorks(shards, u)[i := ShardWork(sh, u)];
  }

  lemma {:induction false} JobsWorkUpdate(jobs: seq<Job>, j: nat, job: Job, u: set<string>)
    requires j < |jobs|
    ensures Sum(JobWorks(jobs[j := job], u)) == Sum(JobWorks(jobs, u)) - JobWork(jobs[j], u) + JobWork(job, u)
  {
    SumUpdate(JobWorks(jobs, u), j, JobWork(job, u));
    assert JobWorks(jobs[j := job], u) == JobWorks(jobs, u)[j := JobWork(job, u)];
  }

  lemma {:induction false} OneMoreTerm(w: int, n: int)
    ensures w * (n + 1) == w * n + w
  {
  }

  lemma {:induction false} OneMoreShard(shards: seq<Shard>, sh: Shard, u: set<string>)
    requires sh.phase.Waiting? && sh.attempt == 0 && sh.attempted == {}
    ensures Sum(ShardWorks(shards + [sh], u)) == Sum(ShardWorks(shards, u)) + 4 * |u|
  {
    assert u - {} == u;
    assert ShardWorks(shards + [sh], u) == ShardWorks(shards, u) + [4 * |u|];
    SumAppend(ShardWorks(shards, u), 4 * |u|);
  }

  lemma {:induction false} FreshShardsWork(shards: seq<Shard>, more: seq<Shard>, u: set<string>)
    requires forall k :: 0 <= k < |more| ==> more[k].phase.Waiting? && more[k].attempt == 0 && more[k].attempted == {}
    ensures Sum(ShardWorks(shards + more, u)) == Sum(ShardWorks(shards, u)) + 4 * |u| * |more|
  {
    if more == [] {
      assert shards + more == shards;
    } else {
      var n := |more| - 1;
      FreshShardsWork(shards, more[..n], u);
      assert shards + more == (shards + more[..n]) + [more[n]];
      OneMoreShard(shards + more[..n], more[n], u);
      OneMoreTerm(4 * |u|, n);
    }
  }

  /** The shard a step acts on has strictly less left to do afterwards. */
  lemma {:induction false} ShardWorkFalls(s: State, a: Action, u: set<string>)
    requires Shape(s) && Wired(s) && Enabled(s, a) && Within(s, u) && ByShard(a)
    ensures var t := Apply(s, a);
            a.shard < |t.shards| && ShardWork(t.shards[a.shard], u) < ShardWork(s.shards[a.shard], u)
  {
    var t, i := Apply(s, a), a.shard;
    var sh := s.shards[i];
    assert ShardOk(s, i);
    LiveShardWork(s, i, u);
    ShardActionCases(s, a);
    if !Sent(s, t, i) && !Ended(s, t, i) { FailWorkFalls(s, t, i, a.next, u); }
  }

  lemma {:induction false} FailWorkFalls(s: State, t: State, i: nat, next: string, u: set<string>)
    requires GaveWay(s, t, i, next) && s.shards[i].node in u && ShardWork(s.shards[i], u) > 0
    ensures i < |t.shards| && ShardWork(t.shards[i], u) < ShardWork(s.shards[i], u)
  {
    var sh := s.shards[i];
    FailFacts(if sh.phase.InRequest? then Release(s, sh.node) else s, i, next);
    var rest := u - (sh.attempted + {sh.node});
    assert u - sh.attempted == rest + {sh.node};
  }

  lemma {:induction false} SameJobWorks(s: State, t: State, i: nat, u: set<string>)
    requires ShardStep(s, t, i)
    ensures JobWorks(t.jobs, u) == JobWorks(s.jobs, u)
  {
  }

  /** Each step of the queue lowers the measure, whatever the environment did before it. */
  lemma {:induction false} WorkFalls(s: State, a: Action, u: set<string>)
    requires Shape(s) && Wired(s) && Enabled(s, a) && Within(s, u) && a.Progress()
    ensures Work(Apply(s, a), u) < Work(s, u)
  {
    var t := Apply(s, a);
    if ByShard(a) {
      IsShardStep(s, a);
      ShardWorkFalls(s, a, u);
      ShardsWorkUpdate(s.shards, a.shard, t.shards[a.shard], u);
      SameJobWorks(s, t, a.shard, u);
    } else {
      JobWorkFalls(s, a, u);
    }
  }

  lemma {:induction false} JobWorkFalls(s: State, a: Action, u: set<string>)
    requires Wired(s) && Enabled(s, a) && (a.Start? || a.Finish? || a.FinishCancelled?)
    ensures Work(Apply(s, a), u) < Work(s, u)
  {
    var t, j := Apply(s, a), a.job;
    JobsWorkUpdate(s.jobs, j, t.jobs[j], u);
    assert t.jobs == s.jobs[j := t.jobs[j]];
    if a.Start? {
      FreshShardsWork(s.shards, NewShards(s, j), u);
      assert t.shards == s.shards + NewShards(s, j);
    } else {
      assert t.shards == s.shards;
    }
  }

  /** Work a submission adds. */
  ghost function Granted(a: Action, u: set<string>): nat {
    if a.Submit? && a.fanout > 0
    then 2 + 4 * |u| * |P.Shards(a.payload, if a.pinned.Some? then 1 else a.fanout)|
    else 0
  }

  lemma {:induction false} OtherWork(s: State, a: Action, u: set<string>)
    requires Shape(s) && Wired(s) && Enabled(s, a) && !a.Progress()
    ensures Work(Apply(s, a), u) == Work(s, u) + Granted(a, u)
  {
    var t := Apply(s, a);
    if a.Submit? {
      assert JobWorks(t.jobs, u) == JobWorks(s.jobs, u) + [Granted(a, u)];
      SumAppend(JobWorks(s.jobs, u), Granted(a, u));
    }
  }

  ghost function ProgressSteps(acts: seq<Action>): nat {
    if acts == [] then 0 else (if acts[0].Progress() then 1 else 0) + ProgressSteps(acts[1..])
  }

  ghost function TotalGranted(acts: seq<Action>, u: set<string>): nat {
    if acts == [] then 0 else Granted(acts[0], u) + TotalGranted(acts[1..], u)
  }

  /** Termination: over a finite universe of node ids, however nodes come and go, a run makes at
      most as many queue steps as the work it started with plus the work submitted along the way. */
  lemma {:induction false} RunsTerminate(s: State, acts: seq<Action>, u: set<string>)
    requires Inv(s) && Runnable(s, acts) && Within(s, u) && forall k :: 0 <= k < |acts| ==> Stays(acts[k], u)
    ensures ProgressSteps(acts) <= Work(s, u) + TotalGranted(acts, u)
    decreases |acts|
  {
    WorkNonNegative(s, u);
    if acts != [] {
      var a, t := acts[0], Apply(s, acts[0]);
      InvKept(s, a);
      WithinKept(s, a, u);
      RunsTerminate(t, acts[1..], u);
      if a.Progress() { WorkFalls(s, a, u); } else { OtherWork(s, a, u); }
    }
  }

  // ---- where results come from ----

  predicate IsMove(e: Event, i: nat) { e.kind == Reassigned && e.shard == Some(i) }

  /** The log says that shard `i` was reassigned. */
  ghost predicate Moved(events: seq<Event>, i: nat) {
    exists k :: 0 <= k < |events| && IsMove(events[k], i)
  }

  lemma {:induction false} MovedAppend(events: seq<Event>, e: Event, i: nat)
    ensures Moved(events + [e], i) <==> Moved(events, i) || IsMove(e, i)
  {
    var more := events + [e];
    assert forall k :: 0 <= k < |events| ==> more[k] == events[k];
    assert more[|events|] == e;
  }

  /** A shard is on the node its job was given for it, or it has tried and left that node, which is
      exactly when the log says that it was reassigned. */
  ghost predicate HomeOk(events: seq<Event>, i: nat, sh: Shard, home: string) {
    (sh.node == home || home in sh.attempted) && (Moved(events, i) <==> sh.node != home)
  }

  ghost predicate ShardHome(s: State, i: nat)
    requires i < |s.shards|
  {
    var sh := s.shards[i];
    sh.job < |s.jobs| && sh.index < |s.jobs[sh.job].selected|
    && HomeOk(s.events, i, sh, s.jobs[sh.job].selected[sh.index])
  }

  /** A pinned job was given its node, any other distinct nodes; results stay with their shards. */
  ghost predicate JobHome(s: State, j: nat)
    requires j < |s.jobs|
  {
    var job := s.jobs[j];
    && (if job.pinned.Some? then job.selected == [job.pinned.value] else Distinct(job.selected))
    && (job.status == Done ==> ResultsFrom(s.shards, job.base, job.results))
  }

  /** The results are those of the finished shards from `base` on. */
  ghost predicate ResultsFrom(shards: seq<Shard>, base: nat, results: seq<ShardResult>) {
    && base + |results| <= |shards|
    && forall k :: 0 <= k < |results| ==> ResultOf(shards[base + k], results[k])
  }

  predicate ResultOf(sh: Shard, r: ShardResult) {
    sh.phase.Finished? && r.node == sh.node
  }

  ghost predicate Homes(s: State) {
    && (forall i :: 0 <= i < |s.shards| ==> ShardHome(s, i))
    && (forall j :: 0 <= j < |s.jobs| ==> JobHome(s, j))
    && (forall i: nat :: |s.shards| <= i ==> !Moved(s.events, i))
  }

  /** A step's effect on the log, seen from shard `i`. */
  ghost predicate Unmoved(s: State, t: State, i: nat) {
    Moved(t.events, i) <==> Moved(s.events, i)
  }

  lemma {:induction false} QuietLog(s: State, t: State, i: nat)
    requires t.events == s.events || exists e: Event :: t.events == s.events + [e] && !IsMove(e, i)
    ensures Unmoved(s, t, i)
  {
    if t.events != s.events {
      var e: Event :| t.events == s.events + [e] && !IsMove(e, i);
      MovedAppend(s.events, e, i);
    }
  }

  lemma {:induction false} LoggedMove(s: State, t: State, j: nat, kind: EventKind, node: Option<string>, shard: Option<nat>, i: nat)
    requires Logs(s, t, j, kind, node, shard)
    ensures Moved(t.events, i) <==> Moved(s.events, i) || (kind == Reassigned && shard == Some(i))
  {
    var e := t.events[|s.events|];
    assert t.events == s.events + [e];
    MovedAppend(s.events, e, i);
  }

  /** One step of shard `i`: it stays at home, or it has just been reassigned away from it. */
  lemma {:induction false} StepHome(s: State, a: Action, home: string)
    requires Shape(s) && Wired(s) && Enabled(s, a) && ByShard(a) && HomeOk(s.events, a.shard, s.shards[a.shard], home)
    ensures var t := Apply(s, a);
            a.shard < |t.shards| && HomeOk(t.events, a.shard, t.shards[a.shard], home)
    ensures forall k: nat :: k != a.shard ==> Unmoved(s, Apply(s, a), k)
  {
    var t, i := Apply(s, a), a.shard;
    ShardActionCases(s, a);
    if Sent(s, t, i) {
      forall k: nat ensures Unmoved(s, t, k) {
        LoggedMove(s, t, s.shards[i].job, Dispatched, Some(s.shards[i].node), Some(i), k);
      }
      assert Unmoved(s, t, i);
    } else if Ended(s, t, i) {
      forall k: nat ensures Unmoved(s, t, k) { QuietLog(s, t, k); }
    } else {
      FailHome(s, t, i, a.next, home);
    }
  }

  lemma {:induction false} FailHome(s: State, t: State, i: nat, next: string, home: string)
    requires GaveWay(s, t, i, next) && HomeOk(s.events, i, s.shards[i], home)
    ensures i < |t.shards| && HomeOk(t.events, i, t.shards[i], home)
    ensures forall k: nat :: k != i ==> Unmoved(s, t, k)
  {
    var a := s.shards[i];
    var r := if a.phase.InRequest? then Release(s, a.node) else s;
    FailFacts(r, i, next);
    forall k: nat
      ensures Moved(t.events, k) <==>
              Moved(s.events, k) || (k == i && t.shards[i].node != a.node)
    {
      if t.events == s.events {
        QuietLog(s, t, k);
      } else if a.attempt == 0 {
        LoggedMove(r, t, a.job, Retrying, Some(a.node), Some(i), k);
      } else {
        LoggedMove(r, t, a.job, Reassigned, Some(next), Some(i), k);
      }
    }
  }

  /** A step of a live shard leaves every job's given nodes and every done job's results alone. */
  lemma {:induction false} ShardStepJobHome(s: State, t: State, i: nat, j: nat)
    requires Shape(s) && ShardStep(s, t, i) && j < |s.jobs| && JobHome(s, j)
    ensures JobHome(t, j)
  {
    assert ShardOk(s, i) && JobOk(s, j);
  }

  lemma {:induction false} OtherShardHome(s: State, t: State, i: nat, k: nat)
    requires ShardStep(s, t, i) && k < |s.shards| && k != i && ShardHome(s, k) && Unmoved(s, t, k)
    ensures ShardHome(t, k)
  {
  }

  lemma {:induction false} ShardStepHomes(s: State, a: Action)
    requires Shape(s) && Wired(s) && Homes(s) && Enabled(s, a) && ByShard(a)
    ensures Homes(Apply(s, a))
  {
    var t, i := Apply(s, a), a.shard;
    IsShardStep(s, a);
    assert ShardHome(s, i);
    StepHome(s, a, s.jobs[s.shards[i].job].selected[s.shards[i].index]);
    forall k | 0 <= k < |t.shards| ensures ShardHome(t, k) {
      if k != i {
        assert ShardHome(s, k) && Unmoved(s, t, k);
        OtherShardHome(s, t, i, k);
      }
    }
    forall j | 0 <= j < |t.jobs| ensures JobHome(t, j) {
      assert JobHome(s, j);
      ShardStepJobHome(s, t, i, j);
    }
    forall k: nat | |t.shards| <= k ensures !Moved(t.events, k) { assert Unmoved(s, t, k); }
  }

  /** Steps that act on no shard log no reassignment. */
  lemma {:induction false} JobStepUnmoved(s: State, a: Action, k: nat)
    requires Wired(s) && Enabled(s, a) && !ByShard(a)
    ensures Unmoved(s, Apply(s, a), k)
  {
    var t := Apply(s, a);
    if t.events != s.events {
      var e := t.events[|s.events|];
      assert t.events == s.events + [e];
    }
    QuietLog(s, t, k);
  }

  lemma {:induction false} StartHomes(s: State, j: nat)
    requires Wired(s) && Homes(s) && Enabled(s, Start(j))
    ensures Homes(Apply(s, Start(j)))
  {
    var t := Apply(s, Start(j));
    forall k: nat ensures Unmoved(s, t, k) { JobStepUnmoved(s, Start(j), k); }
    forall i | 0 <= i < |t.shards| ensures ShardHome(t, i) {
      assert Unmoved(s, t, i);
      if i < |s.shards| { assert ShardHome(s, i) && t.shards[i] == s.shards[i]; }
    }
    forall m | 0 <= m < |t.jobs| ensures JobHome(t, m) { assert JobHome(s, m); }
    forall k: nat | |t.shards| <= k ensures !Moved(t.events, k) { assert Unmoved(s, t, k); }
  }

  lemma {:induction false} FinishHome(s: State, j: nat)
    requires Wired(s) && j < |s.jobs| && s.jobs[j].status == Running && Errors(JobShards(s, j)) == []
    ensures var results := Results(JobShards(s, j));
            |results| == |s.jobs[j].chunks| && ResultsFrom(s.shards, s.jobs[j].base, results)
  {
    ResultsWhenAllFinished(JobShards(s, j));
  }

  /** Ending job `j` leaves the other jobs alone, and its own results are its shards'. */
  lemma {:induction false} EndedJobHome(s: State, t: State, j: nat, m: nat)
    requires j < |s.jobs| == |t.jobs| && m < |s.jobs| && JobHome(s, m)
    requires t.shards == s.shards && t.jobs == s.jobs[j := t.jobs[j]] && t.jobs[j].base == s.jobs[j].base
    requires t.jobs[j].pinned == s.jobs[j].pinned && t.jobs[j].selected == s.jobs[j].selected
    requires t.jobs[j].status == Done ==> ResultsFrom(s.shards, s.jobs[j].base, t.jobs[j].results)
    ensures JobHome(t, m)
  {
  }

  lemma {:induction false} FinishJobHome(s: State, j: nat, mergeOk: bool, m: nat)
    requires Wired(s) && Enabled(s, Finish(j, mergeOk)) && m < |s.jobs| && JobHome(s, m)
    ensures JobHome(Apply(s, Finish(j, mergeOk)), m)
  {
    var mine := JobShards(s, j);
    if Errors(mine) == [] { FinishHome(s, j); }
    EndedJobHome(s, Apply(s, Finish(j, mergeOk)), j, m);
  }

  lemma {:induction false} OtherJobHome(s: State, a: Action, m: nat)
    requires Wired(s) && Enabled(s, a) && !ByShard(a) && !a.Start? && !a.Submit? && m < |s.jobs| && JobHome(s, m)
    ensures m < |Apply(s, a).jobs| && JobHome(Apply(s, a), m)
  {
    match a
    case Finish(j, mergeOk) => FinishJobHome(s, j, mergeOk, m);
    case FinishCancelled(j) => EndedJobHome(s, Apply(s, a), j, m);
    case Close =>
    case SetNodes(_, _) =>
  }

  lemma {:induction false} SubmitJobHome(s: State, a: Action, j: nat)
    requires Wired(s) && Enabled(s, a) && a.Submit? && j <= |s.jobs| && (j < |s.jobs| ==> JobHome(s, j))
    ensures j < |Apply(s, a).jobs| && JobHome(Apply(s, a), j)
  {
  }

  lemma {:induction false} SameShardHome(s: State, t: State, i: nat)
    requires i < |s.shards| && t.shards == s.shards && ShardHome(s, i) && Unmoved(s, t, i)
    requires |s.jobs| <= |t.jobs| && t.jobs[s.shards[i].job].selected == s.jobs[s.shards[i].job].selected
    ensures ShardHome(t, i)
  {
  }

  lemma {:induction false} OtherHomes(s: State, a: Action)
    requires Wired(s) && Homes(s) && Enabled(s, a) && !ByShard(a) && !a.Start?
    ensures Homes(Apply(s, a))
  {
    var t := Apply(s, a);
    forall k: nat ensures Unmoved(s, t, k) { JobStepUnmoved(s, a, k); }
    forall i | 0 <= i < |t.shards| ensures ShardHome(t, i) {
      assert ShardHome(s, i) && Unmoved(s, t, i);
      SameShardHome(s, t, i);
    }
    forall j | 0 <= j < |t.jobs| ensures JobHome(t, j) {
      if a.Submit? { SubmitJobHome(s, a, j); } else { OtherJobHome(s, a, j); }
    }
    forall k: nat | |t.shards| <= k ensures !Moved(t.events, k) { assert Unmoved(s, t, k); }
  }

  lemma {:induction false} HomesKept(s: State, a: Action)
    requires Shape(s) && Wired(s) && Homes(s) && Enabled(s, a)
    ensures Homes(Apply(s, a))
  {
    if ByShard(a) {
      ShardStepHomes(s, a);
    } else if a.Start? {
      StartHomes(s, a.job);
    } else {
      OtherHomes(s, a);
    }
  }

  lemma {:induction false} RunHomes(s: State, acts: seq<Action>)
    requires Inv(s) && Homes(s) && Runnable(s, acts)
    ensures Homes(Run(s, acts)) && Inv(Run(s, acts))
    decreases |acts|
  {
    if acts != [] {
      InvKept(s, acts[0]);
      HomesKept(s, acts[0]);
      RunHomes(Apply(s, acts[0]), acts[1..]);
    }
  }

  lemma {:induction false} ReachedHomes(limit: nat, acts: seq<Action>)
    requires Runnable(Init(limit), acts)
    ensures Shape(Run(Init(limit), acts)) && Homes(Run(Init(limit), acts))
  {
    InitInv(limit);
    RunHomes(Init(limit), acts);
  }

  function ResultNodes(job: Job): seq<string> {
    seq(|job.results|, k requires 0 <= k < |job.results| => job.results[k].node)
  }

  lemma {:induction false} ResultHome(s: State, j: nat, k: nat)
    requires Shape(s) && Homes(s) && j < |s.jobs| && s.jobs[j].status == Done && k < |s.jobs[j].results|
    ensures |s.jobs[j].selected| == |s.jobs[j].results|
    ensures s.jobs[j].results[k].node == s.jobs[j].selected[k] <==> !Moved(s.events, s.jobs[j].base + k)
  {
    assert JobHome(s, j) && JobOk(s, j);
    assert ShardHome(s, s.jobs[j].base + k);
  }

  /** Over every run: result k of a done job comes from the node the job was given for it if and only
      if the log has no reassignment of that shard. */
  lemma {:induction false} ResultAtHomeUnlessReassigned(limit: nat, acts: seq<Action>, j: nat, k: nat)
    requires Runnable(Init(limit), acts) && j < |Run(Init(limit), acts).jobs|
    requires var job := Run(Init(limit), acts).jobs[j]; job.status == Done && k < |job.results|
    ensures var s := Run(Init(limit), acts);
            && k < |s.jobs[j].selected|
            && (s.jobs[j].results[k].node == s.jobs[j].selected[k] <==> !Moved(s.events, s.jobs[j].base + k))
  {
    ReachedHomes(limit, acts);
    ResultHome(Run(Init(limit), acts), j, k);
  }

  lemma {:induction false} PinnedHome(s: State, j: nat)
    requires Shape(s) && Homes(s) && j < |s.jobs| && s.jobs[j].status == Done && s.jobs[j].pinned.Some?
    ensures |s.jobs[j].results| == 1
    ensures s.jobs[j].results[0].node == s.jobs[j].pinned.value <==> !Moved(s.events, s.jobs[j].base)
  {
    assert JobHome(s, j) && JobOk(s, j);
    ResultHome(s, j, 0);
  }

  /** Hence a pinned job that is done ran on its node if and only if its one shard was never
      reassigned. */
  lemma {:induction false} PinnedUnlessReassigned(limit: nat, acts: seq<Action>, j: nat)
    requires Runnable(Init(limit), acts) && j < |Run(Init(limit), acts).jobs|
    requires var job := Run(Init(limit), acts).jobs[j]; job.status == Done && job.pinned.Some?
    ensures var s := Run(Init(limit), acts);
            && |s.jobs[j].results| == 1
            && (s.jobs[j].results[0].node == s.jobs[j].pinned.value <==> !Moved(s.events, s.jobs[j].base))
  {
    ReachedHomes(limit, acts);
    PinnedHome(Run(Init(limit), acts), j);
  }

  /** No shard of job `j` was reassigned. */
  ghost predicate NeverMoved(s: State, j: nat)
    requires j < |s.jobs|
  {
    forall i: nat :: s.jobs[j].base <= i < s.jobs[j].base + |s.jobs[j].results| ==> !Moved(s.events, i)
  }

  lemma {:induction false} DistinctHomes(s: State, j: nat)
    requires Shape(s) && Homes(s) && j < |s.jobs| && s.jobs[j].status == Done && s.jobs[j].pinned.None?
    ensures ResultNodes(s.jobs[j]) == s.jobs[j].selected <==> NeverMoved(s, j)
    ensures Distinct(s.jobs[j].selected)
  {
    var job := s.jobs[j];
    assert JobHome(s, j) && JobOk(s, j);
    forall k | 0 <= k < |job.results|
      ensures ResultNodes(job)[k] == job.selected[k] <==> !Moved(s.events, job.base + k)
    {
      ResultHome(s, j, k);
    }
    if NeverMoved(s, j) {
      assert ResultNodes(job) == job.selected;
    } else {
      var i: nat :| job.base <= i < job.base + |job.results| && Moved(s.events, i);
      assert ResultNodes(job)[i - job.base] != job.selected[i - job.base];
    }
  }

  /** A done, unpinned job has its results from the very nodes it was given, which are distinct, if
      and only if none of its shards was reassigned. */
  lemma {:induction false} GivenNodesUnlessReassigned(limit: nat, acts: seq<Action>, j: nat)
    requires Runnable(Init(limit), acts) && j < |Run(Init(limit), acts).jobs|
    requires var job := Run(Init(limit), acts).jobs[j]; job.status == Done && job.pinned.None?
    ensures var s := Run(Init(limit), acts);
            && (ResultNodes(s.jobs[j]) == s.jobs[j].selected <==> NeverMoved(s, j))
            && Distinct(s.jobs[j].selected)
  {
    ReachedHomes(limit, acts);
    DistinctHomes(Run(Init(limit), acts), j);
  }

  // ---- where results come from, told by the environment alone ----

  /** An attempt of shard `i` fails: a transient answer, or its node is gone when its turn comes. */
  predicate FailsAt(s: State, a: Action, i: nat) {
    || (a.Respond? && a.shard == i && a.outcome.Transient?)
    || (a.Acquire? && a.shard == i && i < |s.shards| && s.shards[i].node !in s.available)
  }

  /** How often an attempt of shard `i` fails in the course of a run. */
  ghost function Failures(s: State, acts: seq<Action>, i: nat): nat
    requires Runnable(s, acts)
    decreases |acts|
  {
    if acts == [] then 0
    else (if FailsAt(s, acts[0], i) then 1 else 0) + Failures(Apply(s, acts[0]), acts[1..], i)
  }

  /** The failures a shard has on record: two for every node it left, one if it is on a second try. */
  function Score(s: State, i: nat): nat {
    if i < |s.shards| then
      2 * |s.shards[i].attempted| + (if s.shards[i].phase.Exhausted? then 0 else s.shards[i].attempt)
    else 0
  }

  lemma {:induction false} FailScore(s: State, t: State, i: nat, next: string)
    requires GaveWay(s, t, i, next)
    ensures Score(t, i) == Score(s, i) + 1
  {
    var a := s.shards[i];
    FailFacts(if a.phase.InRequest? then Release(s, a.node) else s, i, next);
  }

  lemma {:induction false} ShardStepScore(s: State, a: Action)
    requires Shape(s) && Wired(s) && Enabled(s, a) && ByShard(a)
    ensures Score(Apply(s, a), a.shard) == Score(s, a.shard) + if FailsAt(s, a, a.shard) then 1 else 0
  {
    var t, i := Apply(s, a), a.shard;
    assert ShardOk(s, i);
    if FailsAt(s, a, i) {
      FailingGivesWay(s, a);
      FailScore(s, t, i, a.next);
    } else {
      assert t.shards == s.shards[i := s.shards[i].(phase := t.shards[i].phase)] && !t.shards[i].phase.Exhausted?;
    }
  }

  lemma {:induction false} FailingGivesWay(s: State, a: Action)
    requires Shape(s) && Wired(s) && Enabled(s, a) && ByShard(a) && FailsAt(s, a, a.shard)
    ensures GaveWay(s, Apply(s, a), a.shard, a.next)
  {
    assert ShardOk(s, a.shard);
  }

  lemma {:induction false} StepScore(s: State, a: Action, i: nat)
    requires Shape(s) && Wired(s) && Enabled(s, a)
    ensures Score(Apply(s, a), i) == Score(s, i) + if FailsAt(s, a, i) then 1 else 0
  {
    var t := Apply(s, a);
    if ByShard(a) {
      if a.shard == i { ShardStepScore(s, a); } else { IsShardStep(s, a); }
    } else if i < |s.shards| {
      assert t.shards[i] == s.shards[i];
    }
  }

  lemma {:induction false} RunScore(s: State, acts: seq<Action>, i: nat)
    requires Inv(s) && Runnable(s, acts)
    ensures Score(Run(s, acts), i) == Score(s, i) + Failures(s, acts, i)
    decreases |acts|
  {
    if acts != [] {
      StepScore(s, acts[0], i);
      InvKept(s, acts[0]);
      RunScore(Apply(s, acts[0]), acts[1..], i);
    }
  }

  /** A shard has left its home exactly when it has left some node; and it is on no node it has left. */
  ghost predicate TriedOk(s: State, i: nat)
    requires i < |s.shards|
  {
    var sh := s.shards[i];
    && sh.job < |s.jobs| && sh.index < |s.jobs[sh.job].selected|
    && (sh.attempted == {} ==> sh.node == s.jobs[sh.job].selected[sh.index])
    && (sh.attempted != {} ==> s.jobs[sh.job].selected[sh.index] in sh.attempted)
    && (!sh.phase.Exhausted? ==> sh.node !in sh.attempted)
  }

  ghost predicate Tried(s: State) {
    forall i :: 0 <= i < |s.shards| ==> TriedOk(s, i)
  }

  lemma {:induction false} StepTriedOk(s: State, a: Action)
    requires Shape(s) && Wired(s) && Enabled(s, a) && ByShard(a) && TriedOk(s, a.shard)
    ensures a.shard < |Apply(s, a).shards| && TriedOk(Apply(s, a), a.shard)
  {
    var t, i := Apply(s, a), a.shard;
    assert ShardOk(s, i);
    IsShardStep(s, a);
    ShardActionCases(s, a);
    if !Sent(s, t, i) && !Ended(s, t, i) {
      var sh := s.shards[i];
      FailFacts(if sh.phase.InRequest? then Release(s, sh.node) else s, i, a.next);
    }
  }

  lemma {:induction false} SameTried(s: State, t: State, i: nat, k: nat)
    requires ShardStep(s, t, i) && k < |s.shards| && k != i && TriedOk(s, k)
    ensures TriedOk(t, k)
  {
  }

  lemma {:induction false} TriedKept(s: State, a: Action)
    requires Shape(s) && Wired(s) && Enabled(s, a) && Tried(s)
    ensures Tried(Apply(s, a))
  {
    var t := Apply(s, a);
    if ByShard(a) {
      IsShardStep(s, a);
      assert TriedOk(s, a.shard);
      StepTriedOk(s, a);
      forall k | 0 <= k < |t.shards| ensures TriedOk(t, k) {
        if k != a.shard {
          assert TriedOk(s, k);
          SameTried(s, t, a.shard, k);
        }
      }
    } else {
      forall k | 0 <= k < |t.shards| ensures TriedOk(t, k) {
        if k < |s.shards| { assert TriedOk(s, k) && t.shards[k] == s.shards[k]; }
      }
    }
  }

  lemma {:induction false} RunTried(s: State, acts: seq<Action>)
    requires Inv(s) && Tried(s) && Runnable(s, acts)
    ensures Tried(Run(s, acts))
    decreases |acts|
  {
    if acts != [] {
      InvKept(s, acts[0]);
      TriedKept(s, acts[0]);
      RunTried(Apply(s, acts[0]), acts[1..]);
    }
  }

  lemma {:induction false} ResultScore(s: State, j: nat, k: nat)
    requires Shape(s) && Homes(s) && Tried(s) && j < |s.jobs| && s.jobs[j].status == Done && k < |s.jobs[j].results|
    ensures |s.jobs[j].selected| == |s.jobs[j].results|
    ensures s.jobs[j].results[k].node == s.jobs[j].selected[k] <==> Score(s, s.jobs[j].base + k) <= 1
  {
    var i := s.jobs[j].base + k;
    assert JobHome(s, j) && JobOk(s, j);
    assert ShardOk(s, i) && TriedOk(s, i);
    if s.shards[i].attempted != {} { assert |s.shards[i].attempted| >= 1; }
  }

  lemma {:induction false} ReachedTried(limit: nat, acts: seq<Action>)
    requires Runnable(Init(limit), acts)
    ensures Tried(Run(Init(limit), acts))
  {
    InitInv(limit);
    RunTried(Init(limit), acts);
  }

  /** In every reachable state a shard has on record exactly the attempts of it that failed. */
  lemma {:induction false} ReachedScore(limit: nat, acts: seq<Action>, i: nat)
    requires Runnable(Init(limit), acts)
    ensures Score(Run(Init(limit), acts), i) == Failures(Init(limit), acts, i)
  {
    InitInv(limit);
    RunScore(Init(limit), acts, i);
  }

  /** Over every run: result k of a done job comes from the node the job was given for it if and only
      if at most one attempt of that shard failed. */
  lemma {:induction false} ResultAtHomeUnlessFailedTwice(limit: nat, acts: seq<Action>, j: nat, k: nat)
    requires Runnable(Init(limit), acts) && j < |Run(Init(limit), acts).jobs|
    requires var job := Run(Init(limit), acts).jobs[j]; job.status == Done && k < |job.results|
    ensures var job := Run(Init(limit), acts).jobs[j];
            && k < |job.selected|
            && (job.results[k].node == job.selected[k] <==> Failures(Init(limit), acts, job.base + k) <= 1)
  {
    ReachedHomes(limit, acts);
    ReachedTried(limit, acts);
    var s := Run(Init(limit), acts);
    ReachedScore(limit, acts, s.jobs[j].base + k);
    ResultScore(s, j, k);
  }

  /** Hence a pinned job that is done ran on its node if and only if its shard failed at most once. */
  lemma {:induction false} PinnedUnlessFailedTwice(limit: nat, acts: seq<Action>, j: nat)
    requires Runnable(Init(limit), acts) && j < |Run(Init(limit), acts).jobs|
    requires var job := Run(Init(limit), acts).jobs[j]; job.status == Done && job.pinned.Some?
    ensures var job := Run(Init(limit), acts).jobs[j];
            && |job.results| == 1
            && (job.results[0].node == job.pinned.value <==> Failures(Init(limit), acts, job.base) <= 1)
  {
    ReachedHomes(limit, acts);
    ReachedTried(limit, acts);
    ReachedScore(limit, acts, Run(Init(limit), acts).jobs[j].base);
    PinnedScore(Run(Init(limit), acts), j);
  }

  lemma {:induction false} PinnedScore(s: State, j: nat)
    requires Shape(s) && Homes(s) && Tried(s) && j < |s.jobs| && s.jobs[j].status == Done && s.jobs[j].pinned.Some?
    ensures |s.jobs[j].results| == 1
    ensures s.jobs[j].results[0].node == s.jobs[j].pinned.value <==> Score(s, s.jobs[j].base) <= 1
  {
    assert JobHome(s, j) && JobOk(s, j);
    ResultScore(s, j, 0);
  }

  // ---- which nodes are chosen ----

  /** Jobs `n` itself reported, none if it has not reported. */
  function Reported(s: State, n: string): nat { if n in s.load then s.load[n] else 0 }

  /** `n` is the better choice than `m`: fewer jobs reported and sent, or as many and the smaller id. */
  ghost predicate Lighter(s: State, n: string, m: string) {
    var x, y := Reported(s, n) + Busy(s.shards, n), Reported(s, m) + Busy(s.shards, m);
    x < y || (x == y && (n == m || StrLess(n, m)))
  }

  lemma {:induction false} RankedIsLighter(s: State, n: string, m: string)
    requires Balanced(s)
    ensures RankedBefore(s, n, m) <==> Lighter(s, n, m)
  {
    assert BalancedAt(s, n) && BalancedAt(s, m);
  }

  /** In every reachable state an unpinned job is given the nodes that have the fewest jobs, reported
      by themselves or in flight to them, in that order, smaller ids first among equals. */
  lemma {:induction false} SubmitPicksLightest(limit: nat, acts: seq<Action>, a: Action, k: nat, m: string)
    requires Runnable(Init(limit), acts) && a.Submit? && a.pinned.None?
    requires Enabled(Run(Init(limit), acts), a) && k < |a.selected| && m in Run(Init(limit), acts).available
    requires forall l :: 0 <= l < k ==> a.selected[l] != m
    ensures var s := Run(Init(limit), acts); a.selected[k] in s.available && Lighter(s, a.selected[k], m)
  {
    InitInv(limit);
    RunInv(Init(limit), acts);
    var s := Run(Init(limit), acts);
    RankedIsLighter(s, a.selected[k], m);
    LeadingIsFirst(s, a.selected, k, m);
  }

  lemma {:induction false} LeadingIsFirst(s: State, selected: seq<string>, k: nat, m: string)
    requires LeadsRanking(s, selected) && k < |selected| && m in s.available && forall l :: 0 <= l < k ==> selected[l] != m
    ensures selected[k] in s.available && RankedBefore(s, selected[k], m)
  {
    if m in selected {
      var l :| 0 <= l < |selected| && selected[l] == m;
      if l == k { RankingTotal(s, m, m, m); }
    }
  }

  /** When a step logs a reassignment of shard `i`, it goes to the lightest available node the shard
      has not tried. */
  lemma {:induction false} ReassignPicksLightest(limit: nat, acts: seq<Action>, a: Action, i: nat, m: string)
    requires Runnable(Init(limit), acts) && Enabled(Run(Init(limit), acts), a)
    requires var s := Run(Init(limit), acts);
             var t := Apply(s, a);
             && |t.events| == |s.events| + 1 && IsMove(t.events[|s.events|], i)
             && i < |s.shards| && m in s.available && m !in s.shards[i].attempted && m != s.shards[i].node
    ensures var s := Run(Init(limit), acts);
            var node := Apply(s, a).events[|s.events|].node;
            && node.Some? && node.value in s.available
            && node.value !in s.shards[i].attempted && node.value != s.shards[i].node
            && Lighter(s, node.value, m)
  {
    InitInv(limit);
    RunInv(Init(limit), acts);
    MovePicksLightest(Run(Init(limit), acts), a, i, m);
  }

  lemma {:induction false} MovePicksLightest(s: State, a: Action, i: nat, m: string)
    requires Shape(s) && Wired(s) && Balanced(s) && Enabled(s, a)
    requires var t := Apply(s, a);
             && |t.events| == |s.events| + 1 && IsMove(t.events[|s.events|], i)
             && i < |s.shards| && m in s.available && m !in s.shards[i].attempted && m != s.shards[i].node
    ensures var node := Apply(s, a).events[|s.events|].node;
            && node.Some? && node.value in s.available
            && node.value !in s.shards[i].attempted && node.value != s.shards[i].node
            && Lighter(s, node.value, m)
  {
    MoveIsFailure(s, a, i);
    MoveNames(s, Apply(s, a), i, a.next);
    NextIsRanked(s, i, a.next, m);
    RankedIsLighter(s, a.next, m);
  }

  /** The event names the node the shard moves to, one it has not tried. */
  lemma {:induction false} MoveNames(s: State, t: State, i: nat, next: string)
    requires GaveWay(s, t, i, next) && |t.events| == |s.events| + 1 && IsMove(t.events[|s.events|], i)
    ensures t.events[|s.events|].node == Some(next)
    ensures next in s.available && next !in s.shards[i].attempted && next != s.shards[i].node
  {
    var sh := s.shards[i];
    FailFacts(if sh.phase.InRequest? then Release(s, sh.node) else s, i, next);
  }

  lemma {:induction false} NextIsRanked(s: State, i: nat, next: string, m: string)
    requires i < |s.shards| && NextIs(if s.shards[i].phase.InRequest? then Release(s, s.shards[i].node) else s, i, next)
    requires m in s.available && m !in s.shards[i].attempted && m != s.shards[i].node
    ensures RankedBefore(s, next, m)
  {
    var sh := s.shards[i];
    assert m in s.available - (sh.attempted + {sh.node});
    ReleasedRanking(s, sh.node, next, m);
  }

  /** Only a shard's own failure moves it. */
  lemma {:induction false} MoveIsFailure(s: State, a: Action, i: nat)
    requires Shape(s) && Wired(s) && Enabled(s, a)
    requires var t := Apply(s, a); |t.events| == |s.events| + 1 && IsMove(t.events[|s.events|], i) && i < |s.shards|
    ensures ByShard(a) && !a.CancelShard? && a.shard == i && GaveWay(s, Apply(s, a), i, a.next)
  {
    var t := Apply(s, a);
    if ByShard(a) {
      ShardActionCases(s, a);
      if !Sent(s, t, a.shard) && !Ended(s, t, a.shard) {
        var sh := s.shards[a.shard];
        FailFacts(if sh.phase.InRequest? then Release(s, sh.node) else s, a.shard, a.next);
      }
    }
  }

  lemma {:induction false} ReleasedRanking(s: State, n: string, x: string, y: string)
    requires x != n && y != n
    ensures RankedBefore(Release(s, n), x, y) <==> RankedBefore(s, x, y)
  {
  }

  // ---- what ends a shard, and what its job then is, told by the answers ----

  /** Some request of shard `i` was answered so in the course of a run. */
  ghost predicate GotAnswer(acts: seq<Action>, i: nat, outcome: Outcome) {
    exists k :: 0 <= k < |acts| && IsAnswer(acts[k], i, outcome)
  }

  predicate IsAnswer(a: Action, i: nat, outcome: Outcome) {
    a.Respond? && a.shard == i && a.outcome == outcome
  }

  lemma {:induction false} AnsweredFirst(acts: seq<Action>, i: nat, outcome: Outcome)
    requires acts != []
    ensures GotAnswer(acts, i, outcome) <==> IsAnswer(acts[0], i, outcome) || GotAnswer(acts[1..], i, outcome)
  {
    if GotAnswer(acts[1..], i, outcome) {
      var k :| 0 <= k < |acts[1..]| && IsAnswer(acts[1..][k], i, outcome);
      assert acts[k + 1] == acts[1..][k];
    }
    if GotAnswer(acts, i, outcome) && !IsAnswer(acts[0], i, outcome) {
      var k :| 0 <= k < |acts| && IsAnswer(acts[k], i, outcome);
      assert acts[1..][k - 1] == acts[k];
    }
  }

  predicate EndsIn(s: State, i: nat, outcome: Outcome) {
    i < |s.shards| && (if outcome.Success? then s.shards[i].phase.Finished? else outcome.Reject? && s.shards[i].phase.Rejected?)
  }

  lemma {:induction false} StepEnds(s: State, a: Action, i: nat, outcome: Outcome)
    requires Shape(s) && Wired(s) && Enabled(s, a) && !outcome.Transient?
    ensures EndsIn(Apply(s, a), i, outcome) <==> EndsIn(s, i, outcome) || IsAnswer(a, i, outcome)
  {
    var t := Apply(s, a);
    if ByShard(a) {
      IsShardStep(s, a);
      if a.shard == i { ShardEnds(s, a, outcome); }
    } else if i < |s.shards| {
      assert t.shards[i] == s.shards[i];
    }
  }

  lemma {:induction false} ShardEnds(s: State, a: Action, outcome: Outcome)
    requires Shape(s) && Wired(s) && Enabled(s, a) && ByShard(a) && !outcome.Transient?
    ensures EndsIn(Apply(s, a), a.shard, outcome) <==> IsAnswer(a, a.shard, outcome)
  {
    assert ShardOk(s, a.shard);
    if FailsAt(s, a, a.shard) {
      FailingGivesWay(s, a);
      var sh := s.shards[a.shard];
      FailFacts(if sh.phase.InRequest? then Release(s, sh.node) else s, a.shard, a.next);
    }
  }

  lemma {:induction false} RunEnds(s: State, acts: seq<Action>, i: nat, outcome: Outcome)
    requires Inv(s) && Runnable(s, acts) && !outcome.Transient?
    ensures EndsIn(Run(s, acts), i, outcome) <==> EndsIn(s, i, outcome) || GotAnswer(acts, i, outcome)
    decreases |acts|
  {
    if acts != [] {
      StepEnds(s, acts[0], i, outcome);
      InvKept(s, acts[0]);
      RunEnds(Apply(s, acts[0]), acts[1..], i, outcome);
      AnsweredFirst(acts, i, outcome);
    }
  }

  /** In every reachable state a shard is finished exactly if a request of it succeeded, and rejected
      exactly if one was refused with a 4xx. */
  lemma {:induction false} EndsAsAnswered(limit: nat, acts: seq<Action>, i: nat)
    requires Runnable(Init(limit), acts) && i < |Run(Init(limit), acts).shards|
    ensures var sh := Run(Init(limit), acts).shards[i];
            && (sh.phase.Finished? <==> GotAnswer(acts, i, Success))
            && (sh.phase.Rejected? <==> GotAnswer(acts, i, Reject))
  {
    InitInv(limit);
    RunEnds(Init(limit), acts, i, Success);
    RunEnds(Init(limit), acts, i, Reject);
  }

  /** A job is done only if every one of its shards got a success; one refusal rules it out for good. */
  lemma {:induction false} DoneOnlyOnSuccess(limit: nat, acts: seq<Action>, j: nat, k: nat)
    requires Runnable(Init(limit), acts) && j < |Run(Init(limit), acts).jobs|
    requires var job := Run(Init(limit), acts).jobs[j]; job.status == Done && k < |job.chunks|
    ensures var job := Run(Init(limit), acts).jobs[j];
            GotAnswer(acts, job.base + k, Success) && !GotAnswer(acts, job.base + k, Reject)
  {
    ReachedHomes(limit, acts);
    var s := Run(Init(limit), acts);
    DoneFinished(s, j, k);
    EndsAsAnswered(limit, acts, s.jobs[j].base + k);
  }

  lemma {:induction false} DoneFinished(s: State, j: nat, k: nat)
    requires Shape(s) && Homes(s) && j < |s.jobs| && s.jobs[j].status == Done && k < |s.jobs[j].chunks|
    ensures s.jobs[j].base + k < |s.shards| && s.shards[s.jobs[j].base + k].phase.Finished?
  {
    assert JobHome(s, j) && JobOk(s, j);
    assert ResultOf(s.shards[s.jobs[j].base + k], s.jobs[j].results[k]);
  }

  predicate ErrorAt(shards: seq<Shard>, base: nat, k: nat) {
    base <= k < base + |shards| && !shards[k - base].phase.Finished?
  }

  lemma {:induction false} ErrorAtCons(shards: seq<Shard>, base: nat, k: nat)
    requires shards != []
    ensures ErrorAt(shards, base, k) <==> (k == base && !shards[0].phase.Finished?) || ErrorAt(shards[1..], base + 1, k)
  {
    if base < k < base + |shards| { assert shards[1..][k - (base + 1)] == shards[k - base]; }
  }

  lemma {:induction false} ErrorsCons(shards: seq<Shard>, e: Option<nat>)
    requires shards != []
    ensures e in Errors(shards) <==> (e == Some(shards[0].index) && !shards[0].phase.Finished?) || e in Errors(shards[1..])
  {
  }

  lemma {:induction false} ErrorsExact(shards: seq<Shard>, base: nat, k: nat)
    requires forall i :: 0 <= i < |shards| ==> shards[i].index == base + i
    ensures Some(k) in Errors(shards) <==> ErrorAt(shards, base, k)
    ensures None !in Errors(shards)
  {
    if shards != [] {
      ErrorsCons(shards, Some(k));
      ErrorsCons(shards, None);
      ErrorAtCons(shards, base, k);
      ErrorsExact(shards[1..], base + 1, k);
    }
  }

  lemma {:induction false} ResultsCons(shards: seq<Shard>, r: ShardResult)
    requires shards != []
    ensures r in Results(shards) <==>
            (shards[0].phase.Finished? && r == ShardResult(shards[0].index, shards[0].node, shards[0].payload))
            || r in Results(shards[1..])
  {
  }

  predicate ResultAt(shards: seq<Shard>, base: nat, r: ShardResult) {
    && base <= r.index < base + |shards|
    && shards[r.index - base].phase.Finished?
    && r.node == shards[r.index - base].node && r.payload == shards[r.index - base].payload
  }

  lemma {:induction false} ResultAtCons(shards: seq<Shard>, base: nat, r: ShardResult)
    requires shards != []
    ensures ResultAt(shards, base, r) <==>
            (shards[0].phase.Finished? && r == ShardResult(base, shards[0].node, shards[0].payload))
            || ResultAt(shards[1..], base + 1, r)
  {
    if r.index > base && r.index < base + |shards| {
      assert shards[1..][r.index - (base + 1)] == shards[r.index - base];
    }
  }

  lemma {:induction false} ResultsExact(shards: seq<Shard>, base: nat, r: ShardResult)
    requires forall i :: 0 <= i < |shards| ==> shards[i].index == base + i
    ensures r in Results(shards) <==> ResultAt(shards, base, r)
  {
    if shards != [] {
      ResultsCons(shards, r);
      ResultAtCons(shards, base, r);
      ResultsExact(shards[1..], base + 1, r);
    }
  }

  /** Errors name exactly the shards that did not finish, results exactly those that did. */
  lemma {:induction false} OutcomesExact(shards: seq<Shard>, k: nat)
    requires forall i :: 0 <= i < |shards| ==> shards[i].index == i
    ensures Some(k) in Errors(shards) <==> k < |shards| && !shards[k].phase.Finished?
    ensures None !in Errors(shards)
    ensures (exists r :: r in Results(shards) && r.index == k) <==> k < |shards| && shards[k].phase.Finished?
  {
    ErrorsExact(shards, 0, k);
    if k < |shards| && shards[k].phase.Finished? {
      ResultsExact(shards, 0, ShardResult(k, shards[k].node, shards[k].payload));
    }
    forall r | r in Results(shards) && r.index == k ensures k < |shards| && shards[k].phase.Finished? {
      ResultsExact(shards, 0, r);
    }
  }

  /** How a job ends when its shards have: done exactly if each of them got a success and the merge
      worked, else failed; its errors name exactly the shards without a success, and the merge if that
      failed; its results are exactly those of the shards with one. Only a search is merged. */
  lemma {:induction false} FinishExact(limit: nat, acts: seq<Action>, j: nat, mergeOk: bool, k: nat)
    requires Runnable(Init(limit), acts) && Enabled(Run(Init(limit), acts), Finish(j, mergeOk))
    ensures var s := Run(Init(limit), acts);
            var job, was := Apply(s, Finish(j, mergeOk)).jobs[j], s.jobs[j];
            && (mergeOk || job.kind == Search)
            && (job.status == Done <==> mergeOk && forall i: nat :: was.base <= i < was.base + |was.chunks| ==> GotAnswer(acts, i, Success))
            && (job.status == Done || job.status == Failed)
            && (Some(k) in job.errors <==> k < |was.chunks| && !GotAnswer(acts, was.base + k, Success))
            && (None in job.errors <==> !mergeOk)
            && ((exists r :: r in job.results && r.index == k) <==> k < |was.chunks| && GotAnswer(acts, was.base + k, Success))
  {
    ReachedHomes(limit, acts);
    var s := Run(Init(limit), acts);
    Mine(s, j);
    forall i: nat | i < |s.shards| ensures s.shards[i].phase.Finished? <==> GotAnswer(acts, i, Success) {
      EndsAsAnswered(limit, acts, i);
    }
    FinishAt(s, acts, j, mergeOk, k);
  }

  /** `acts` are answers that explain which shards have finished. */
  ghost predicate Explains(acts: seq<Action>, s: State) {
    forall i: nat :: i < |s.shards| ==> (s.shards[i].phase.Finished? <==> GotAnswer(acts, i, Success))
  }

  lemma {:induction false} FinishAt(s: State, acts: seq<Action>, j: nat, mergeOk: bool, k: nat)
    requires Shape(s) && Wired(s) && Enabled(s, Finish(j, mergeOk)) && Explains(acts, s)
    ensures var job, was := Apply(s, Finish(j, mergeOk)).jobs[j], s.jobs[j];
            && (mergeOk || job.kind == Search)
            && (job.status == Done <==> mergeOk && forall i: nat :: was.base <= i < was.base + |was.chunks| ==> GotAnswer(acts, i, Success))
            && (job.status == Done || job.status == Failed)
    ensures var job, was := Apply(s, Finish(j, mergeOk)).jobs[j], s.jobs[j];
            && (Some(k) in job.errors <==> k < |was.chunks| && !GotAnswer(acts, was.base + k, Success))
            && (None in job.errors <==> !mergeOk)
            && ((exists r :: r in job.results && r.index == k) <==> k < |was.chunks| && GotAnswer(acts, was.base + k, Success))
  {
    FinishMeans(s, j, mergeOk, k);
    MineGot(s, acts, j);
    AllGot(JobShards(s, j), acts, s.jobs[j].base);
  }

  lemma {:induction false} MineGot(s: State, acts: seq<Action>, j: nat)
    requires Shape(s) && j < |s.jobs| && s.jobs[j].status == Running && Explains(acts, s)
    ensures s.jobs[j].base + |s.jobs[j].chunks| <= |s.shards| && |JobShards(s, j)| == |s.jobs[j].chunks|
    ensures forall i :: 0 <= i < |JobShards(s, j)| ==>
              (JobShards(s, j)[i].phase.Finished? <==> GotAnswer(acts, s.jobs[j].base + i, Success))
  {
    Mine(s, j);
  }

  lemma {:induction false} AllGot(mine: seq<Shard>, acts: seq<Action>, base: nat)
    requires forall i :: 0 <= i < |mine| ==> (mine[i].phase.Finished? <==> GotAnswer(acts, base + i, Success))
    ensures (forall i :: 0 <= i < |mine| ==> mine[i].phase.Finished?) <==>
            forall i: nat :: base <= i < base + |mine| ==> GotAnswer(acts, i, Success)
  {
    if forall i: nat :: base <= i < base + |mine| ==> GotAnswer(acts, i, Success) {
      forall i | 0 <= i < |mine| ensures mine[i].phase.Finished? { assert GotAnswer(acts, base + i, Success); }
    }
    if forall i :: 0 <= i < |mine| ==> mine[i].phase.Finished? {
      forall i: nat | base <= i < base + |mine| ensures GotAnswer(acts, i, Success) { assert mine[i - base].phase.Finished?; }
    }
  }

  lemma {:induction false} FinishStatus(s: State, j: nat, mergeOk: bool)
    requires Wired(s) && Enabled(s, Finish(j, mergeOk))
    ensures var job, mine := Apply(s, Finish(j, mergeOk)).jobs[j], JobShards(s, j);
            && job.kind == s.jobs[j].kind && job.results == Results(mine)
            && job.errors == Errors(mine) + (if mergeOk then [] else [None])
            && (job.status == Done <==> mergeOk && Errors(mine) == []) && (job.status == Done || job.status == Failed)
  {
  }

  /** A running job's shards, as it sees them at its end. */
  lemma {:induction false} Mine(s: State, j: nat)
    requires Shape(s) && j < |s.jobs| && s.jobs[j].status == Running
    ensures s.jobs[j].base + |s.jobs[j].chunks| <= |s.shards| && |JobShards(s, j)| == |s.jobs[j].chunks|
    ensures forall i :: 0 <= i < |JobShards(s, j)| ==>
              JobShards(s, j)[i].index == i && JobShards(s, j)[i] == s.shards[s.jobs[j].base + i]
  {
    assert JobOk(s, j);
  }

  lemma {:induction false} FinishMeans(s: State, j: nat, mergeOk: bool, k: nat)
    requires Shape(s) && Wired(s) && Enabled(s, Finish(j, mergeOk))
    ensures var job, mine := Apply(s, Finish(j, mergeOk)).jobs[j], JobShards(s, j);
            && job.kind == s.jobs[j].kind
            && (job.status == Done <==> mergeOk && forall i :: 0 <= i < |mine| ==> mine[i].phase.Finished?)
            && (job.status == Done || job.status == Failed)
            && (Some(k) in job.errors <==> k < |mine| && !mine[k].phase.Finished?)
            && (None in job.errors <==> !mergeOk)
            && ((exists r :: r in job.results && r.index == k) <==> k < |mine| && mine[k].phase.Finished?)
  {
    Mine(s, j);
    FinishStatus(s, j, mergeOk);
    OutcomesExact(JobShards(s, j), k);
    NoErrors(JobShards(s, j));
  }

  lemma {:induction false} NoErrors(shards: seq<Shard>)
    ensures Errors(shards) == [] <==> forall i :: 0 <= i < |shards| ==> shards[i].phase.Finished?
  {
    if shards != [] {
      NoErrors(shards[1..]);
      if Errors(shards) == [] { ResultsWhenAllFinished(shards); }
    }
  }

  // ---- the status events carry ----

  /** The status a job has just after an event of this kind. */
  predicate StatusFits(e: Event) {
    match e.kind
    case JobQueued => e.status == Queued
    case JobCompleted => e.status == Done
    case JobFailed => e.status == Failed
    case JobCancelled => e.status == Failed
    case _ => e.status == Running
  }

  ghost predicate StatusesFit(events: seq<Event>) {
    forall k :: 0 <= k < |events| ==> StatusFits(events[k])
  }

  /** From `s` to `t` the log gains nothing, or one event that carries its status. */
  ghost predicate GainsFitting(s: State, t: State) {
    || t.events == s.events
    || (|t.events| == |s.events| + 1 && t.events[..|s.events|] == s.events && StatusFits(t.events[|s.events|]))
  }

  lemma {:induction false} FailStatusFits(s: State, i: nat, next: string)
    requires i < |s.shards| && s.shards[i].job < |s.jobs| && s.jobs[s.shards[i].job].status == Running
    ensures GainsFitting(s, Fail(s, i, next))
  {
  }

  lemma {:induction false} AcquireStatusFits(s: State, i: nat, next: string)
    requires Wired(s) && Enabled(s, Acquire(i, next)) && s.jobs[s.shards[i].job].status == Running
    ensures GainsFitting(s, Apply(s, Acquire(i, next)))
  {
    FailStatusFits(s, i, next);
  }

  lemma {:induction false} RespondStatusFits(s: State, i: nat, outcome: Outcome, next: string)
    requires Wired(s) && Enabled(s, Respond(i, outcome, next)) && s.jobs[s.shards[i].job].status == Running
    ensures GainsFitting(s, Apply(s, Respond(i, outcome, next)))
  {
    FailStatusFits(Release(s, s.shards[i].node), i, next);
  }

  lemma {:induction false} ShardStatusFits(s: State, a: Action)
    requires Shape(s) && Wired(s) && Enabled(s, a) && ByShard(a)
    ensures GainsFitting(s, Apply(s, a))
  {
    assert ShardOk(s, a.shard);
    match a
    case Acquire(i, next) => AcquireStatusFits(s, i, next);
    case Respond(i, outcome, next) => RespondStatusFits(s, i, outcome, next);
    case CancelShard(i) =>
  }

  lemma {:induction false} JobStatusFits(s: State, a: Action)
    requires Wired(s) && Enabled(s, a) && !ByShard(a)
    ensures GainsFitting(s, Apply(s, a))
  {
  }

  lemma {:induction false} StatusesKept(s: State, a: Action)
    requires Shape(s) && Wired(s) && Enabled(s, a) && StatusesFit(s.events)
    ensures StatusesFit(Apply(s, a).events)
  {
    var t := Apply(s, a);
    if ByShard(a) { ShardStatusFits(s, a); } else { JobStatusFits(s, a); }
    forall k | 0 <= k < |t.events| ensures StatusFits(t.events[k]) {
      if k < |s.events| && t.events != s.events { assert t.events[..|s.events|][k] == s.events[k]; }
    }
  }

  lemma {:induction false} RunStatuses(s: State, acts: seq<Action>)
    requires Inv(s) && StatusesFit(s.events) && Runnable(s, acts)
    ensures StatusesFit(Run(s, acts).events)
    decreases |acts|
  {
    if acts != [] {
      StatusesKept(s, acts[0]);
      InvKept(s, acts[0]);
      RunStatuses(Apply(s, acts[0]), acts[1..]);
    }
  }

  /** Over every run each event carries the status its kind stands for. */
  lemma {:induction false} EventsCarryStatus(limit: nat, acts: seq<Action>)
    requires Runnable(Init(limit), acts)
    ensures StatusesFit(Run(Init(limit), acts).events)
  {
    InitInv(limit);
    RunStatuses(Init(limit), acts);
  }
}
