/** ctl/queue.py as a transition system.

    The queue runs on one event loop, so its state changes only at the atomic sections between
    awaits. Each `Action` below is one such section: a submission, the first step of `_run_job`, a
    shard obtaining its node's semaphore, a node's answer coming back, the end of a job, `close()`
    and the cancellations it causes. `SetNodes` is the environment: nodes join, leave, go offline
    or report a different load at any time. */
module Queue {
  import opened Contracts
  import opened Numbers
  import opened Ordering
  import P = Payload

  datatype Kind = Infer | Exec | Index | Search | Bench

  datatype Status = Queued | Running | Done | Failed

  /** Where a shard is: waiting for a permit, inside a node's request region, or ended. */
  datatype Phase = Waiting | InRequest | Finished | Rejected | Exhausted | Cancelled

  datatype Shard = Shard(
    job: nat, index: nat, payload: P.Payload,
    node: string, attempt: nat, attempted: set<string>, phase: Phase)
  {
    predicate Live() { phase.Waiting? || phase.InRequest? }

    predicate Holding(n: string) { phase.InRequest? && node == n }
  }

  datatype ShardResult = ShardResult(index: nat, node: string, payload: P.Payload)

  /** Job ids are positions in `jobs`; once started, its shards are `shards[base..base + |chunks|]`.
      `pinned` is the job's `node_id`. An error names its shard, or none if the merge failed. */
  datatype Job = Job(
    kind: Kind, payload: P.Payload, fanout: nat, chunks: seq<P.Payload>,
    pinned: Option<string>, selected: seq<string>,
    status: Status, base: nat, nodes: seq<string>, results: seq<ShardResult>, errors: seq<Option<nat>>)

  datatype EventKind =
    | JobQueued | JobStarted | Dispatched | Retrying | Reassigned
    | JobCompleted | JobFailed | JobCancelled

  datatype Event = Event(
    sequence: nat, kind: EventKind, job: nat, node: Option<string>, shard: Option<nat>, status: Status)

  datatype State = State(
    limit: nat,
    jobs: seq<Job>, shards: seq<Shard>,
    permits: map<string, nat>, inFlight: map<string, nat>,
    events: seq<Event>, nextSequence: nat,
    available: set<string>, load: map<string, nat>, closed: bool)

  function Get(m: map<string, nat>, n: string, default: nat): nat {
    if n in m then m[n] else default
  }

  /** Free permits of a node's semaphore, created on first use with `per_node_limit` permits. */
  function Permits(s: State, n: string): nat { Get(s.permits, n, s.limit) }

  function InFlight(s: State, n: string): nat { Get(s.inFlight, n, 0) }

  function Load(s: State, n: string): nat { Get(s.load, n, 0) + InFlight(s, n) }

  /** `_ranked_nodes` sorts by (load, id). */
  predicate RankedBefore(s: State, a: string, b: string) {
    Load(s, a) < Load(s, b) || (Load(s, a) == Load(s, b) && StrLeq(a, b))
  }

  /** `n` heads `_ranked_nodes(exclude=excluded)`. */
  ghost predicate HeadsRanking(s: State, excluded: set<string>, n: string) {
    n in s.available - excluded && forall m :: m in s.available - excluded ==> RankedBefore(s, n, m)
  }

  /** `selected` is a leading part of `_ranked_nodes()`. */
  ghost predicate LeadsRanking(s: State, selected: seq<string>) {
    && Distinct(selected)
    && (forall k :: 0 <= k < |selected| ==> selected[k] in s.available)
    && (forall k, l :: 0 <= k < l < |selected| ==> RankedBefore(s, selected[k], selected[l]))
    && (forall k, m :: 0 <= k < |selected| && m in s.available && m !in selected ==> RankedBefore(s, selected[k], m))
  }

  datatype Outcome = Success | Reject | Transient

  datatype Action =
    | Submit(kind: Kind, payload: P.Payload, fanout: nat, pinned: Option<string>, selected: seq<string>)
    | Start(job: nat)
    | Acquire(shard: nat, next: string)
    | Respond(shard: nat, outcome: Outcome, next: string)
    | Finish(job: nat, mergeOk: bool)
    | Close
    | CancelShard(shard: nat)
    | FinishCancelled(job: nat)
    | SetNodes(available: set<string>, load: map<string, nat>)
  {
    /** A step of the queue itself on work already accepted. */
    predicate Progress() { Start? || Acquire? || Respond? || Finish? || CancelShard? || FinishCancelled? }
  }

  function Emit(s: State, kind: EventKind, j: nat, node: Option<string>, shard: Option<nat>): State
    requires j < |s.jobs|
  {
    s.(events := s.events + [Event(s.nextSequence, kind, j, node, shard, s.jobs[j].status)],
       nextSequence := s.nextSequence + 1)
  }

  function Take(s: State, n: string): State
    requires Permits(s, n) > 0
  {
    s.(permits := s.permits[n := Permits(s, n) - 1], inFlight := s.inFlight[n := InFlight(s, n) + 1])
  }

  /** The `finally` of `_request`, with its clamp, and the semaphore's release. */
  function Release(s: State, n: string): State {
    s.(permits := s.permits[n := Permits(s, n) + 1],
       inFlight := s.inFlight[n := Max(0, Get(s.inFlight, n, 1) - 1)])
  }

  ghost predicate ShardsEnded(s: State, j: nat)
    requires j < |s.jobs|
  {
    var job := s.jobs[j];
    job.base + |job.chunks| <= |s.shards|
    && forall i :: job.base <= i < job.base + |job.chunks| ==> !s.shards[i].Live()
  }

  /** If shard `i` has to move on, `next` is the node `_run_shard` picks. */
  ghost predicate NextIs(s: State, i: nat, next: string)
    requires i < |s.shards|
  {
    var tried := s.shards[i].attempted + {s.shards[i].node};
    s.available - tried != {} ==> HeadsRanking(s, tried, next)
  }

  ghost predicate Enabled(s: State, a: Action) {
    match a
    case Submit(kind, payload, fanout, pinned, selected) =>
      && !s.closed && fanout > 0
      && |selected| == |P.Shards(payload, if pinned.Some? then 1 else fanout)|
      && (if pinned.Some? then pinned.value in s.available && selected == [pinned.value]
          else LeadsRanking(s, selected))
    case Start(j) => !s.closed && j < |s.jobs| && s.jobs[j].status == Queued
    case Acquire(i, next) =>
      && !s.closed && i < |s.shards| && s.shards[i].phase.Waiting? && Permits(s, s.shards[i].node) > 0
      && NextIs(s, i, next)
    case Respond(i, outcome, next) =>
      && !s.closed && i < |s.shards| && s.shards[i].phase.InRequest?
      && NextIs(Release(s, s.shards[i].node), i, next)
    case Finish(j, mergeOk) =>
      && !s.closed && j < |s.jobs| && s.jobs[j].status == Running && ShardsEnded(s, j)
      && (mergeOk || s.jobs[j].kind == Search)
    case Close => !s.closed
    case CancelShard(i) => s.closed && i < |s.shards| && s.shards[i].Live()
    case FinishCancelled(j) => s.closed && j < |s.jobs| && s.jobs[j].status == Running && ShardsEnded(s, j)
    case SetNodes(_, _) => true
  }

  function NewJob(kind: Kind, payload: P.Payload, fanout: nat, pinned: Option<string>, selected: seq<string>): Job
    requires fanout > 0
  {
    Job(kind, payload, fanout, P.Shards(payload, fanout), pinned, selected, Queued, 0, selected, [], [])
  }

  function NewShards(s: State, j: nat): seq<Shard>
    requires j < |s.jobs| && |s.jobs[j].selected| == |s.jobs[j].chunks|
  {
    var job := s.jobs[j];
    seq(|job.chunks|, k requires 0 <= k < |job.chunks| =>
      Shard(j, k, job.chunks[k], job.selected[k], 0, {}, Waiting))
  }

  function SetShard(s: State, i: nat, sh: Shard): State
    requires i < |s.shards|
  {
    s.(shards := s.shards[i := sh])
  }

  /** A transient failure: retry once on the same node, then move to the best untried one. */
  function Fail(s: State, i: nat, next: string): State
    requires i < |s.shards| && s.shards[i].job < |s.jobs|
  {
    var sh := s.shards[i];
    var tried := sh.attempted + {sh.node};
    if sh.attempt == 0 then
      Emit(SetShard(s, i, sh.(attempt := 1, phase := Waiting)), Retrying, sh.job, Some(sh.node), Some(i))
    else if s.available - tried == {} then
      SetShard(s, i, sh.(attempted := tried, phase := Exhausted))
    else
      var job := s.jobs[sh.job];
      var grown := if next in job.nodes then job else job.(nodes := job.nodes + [next]);
      var moved := SetShard(s, i, sh.(attempted := tried, node := next, attempt := 0, phase := Waiting));
      Emit(moved.(jobs := s.jobs[sh.job := grown]), Reassigned, sh.job, Some(next), Some(i))
  }

  /** `results` and `errors` of `_run_job`, in shard order. */
  function Results(shards: seq<Shard>): seq<ShardResult> {
    if shards == [] then []
    else
      (if shards[0].phase.Finished? then [ShardResult(shards[0].index, shards[0].node, shards[0].payload)] else [])
      + Results(shards[1..])
  }

  function Errors(shards: seq<Shard>): seq<Option<nat>> {
    if shards == [] then []
    else (if shards[0].phase.Finished? then [] else [Some(shards[0].index)]) + Errors(shards[1..])
  }

  function JobShards(s: State, j: nat): seq<Shard>
    requires j < |s.jobs| && s.jobs[j].base + |s.jobs[j].chunks| <= |s.shards|
  {
    s.shards[s.jobs[j].base..s.jobs[j].base + |s.jobs[j].chunks|]
  }

  /** Every shard belongs to a job and every started job has its shards. */
  ghost predicate Wired(s: State) {
    && (forall i :: 0 <= i < |s.shards| ==> s.shards[i].job < |s.jobs|)
    && (forall j :: 0 <= j < |s.jobs| ==>
          && |s.jobs[j].selected| == |s.jobs[j].chunks|
          && (s.jobs[j].status != Queued ==> s.jobs[j].base + |s.jobs[j].chunks| <= |s.shards|))
  }

  ghost function Apply(s: State, a: Action): State
    requires Wired(s) && Enabled(s, a)
  {
    match a
    case Submit(kind, payload, fanout, pinned, selected) =>
      var job := NewJob(kind, payload, if pinned.Some? then 1 else fanout, pinned, selected);
      Emit(s.(jobs := s.jobs + [job]), JobQueued, |s.jobs|, None, None)
    case Start(j) =>
      var job := s.jobs[j].(status := Running, base := |s.shards|);
      Emit(s.(jobs := s.jobs[j := job], shards := s.shards + NewShards(s, j)), JobStarted, j, None, None)
    case Acquire(i, next) =>
      var sh := s.shards[i];
      if sh.node in s.available then
        Emit(SetShard(Take(s, sh.node), i, sh.(phase := InRequest)), Dispatched, sh.job, Some(sh.node), Some(i))
      else Fail(s, i, next)
    case Respond(i, outcome, next) =>
      var sh := s.shards[i];
      var free := Release(s, sh.node);
      (match outcome
       case Success => SetShard(free, i, sh.(phase := Finished))
       case Reject => SetShard(free, i, sh.(phase := Rejected))
       case Transient => Fail(free, i, next))
    case Finish(j, mergeOk) =>
      var mine := JobShards(s, j);
      var errors := Errors(mine) + (if mergeOk then [] else [None]);
      var bad := errors != [];
      var job := s.jobs[j].(status := if bad then Failed else Done, results := Results(mine), errors := errors);
      Emit(s.(jobs := s.jobs[j := job]), if bad then JobFailed else JobCompleted, j, None, None)
    case Close => s.(closed := true)
    case CancelShard(i) =>
      var sh := s.shards[i];
      var free := if sh.phase.InRequest? then Release(s, sh.node) else s;
      SetShard(free, i, sh.(phase := Cancelled))
    case FinishCancelled(j) =>
      var job := s.jobs[j].(status := Failed, results := [], errors := []);
      Emit(s.(jobs := s.jobs[j := job]), JobCancelled, j, None, None)
    case SetNodes(available, load) => s.(available := available, load := load)
  }

  function Init(limit: nat): State {
    State(limit, [], [], map[], map[], [], 1, {}, map[], false)
  }
}
