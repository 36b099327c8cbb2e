/** What every step of the job queue keeps, and hence every reachable state satisfies. */
module QueueInvariants {
  import opened Contracts
  import opened Queue
  import P = Payload

  // ---- jobs and shards belong together ----

  ghost predicate ShardOk(s: State, i: nat)
    requires i < |s.shards|
  {
    var sh := s.shards[i];
    && sh.job < |s.jobs|
    && var job := s.jobs[sh.job];
    && job.status != Queued
    && sh.index < |job.chunks| && job.base + sh.index == i && sh.payload == job.chunks[sh.index]
    && sh.node in job.nodes
    && sh.attempt <= 1
    && (sh.Live() ==> job.status == Running && sh.node !in sh.attempted)
  }

  /** A done job has one result per shard, in shard order, each computed from that shard's
      payload by a node the job was assigned to. */
  ghost predicate Covers(job: Job) {
    && |job.results| == |job.chunks|
    && forall k :: 0 <= k < |job.results| ==>
         && job.results[k].index == k
         && job.results[k].payload == job.chunks[k]
         && job.results[k].node in job.nodes
  }

  ghost predicate JobOk(s: State, j: nat)
    requires j < |s.jobs|
  {
    var job := s.jobs[j];
    && job.fanout > 0 && job.chunks == P.Shards(job.payload, job.fanout)
    && |job.selected| == |job.chunks|
    && (forall k :: 0 <= k < |job.selected| ==> job.selected[k] in job.nodes)
    && (job.status != Queued ==>
          && job.base + |job.chunks| <= |s.shards|
          && forall i :: job.base <= i < job.base + |job.chunks| ==>
               s.shards[i].job == j && s.shards[i].index == i - job.base)
    && (job.status == Done ==> Covers(job))
  }

  ghost predicate Shape(s: State) {
    && (forall i :: 0 <= i < |s.shards| ==> ShardOk(s, i))
    && (forall j :: 0 <= j < |s.jobs| ==> JobOk(s, j))
  }

  /** A step that touches one live shard, and of its job at most the list of nodes, which grows. */
  ghost predicate ShardStep(s: State, t: State, i: nat) {
    && i < |s.shards| == |t.shards| && s.shards[i].Live() && s.shards[i].job < |s.jobs|
    && var a, b := s.shards[i], t.shards[i];
    && t.shards == s.shards[i := b]
    && b.job == a.job && b.index == a.index && b.payload == a.payload
    && b.attempt <= 1 && (b.Live() ==> b.node !in b.attempted)
    && a.attempted <= b.attempted
    && |t.jobs| == |s.jobs|
    && t.jobs == s.jobs[a.job := s.jobs[a.job].(nodes := t.jobs[a.job].nodes)]
    && s.jobs[a.job].nodes <= t.jobs[a.job].nodes
    && b.node in t.jobs[a.job].nodes
  }

  predicate ByShard(a: Action) { a.Acquire? || a.Respond? || a.CancelShard? }

  /** What one step appends to the log: nothing, or one event of job `j`. */
  ghost predicate Silent(s: State, t: State) {
    t.events == s.events && t.nextSequence == s.nextSequence
  }

  ghost predicate Logs(s: State, t: State, j: nat, kind: EventKind, node: Option<string>, shard: Option<nat>) {
    && t.nextSequence == s.nextSequence + 1
    && exists status :: t.events == s.events + [Event(s.nextSequence, kind, j, node, shard, status)]
  }

  /** Everything a transient failure changes: the shard leaves the request region for a retry on the
      same node, for a node it has not tried, or for good. */
  lemma {:induction false} FailFacts(s: State, i: nat, next: string)
    requires i < |s.shards| && s.shards[i].job < |s.jobs| && s.shards[i].Live() && s.shards[i].attempt <= 1
    requires s.shards[i].node in s.jobs[s.shards[i].job].nodes && s.shards[i].node !in s.shards[i].attempted
    requires NextIs(s, i, next)
    ensures var t := Fail(s, i, next);
            && ShardStep(s, t, i)
            && t.permits == s.permits && t.inFlight == s.inFlight && t.limit == s.limit
            && !t.shards[i].phase.InRequest?
    ensures var t := Fail(s, i, next);
            var a, b := s.shards[i], t.shards[i];
            || (a.attempt == 0 && b == a.(attempt := 1, phase := Waiting)
                && Logs(s, t, a.job, Retrying, Some(a.node), Some(i)))
            || (a.attempt == 1 && b == a.(attempted := a.attempted + {a.node}, phase := Exhausted) && Silent(s, t))
            || (a.attempt == 1 && next != a.node && next !in a.attempted && next in s.available
                && b == a.(attempted := a.attempted + {a.node}, node := next, attempt := 0, phase := Waiting)
                && Logs(s, t, a.job, Reassigned, Some(next), Some(i)))
  {
  }

  /** The three outcomes of a shard's step on its node, besides a transient failure. */
  ghost predicate Sent(s: State, t: State, i: nat) {
    && ShardStep(s, t, i)
    && var a := s.shards[i];
    && a.phase.Waiting? && Permits(s, a.node) > 0 && a.node in s.available
    && t.shards[i] == a.(phase := InRequest)
    && t.permits == Take(s, a.node).permits && t.inFlight == Take(s, a.node).inFlight && t.limit == s.limit
    && Logs(s, t, a.job, Dispatched, Some(a.node), Some(i))
  }

  ghost predicate Ended(s: State, t: State, i: nat) {
    && ShardStep(s, t, i)
    && var a := s.shards[i];
    && !t.shards[i].Live() && t.shards[i] == a.(phase := t.shards[i].phase)
    && (if a.phase.InRequest?
        then t.permits == Release(s, a.node).permits && t.inFlight == Release(s, a.node).inFlight
        else t.permits == s.permits && t.inFlight == s.inFlight)
    && t.limit == s.limit && Silent(s, t)
  }

  ghost predicate GaveWay(s: State, t: State, i: nat, next: string) {
    && i < |s.shards|
    && var a := s.shards[i];
    && var r := if a.phase.InRequest? then Release(s, a.node) else s;
    && a.Live() && a.job < |s.jobs| && a.attempt <= 1 && a.node !in a.attempted
    && a.node in s.jobs[a.job].nodes && NextIs(r, i, next)
    && t == Fail(r, i, next)
  }

  lemma {:induction false} ShardActionCases(s: State, a: Action)
    requires Shape(s) && Wired(s) && Enabled(s, a) && ByShard(a)
    ensures var t := Apply(s, a);
            Sent(s, t, a.shard) || Ended(s, t, a.shard) || (!a.CancelShard? && GaveWay(s, t, a.shard, a.next))
  {
    assert ShardOk(s, a.shard);
    match a
    case Acquire(i, next) => AcquireCases(s, i, next);
    case Respond(i, outcome, next) => RespondCases(s, i, outcome, next);
    case CancelShard(i) =>
  }

  lemma {:induction false} AcquireCases(s: State, i: nat, next: string)
    requires Wired(s) && Enabled(s, Acquire(i, next)) && ShardOk(s, i)
    ensures var t := Apply(s, Acquire(i, next)); Sent(s, t, i) || GaveWay(s, t, i, next)
  {
    var sh := s.shards[i];
    if sh.node in s.available {
      var t := Apply(s, Acquire(i, next));
      assert t.events == s.events
        + [Event(s.nextSequence, Dispatched, sh.job, Some(sh.node), Some(i), s.jobs[sh.job].status)];
    }
  }

  lemma {:induction false} RespondCases(s: State, i: nat, outcome: Outcome, next: string)
    requires Wired(s) && Enabled(s, Respond(i, outcome, next)) && ShardOk(s, i)
    ensures var t := Apply(s, Respond(i, outcome, next)); Ended(s, t, i) || GaveWay(s, t, i, next)
  {
  }

  lemma {:induction false} FailedStep(s: State, t: State, i: nat, next: string)
    requires GaveWay(s, t, i, next)
    ensures ShardStep(s, t, i)
  {
    FailFacts(if s.shards[i].phase.InRequest? then Release(s, s.shards[i].node) else s, i, next);
  }

  lemma {:induction false} IsShardStep(s: State, a: Action)
    requires Shape(s) && Wired(s) && Enabled(s, a) && ByShard(a)
    ensures ShardStep(s, Apply(s, a), a.shard)
  {
    var t := Apply(s, a);
    ShardActionCases(s, a);
    if !Sent(s, t, a.shard) && !Ended(s, t, a.shard) { FailedStep(s, t, a.shard, a.next); }
  }

  lemma {:induction false} ShardStepShape(s: State, t: State, i: nat)
    requires Shape(s) && ShardStep(s, t, i)
    ensures Shape(t)
  {
    forall k | 0 <= k < |t.shards| ensures ShardOk(t, k) {
      assert ShardOk(s, k) && ShardOk(s, i);
    }
    forall j | 0 <= j < |t.jobs| ensures JobOk(t, j) {
      assert JobOk(s, j);
    }
  }

  lemma {:induction false} ResultsWhenAllFinished(shards: seq<Shard>)
    requires Errors(shards) == []
    ensures |Results(shards)| == |shards|
    ensures forall k :: 0 <= k < |shards| ==>
              && shards[k].phase.Finished?
              && Results(shards)[k] == ShardResult(shards[k].index, shards[k].node, shards[k].payload)
  {
    if shards != [] {
      assert shards[0].phase.Finished?;
      ResultsWhenAllFinished(shards[1..]);
    }
  }

  lemma {:induction false} FinishCovers(s: State, j: nat)
    requires Shape(s) && j < |s.jobs| && s.jobs[j].status == Running && ShardsEnded(s, j)
    requires Errors(JobShards(s, j)) == []
    ensures Covers(s.jobs[j].(results := Results(JobShards(s, j))))
  {
    var job, mine := s.jobs[j], JobShards(s, j);
    assert JobOk(s, j);
    ResultsWhenAllFinished(mine);
    forall k | 0 <= k < |mine|
      ensures mine[k].index == k && mine[k].payload == job.chunks[k] && mine[k].node in job.nodes
    {
      assert ShardOk(s, job.base + k);
    }
  }

  lemma {:induction false} ShapeKept(s: State, a: Action)
    requires Shape(s) && Wired(s) && Enabled(s, a)
    ensures Shape(Apply(s, a)) && Wired(Apply(s, a))
  {
    var t := Apply(s, a);
    if ByShard(a) {
      IsShardStep(s, a);
      ShardStepShape(s, t, a.shard);
    } else {
      match a
      case Finish(j, mergeOk) =>
        if Errors(JobShards(s, j)) == [] { FinishCovers(s, j); }
        JobStepShape(s, t, j);
      case FinishCancelled(j) => JobStepShape(s, t, j);
      case Start(j) => StartShape(s, j);
      case Submit(_, _, _, _, _) => SubmitShape(s, a);
      case _ => SameShape(s, t);
    }
    ShapeWired(t);
  }

  lemma {:induction false} ShapeWired(s: State)
    requires Shape(s)
    ensures Wired(s)
  {
    forall i | 0 <= i < |s.shards| ensures s.shards[i].job < |s.jobs| { assert ShardOk(s, i); }
    forall j | 0 <= j < |s.jobs|
      ensures |s.jobs[j].selected| == |s.jobs[j].chunks|
      ensures s.jobs[j].status != Queued ==> s.jobs[j].base + |s.jobs[j].chunks| <= |s.shards|
    {
      assert JobOk(s, j);
    }
  }

  lemma {:induction false} SameShape(s: State, t: State)
    requires Shape(s) && t.jobs == s.jobs && t.shards == s.shards
    ensures Shape(t)
  {
    forall i | 0 <= i < |t.shards| ensures ShardOk(t, i) { assert ShardOk(s, i); }
    forall j | 0 <= j < |t.jobs| ensures JobOk(t, j) { assert JobOk(s, j); }
  }

  /** Ending a job whose shards have all ended disturbs nothing else. */
  lemma {:induction false} JobStepShape(s: State, t: State, j: nat)
    requires Shape(s) && j < |s.jobs| == |t.jobs| && s.jobs[j].status == Running && ShardsEnded(s, j)
    requires t.shards == s.shards
    requires t.jobs == s.jobs[j := s.jobs[j].(status := t.jobs[j].status, results := t.jobs[j].results,
                                              errors := t.jobs[j].errors)]
    requires t.jobs[j].status == Done || t.jobs[j].status == Failed
    requires t.jobs[j].status == Done ==> Covers(t.jobs[j])
    ensures Shape(t)
  {
    assert JobOk(s, j);
    forall i | 0 <= i < |t.shards| ensures ShardOk(t, i) {
      assert ShardOk(s, i);
    }
    forall k | 0 <= k < |t.jobs| ensures JobOk(t, k) { assert JobOk(s, k); }
  }

  lemma {:induction false} StartShape(s: State, j: nat)
    requires Shape(s) && Wired(s) && Enabled(s, Start(j))
    ensures Shape(Apply(s, Start(j)))
  {
    var t := Apply(s, Start(j));
    assert JobOk(s, j);
    forall i | 0 <= i < |t.shards| ensures ShardOk(t, i) {
      if i < |s.shards| { assert ShardOk(s, i) && t.shards[i] == s.shards[i]; }
    }
    forall k | 0 <= k < |t.jobs| ensures JobOk(t, k) {
      assert JobOk(s, k);
    }
  }

  lemma {:induction false} SubmitShape(s: State, a: Action)
    requires Shape(s) && Wired(s) && a.Submit? && Enabled(s, a)
    ensures Shape(Apply(s, a))
  {
    var t := Apply(s, a);
    forall i | 0 <= i < |t.shards| ensures ShardOk(t, i) { assert ShardOk(s, i); }
    forall k | 0 <= k < |t.jobs| ensures JobOk(t, k) {
      if k < |s.jobs| { assert JobOk(s, k) && t.jobs[k] == s.jobs[k]; }
    }
  }

  // ---- semaphores and in-flight counters ----

  /** Shards inside node `n`'s request region. */
  function Busy(shards: seq<Shard>, n: string): nat {
    if shards == [] then 0 else (if shards[0].Holding(n) then 1 else 0) + Busy(shards[1..], n)
  }

  lemma {:induction false} BusyUpdate(shards: seq<Shard>, i: nat, sh: Shard, n: string)
    requires i < |shards|
    ensures Busy(shards[i := sh], n)
         == Busy(shards, n) - (if shards[i].Holding(n) then 1 else 0) + (if sh.Holding(n) then 1 else 0)
  {
    if i == 0 {
      assert shards[i := sh][1..] == shards[1..];
    } else {
      BusyUpdate(shards[1..], i - 1, sh, n);
      assert shards[i := sh][1..] == shards[1..][i - 1 := sh];
    }
  }

  lemma {:induction false} BusyAppend(shards: seq<Shard>, more: seq<Shard>, n: string)
    requires forall k :: 0 <= k < |more| ==> !more[k].Holding(n)
    ensures Busy(shards + more, n) == Busy(shards, n)
  {
    if shards == [] {
      if more != [] {
        assert [] + more == more;
        BusyAppend([], more[1..], n);
        assert [] + more[1..] == more[1..];
      }
    } else {
      BusyAppend(shards[1..], more, n);
      assert (shards + more)[1..] == shards[1..] + more;
    }
  }

  /** A node's permits and its in-flight counter both account for exactly the shards in its
      request region, so the counter never exceeds the per-node limit. */
  ghost predicate BalancedAt(s: State, n: string) {
    Permits(s, n) + Busy(s.shards, n) == s.limit && InFlight(s, n) == Busy(s.shards, n)
  }

  ghost predicate Balanced(s: State) {
    forall n :: BalancedAt(s, n)
  }

  lemma {:induction false} BusyPositive(shards: seq<Shard>, i: nat)
    requires i < |shards| && shards[i].phase.InRequest?
    ensures Busy(shards, shards[i].node) > 0
  {
    if i > 0 { BusyPositive(shards[1..], i - 1); }
  }

  /** The clamp `max(0, ...)` in `_request` never changes a value. */
  lemma {:induction false} ClampIdle(s: State, i: nat)
    requires Balanced(s) && i < |s.shards| && s.shards[i].phase.InRequest?
    ensures var n := s.shards[i].node;
            n in s.inFlight && s.inFlight[n] > 0 && InFlight(Release(s, n), n) == s.inFlight[n] - 1
  {
    BusyPositive(s.shards, i);
    assert BalancedAt(s, s.shards[i].node);
  }

  lemma {:induction false} BalancedShardStep(s: State, t: State, i: nat, n: string)
    requires Balanced(s) && ShardStep(s, t, i) && t.limit == s.limit
    requires Sent(s, t, i) || Ended(s, t, i)
    ensures BalancedAt(t, n)
  {
    assert BalancedAt(s, n) && BalancedAt(s, s.shards[i].node);
    if s.shards[i].phase.InRequest? { ClampIdle(s, i); }
    BusyUpdate(s.shards, i, t.shards[i], n);
  }

  lemma {:induction false} BalancedFailed(s: State, t: State, i: nat, next: string, n: string)
    requires Balanced(s) && GaveWay(s, t, i, next)
    ensures BalancedAt(t, n)
  {
    var a := s.shards[i];
    FailFacts(if a.phase.InRequest? then Release(s, a.node) else s, i, next);
    assert BalancedAt(s, n) && BalancedAt(s, a.node);
    if a.phase.InRequest? { ClampIdle(s, i); }
    BusyUpdate(s.shards, i, t.shards[i], n);
  }

  lemma {:induction false} BalancedKept(s: State, a: Action)
    requires Shape(s) && Wired(s) && Enabled(s, a) && Balanced(s)
    ensures Balanced(Apply(s, a))
  {
    var t := Apply(s, a);
    if ByShard(a) {
      ShardActionCases(s, a);
      forall n ensures BalancedAt(t, n) {
        if Sent(s, t, a.shard) || Ended(s, t, a.shard) {
          BalancedShardStep(s, t, a.shard, n);
        } else {
          BalancedFailed(s, t, a.shard, a.next, n);
        }
      }
    } else {
      forall n ensures BalancedAt(t, n) {
        assert BalancedAt(s, n);
        if a.Start? { BusyAppend(s.shards, NewShards(s, a.job), n); }
      }
    }
  }

  // ---- the event log ----

  /** The kinds of job `j`'s events, in order. */
  function Trace(events: seq<Event>, j: nat): seq<EventKind> {
    if events == [] then []
    else
      var n := |events| - 1;
      Trace(events[..n], j) + (if events[n].job == j then [events[n].kind] else [])
  }

  lemma {:induction false} TraceAppend(events: seq<Event>, e: Event, j: nat)
    ensures Trace(events + [e], j) == Trace(events, j) + (if e.job == j then [e.kind] else [])
  {
    assert (events + [e])[..|events|] == events;
  }

  predicate Middle(k: EventKind) { k.Dispatched? || k.Retrying? || k.Reassigned? }

  ghost predicate Opened(tr: seq<EventKind>) {
    |tr| >= 2 && tr[0] == JobQueued && tr[1] == JobStarted && forall k :: 2 <= k < |tr| ==> Middle(tr[k])
  }

  /** queued, started, then dispatch/retry/reassign events, then at most one terminal event, last. */
  ghost predicate TraceFits(status: Status, tr: seq<EventKind>) {
    match status
    case Queued => tr == [JobQueued]
    case Running => Opened(tr)
    case Done => |tr| > 0 && Opened(tr[..|tr| - 1]) && tr[|tr| - 1] == JobCompleted
    case Failed => |tr| > 0 && Opened(tr[..|tr| - 1]) && (tr[|tr| - 1] == JobFailed || tr[|tr| - 1] == JobCancelled)
  }

  ghost predicate Traced(s: State) {
    && (forall j :: 0 <= j < |s.jobs| ==> TraceFits(s.jobs[j].status, Trace(s.events, j)))
    && (forall j :: |s.jobs| <= j ==> Trace(s.events, j) == [])
  }

  /** Sequence numbers are 1, 2, 3, ... without gaps. */
  ghost predicate Numbered(s: State) {
    s.nextSequence == |s.events| + 1 && forall k :: 0 <= k < |s.events| ==> s.events[k].sequence == k + 1
  }

  /** Every job but `j` was there before and has the status it had. */
  ghost predicate OthersUnmoved(s: State, t: State, j: nat) {
    forall k :: 0 <= k < |t.jobs| && k != j ==> k < |s.jobs| && t.jobs[k].status == s.jobs[k].status
  }

  lemma {:induction false} LogKept(s: State, t: State, j: nat, kind: EventKind, node: Option<string>, shard: Option<nat>)
    requires Traced(s) && Numbered(s) && Logs(s, t, j, kind, node, shard)
    requires |s.jobs| <= |t.jobs| && j < |t.jobs|
    requires OthersUnmoved(s, t, j)
    requires TraceFits(t.jobs[j].status, Trace(s.events, j) + [kind])
    ensures Traced(t) && Numbered(t)
  {
    var e := t.events[|s.events|];
    assert t.events == s.events + [e];
    assert Numbered(t);
    forall k | 0 <= k < |t.jobs| ensures TraceFits(t.jobs[k].status, Trace(t.events, k)) {
      TraceAppend(s.events, e, k);
      if k != j { assert Trace(t.events, k) == Trace(s.events, k); }
    }
    forall k | |t.jobs| <= k ensures Trace(t.events, k) == [] {
      TraceAppend(s.events, e, k);
    }
  }

  lemma {:induction false} SilentKept(s: State, t: State)
    requires Traced(s) && Numbered(s) && Silent(s, t) && |s.jobs| == |t.jobs|
    requires forall k :: 0 <= k < |t.jobs| ==> t.jobs[k].status == s.jobs[k].status
    ensures Traced(t) && Numbered(t)
  {
  }

  lemma {:induction false} EventsKept(s: State, a: Action)
    requires Shape(s) && Wired(s) && Enabled(s, a) && Traced(s) && Numbered(s)
    ensures Traced(Apply(s, a)) && Numbered(Apply(s, a))
  {
    var t := Apply(s, a);
    if ByShard(a) {
      ShardEventsKept(s, a);
    } else if a.Close? || a.SetNodes? {
      SilentKept(s, t);
    } else {
      JobEventsKept(s, a);
    }
  }

  lemma {:induction false} JobEventsKept(s: State, a: Action)
    requires Wired(s) && Enabled(s, a) && Traced(s) && Numbered(s)
    requires a.Submit? || a.Start? || a.Finish? || a.FinishCancelled?
    ensures Traced(Apply(s, a)) && Numbered(Apply(s, a))
  {
    var t := Apply(s, a);
    match a
    case Submit(_, _, _, _, _) => JobEventKept(s, t, |s.jobs|, JobQueued);
    case Start(j) => JobEventKept(s, t, j, JobStarted);
    case Finish(j, _) => JobEventKept(s, t, j, if t.jobs[j].status == Failed then JobFailed else JobCompleted);
    case FinishCancelled(j) => JobEventKept(s, t, j, JobCancelled);
  }

  /** The event that goes with a change of a job's status. */
  predicate Marks(before: Option<Status>, kind: EventKind, after: Status) {
    match kind
    case JobQueued => before == None && after == Queued
    case JobStarted => before == Some(Queued) && after == Running
    case JobCompleted => before == Some(Running) && after == Done
    case JobFailed => before == Some(Running) && after == Failed
    case JobCancelled => before == Some(Running) && after == Failed
    case _ => false
  }

  lemma {:induction false} JobEventKept(s: State, t: State, j: nat, kind: EventKind)
    requires Traced(s) && Numbered(s) && |s.jobs| <= |t.jobs| && j < |t.jobs|
    requires t.nextSequence == s.nextSequence + 1
    requires t.events == s.events + [Event(s.nextSequence, kind, j, None, None, t.jobs[j].status)]
    requires OthersUnmoved(s, t, j)
    requires Marks(if j < |s.jobs| then Some(s.jobs[j].status) else None, kind, t.jobs[j].status)
    ensures Traced(t) && Numbered(t)
  {
    var old', after := Trace(s.events, j), t.jobs[j].status;
    if j < |s.jobs| { assert TraceFits(s.jobs[j].status, old'); }
    MarkFits(if j < |s.jobs| then Some(s.jobs[j].status) else None, old', kind, after);
    assert Logs(s, t, j, kind, None, None);
    LogKept(s, t, j, kind, None, None);
  }

  lemma {:induction false} MarkFits(before: Option<Status>, tr: seq<EventKind>, kind: EventKind, after: Status)
    requires Marks(before, kind, after)
    requires if before.Some? then TraceFits(before.value, tr) else tr == []
    ensures TraceFits(after, tr + [kind])
  {
    var longer := tr + [kind];
    assert longer[..|longer| - 1] == tr;
  }

  lemma {:induction false} ShardEventsKept(s: State, a: Action)
    requires Shape(s) && Wired(s) && Enabled(s, a) && ByShard(a) && Traced(s) && Numbered(s)
    ensures Traced(Apply(s, a)) && Numbered(Apply(s, a))
  {
    var t, i := Apply(s, a), a.shard;
    assert ShardOk(s, i);
    IsShardStep(s, a);
    ShardActionCases(s, a);
    if Sent(s, t, i) {
      MiddleKept(s, t, i, Dispatched, Some(s.shards[i].node));
    } else if Ended(s, t, i) {
      SilentKept(s, t);
    } else {
      FailedEventsKept(s, t, i, a.next);
    }
  }

  lemma {:induction false} MiddleKept(s: State, t: State, i: nat, kind: EventKind, node: Option<string>)
    requires Traced(s) && Numbered(s) && ShardStep(s, t, i) && Middle(kind)
    requires s.jobs[s.shards[i].job].status == Running
    requires Logs(s, t, s.shards[i].job, kind, node, Some(i))
    ensures Traced(t) && Numbered(t)
  {
    LogKept(s, t, s.shards[i].job, kind, node, Some(i));
  }

  lemma {:induction false} FailedEventsKept(s: State, t: State, i: nat, next: string)
    requires Traced(s) && Numbered(s) && GaveWay(s, t, i, next)
    requires s.jobs[s.shards[i].job].status == Running
    ensures Traced(t) && Numbered(t)
  {
    var a := s.shards[i];
    FailedStep(s, t, i, next);
    FailFacts(if a.phase.InRequest? then Release(s, a.node) else s, i, next);
    if Silent(s, t) {
      SilentKept(s, t);
    } else if Logs(s, t, a.job, Retrying, Some(a.node), Some(i)) {
      MiddleKept(s, t, i, Retrying, Some(a.node));
    } else {
      MiddleKept(s, t, i, Reassigned, Some(next));
    }
  }

  // ---- how often a shard is sent ----

  predicate IsDispatch(e: Event, i: nat, n: string) {
    e.kind.Dispatched? && e.shard == Some(i) && e.node == Some(n)
  }

  /** How many times shard `i` was sent to node `n`. */
  function Dispatches(events: seq<Event>, i: nat, n: string): nat {
    if events == [] then 0
    else
      var k := |events| - 1;
      Dispatches(events[..k], i, n) + if IsDispatch(events[k], i, n) then 1 else 0
  }

  lemma {:induction false} DispatchesAppend(events: seq<Event>, e: Event, i: nat, n: string)
    ensures Dispatches(events + [e], i, n) == Dispatches(events, i, n) + if IsDispatch(e, i, n) then 1 else 0
  {
    assert (events + [e])[..|events|] == events;
  }

  /** Two sends to a node it has left, one per attempt begun on its current node, none elsewhere. */
  function Allowance(s: State, i: nat, n: string): nat {
    if i >= |s.shards| then 0
    else
      var sh := s.shards[i];
      if n in sh.attempted then 2
      else if n != sh.node then 0
      else if sh.phase.Waiting? then sh.attempt else sh.attempt + 1
  }

  ghost predicate FrugalAt(s: State, i: nat, n: string) {
    Dispatches(s.events, i, n) <= Allowance(s, i, n)
  }

  ghost predicate Frugal(s: State) {
    forall i: nat, n :: FrugalAt(s, i, n)
  }

  /** A step that sends nothing cannot break the allowance unless it shrinks. */
  lemma {:induction false} FrugalUnlessShrunk(s: State, t: State, i: nat, n: string)
    requires FrugalAt(s, i, n) && Allowance(s, i, n) <= Allowance(t, i, n)
    requires t.events == s.events
             || exists e: Event :: t.events == s.events + [e] && !IsDispatch(e, i, n)
    ensures FrugalAt(t, i, n)
  {
    if t.events != s.events {
      var e :| t.events == s.events + [e] && !IsDispatch(e, i, n);
      DispatchesAppend(s.events, e, i, n);
    }
  }

  lemma {:induction false} FrugalSent(s: State, t: State, i: nat, k: nat, n: string)
    requires Frugal(s) && Sent(s, t, i) && s.shards[i].node !in s.shards[i].attempted
    ensures FrugalAt(t, k, n)
  {
    assert FrugalAt(s, k, n);
    var e := t.events[|s.events|];
    DispatchesAppend(s.events, e, k, n);
    assert t.events == s.events + [e];
  }

  lemma {:induction false} FailedSendsNothing(s: State, t: State, i: nat, next: string, k: nat, n: string)
    requires GaveWay(s, t, i, next)
    ensures t.events == s.events || exists e: Event :: t.events == s.events + [e] && !IsDispatch(e, k, n)
  {
    var a := s.shards[i];
    FailFacts(if a.phase.InRequest? then Release(s, a.node) else s, i, next);
    if t.events != s.events {
      var e := t.events[|s.events|];
      assert t.events == s.events + [e];
    }
  }

  lemma {:induction false} FailedAllowance(s: State, t: State, i: nat, next: string, k: nat, n: string)
    requires GaveWay(s, t, i, next)
    ensures Allowance(s, k, n) <= Allowance(t, k, n)
  {
    var a := s.shards[i];
    FailedStep(s, t, i, next);
    FailFacts(if a.phase.InRequest? then Release(s, a.node) else s, i, next);
  }

  lemma {:induction false} FrugalFailed(s: State, t: State, i: nat, next: string, k: nat, n: string)
    requires Frugal(s) && GaveWay(s, t, i, next)
    ensures FrugalAt(t, k, n)
  {
    assert FrugalAt(s, k, n);
    FailedSendsNothing(s, t, i, next, k, n);
    FailedAllowance(s, t, i, next, k, n);
    FrugalUnlessShrunk(s, t, k, n);
  }

  lemma {:induction false} ShardStepFrugal(s: State, t: State, i: nat, next: string)
    requires Frugal(s) && i < |s.shards| && (s.shards[i].Live() ==> s.shards[i].node !in s.shards[i].attempted && s.shards[i].attempt <= 1)
    requires Sent(s, t, i) || Ended(s, t, i) || GaveWay(s, t, i, next)
    ensures Frugal(t)
  {
    forall k: nat, n ensures FrugalAt(t, k, n) {
      if Sent(s, t, i) {
        FrugalSent(s, t, i, k, n);
      } else if Ended(s, t, i) {
        assert FrugalAt(s, k, n);
        FrugalUnlessShrunk(s, t, k, n);
      } else {
        FrugalFailed(s, t, i, next, k, n);
      }
    }
  }

  lemma {:induction false} FrugalKept(s: State, a: Action)
    requires Shape(s) && Wired(s) && Enabled(s, a) && Frugal(s)
    ensures Frugal(Apply(s, a))
  {
    var t := Apply(s, a);
    if ByShard(a) {
      assert ShardOk(s, a.shard);
      ShardActionCases(s, a);
      ShardStepFrugal(s, t, a.shard, if a.CancelShard? then "" else a.next);
    } else {
      forall k: nat, n ensures FrugalAt(t, k, n) {
        assert FrugalAt(s, k, n);
        JobStepSendsNothing(s, a, k, n);
        FrugalUnlessShrunk(s, t, k, n);
      }
    }
  }

  lemma {:induction false} JobStepSendsNothing(s: State, a: Action, k: nat, n: string)
    requires Wired(s) && Enabled(s, a) && !ByShard(a)
    ensures var t := Apply(s, a);
            t.events == s.events || exists e: Event :: t.events == s.events + [e] && !IsDispatch(e, k, n)
    ensures Allowance(s, k, n) <= Allowance(Apply(s, a), k, n)
  {
    var t := Apply(s, a);
    if t.events != s.events {
      var e := t.events[|s.events|];
      assert t.events == s.events + [e];
    }
  }

  // ---- reachable states ----

  ghost predicate Inv(s: State) {
    Shape(s) && Wired(s) && Balanced(s) && Traced(s) && Numbered(s) && Frugal(s)
  }

  lemma {:induction false} InvKept(s: State, a: Action)
    requires Inv(s) && Enabled(s, a)
    ensures Inv(Apply(s, a))
  {
    ShapeKept(s, a);
    BalancedKept(s, a);
    EventsKept(s, a);
    FrugalKept(s, a);
  }

  lemma {:induction false} InitInv(limit: nat)
    ensures Inv(Init(limit))
  {
    assert forall n :: BalancedAt(Init(limit), n);
    assert forall i: nat, n :: FrugalAt(Init(limit), i, n);
  }
}
