/** ctl/queue.py `JobQueue` as an object: each method is one atomic section of the source, and is
    proved to take exactly one step of the transition system, whose invariants it therefore keeps. */
module QueueObject {
  import opened Contracts
  import opened Numbers
  import opened Ordering
  import opened Queue
  import opened QueueInvariants
  import QueueRuns
  import P = Payload

  datatype SubmitError = QueueClosed | BadFanout | NodeUnavailable | TooFewNodes(asked: nat, found: nat)

  lemma {:induction false} RankingOrder(s: State)
    ensures TotalOrder((a, b) => RankedBefore(s, a, b))
  {
    StrOrder();
  }

  lemma {:induction false} ResultsAppend(shards: seq<Shard>, sh: Shard)
    ensures Results(shards + [sh]) == Results(shards) + Results([sh])
    ensures Errors(shards + [sh]) == Errors(shards) + Errors([sh])
  {
    if shards == [] {
      assert shards + [sh] == [sh];
    } else {
      assert (shards + [sh])[1..] == shards[1..] + [sh];
      ResultsAppend(shards[1..], sh);
    }
  }

  /** The first `k` of the ranked nodes lead the ranking. */
  lemma {:induction false} RankedPrefix(s: State, ranked: seq<string>, k: nat)
    requires Lists(s.available, ranked) && k <= |ranked|
    requires forall a, b :: 0 <= a < b < |ranked| ==> RankedBefore(s, ranked[a], ranked[b])
    ensures LeadsRanking(s, ranked[..k])
  {
    var selected := ranked[..k];
    forall a, m | 0 <= a < |selected| && m in s.available && m !in selected ensures RankedBefore(s, selected[a], m) {
      assert m in ranked;
      var b :| 0 <= b < |ranked| && ranked[b] == m;
      assert b < k ==> m in selected;
    }
  }

  /** `_run_job` sorting its shards' outcomes into results and errors. */
  method Gather(shards: seq<Shard>) returns (results: seq<ShardResult>, errors: seq<Option<nat>>)
    ensures results == Results(shards) && errors == Errors(shards)
  {
    results, errors := [], [];
    for k := 0 to |shards|
      invariant results == Results(shards[..k]) && errors == Errors(shards[..k])
    {
      assert shards[..k + 1] == shards[..k] + [shards[k]];
      ResultsAppend(shards[..k], shards[k]);
      if shards[k].phase.Finished? {
        results := results + [ShardResult(shards[k].index, shards[k].node, shards[k].payload)];
      } else {
        errors := errors + [Some(shards[k].index)];
      }
    }
    assert shards[..|shards|] == shards;
  }

  /** One step of the transition system. */
  ghost predicate Steps(s: State, a: Action, t: State) {
    Wired(s) && Enabled(s, a) && t == Apply(s, a)
  }

  class JobQueue {
    const limit: nat
    var jobs: seq<Job>
    var shards: seq<Shard>
    var permits: map<string, nat>
    var inFlight: map<string, nat>
    var events: seq<Event>
    var nextSequence: nat
    var closed: bool
    // The registry's view, refreshed by the environment.
    var available: set<string>
    var load: map<string, nat>

    ghost function View(): State
      reads this
    {
      State(limit, jobs, shards, permits, inFlight, events, nextSequence, available, load, closed)
    }

    constructor (limit: nat)
      requires limit > 0
      ensures this.limit == limit && View() == Init(limit) && Inv(View())
    {
      this.limit := limit;
      jobs, shards, permits, inFlight, events, nextSequence := [], [], map[], map[], [], 1;
      closed, available, load := false, {}, map[];
      new;
      InitInv(limit);
    }

    /** `_ranked_nodes`: every available, non-excluded node once, by (load, id). */
    method RankedNodes(excluded: set<string>) returns (ranked: seq<string>)
      ensures Lists(available - excluded, ranked)
      ensures forall a, b :: 0 <= a < b < |ranked| ==> RankedBefore(View(), ranked[a], ranked[b])
    {
      var listed := Enumerate(available - excluded);
      var s := State(limit, jobs, shards, permits, inFlight, events, nextSequence, available, load, closed);
      var leq := (a, b) => RankedBefore(s, a, b);
      RankingOrder(s);
      ranked := Sort(leq, listed);
      SortSpec(leq, listed);
      DistinctByMultiset(listed, ranked);
      assert forall x :: x in ranked <==> x in multiset(ranked);
    }

    method EmitEvent(kind: EventKind, j: nat, node: Option<string>, shard: Option<nat>)
      requires j < |jobs|
      modifies this`events, this`nextSequence
      ensures View() == Emit(old(View()), kind, j, node, shard)
    {
      events := events + [Event(nextSequence, kind, j, node, shard, jobs[j].status)];
      nextSequence := nextSequence + 1;
    }

    /** The nodes `submit` gives the shards of a job to, or why it cannot. */
    method Select(pinned: Option<string>, asked: nat) returns (r: Result<seq<string>, SubmitError>)
      requires pinned.Some? ==> asked == 1
      ensures r == Err(NodeUnavailable) <==> pinned.Some? && pinned.value !in available
      ensures r == Err(TooFewNodes(asked, |available|)) <==> pinned.None? && |available| < asked
      ensures r.Err? ==> r.error == NodeUnavailable || r.error == TooFewNodes(asked, |available|)
      ensures r.Ok? ==> |r.value| == asked
      ensures r.Ok? ==> if pinned.Some? then r.value == [pinned.value] else LeadsRanking(View(), r.value)
    {
      if pinned.Some? {
        return if pinned.value in available then Ok([pinned.value]) else Err(NodeUnavailable);
      }
      var ranked := RankedNodes({});
      assert available - {} == available;
      DistinctCardinality(ranked);
      assert (set x | x in ranked) == available;
      if |ranked| < asked { return Err(TooFewNodes(asked, |ranked|)); }
      RankedPrefix(View(), ranked, asked);
      return Ok(ranked[..asked]);
    }

    /** The locked section of `submit`. */
    method Enqueue(kind: Kind, payload: P.Payload, width: nat, chunks: seq<P.Payload>,
                   pinned: Option<string>, selected: seq<string>)
      requires width > 0 && chunks == P.Shards(payload, width)
      modifies this
      ensures View() == Emit(old(View()).(jobs := old(jobs) + [NewJob(kind, payload, width, pinned, selected)]),
                             JobQueued, |old(jobs)|, None, None)
    {
      jobs := jobs + [Job(kind, payload, width, chunks, pinned, selected, Queued, 0, selected, [], [])];
      EmitEvent(JobQueued, |jobs| - 1, None, None);
    }

    /** `submit`, up to handing the job to the event loop. */
    method Submit(kind: Kind, payload: P.Payload, fanout: int, pinned: Option<string>) returns (r: Result<nat, SubmitError>)
      requires Inv(View())
      modifies this
      ensures Inv(View())
      ensures r.Err? ==> View() == old(View())
      ensures r == Err(QueueClosed) <==> old(closed)
      ensures r == Err(BadFanout) <==> !old(closed) && fanout < 1
      ensures r == Err(NodeUnavailable) <==>
                !old(closed) && fanout >= 1 && pinned.Some? && pinned.value !in old(available)
      ensures (r.Err? && r.error.TooFewNodes?) <==>
                !old(closed) && fanout >= 1 && pinned.None? && |old(available)| < |P.Shards(payload, fanout)|
      ensures r.Ok? ==> r.value == |old(jobs)| && exists selected ::
                Steps(old(View()), Action.Submit(kind, payload, fanout, pinned, selected), View())
    {
      if closed { return Err(QueueClosed); }
      if fanout < 1 { return Err(BadFanout); }
      var width := if pinned.Some? then 1 else fanout;
      var chunks := P.SplitPayload(payload, width);
      var choice := Select(pinned, |chunks|);
      if choice.Err? { return Err(choice.error); }
      ghost var was, a := View(), Action.Submit(kind, payload, fanout, pinned, choice.value);
      Enqueue(kind, payload, width, chunks, pinned, choice.value);
      assert Steps(was, a, View());
      InvKept(was, a);
      return Ok(|jobs| - 1);
    }

    /** The first section of `_run_job`. */
    method StartJob(j: nat)
      requires Inv(View()) && Enabled(View(), Start(j))
      modifies this
      ensures Steps(old(View()), Start(j), View()) && Inv(View())
    {
      ghost var was := View();
      var job := jobs[j];
      var added := seq(|job.chunks|, k requires 0 <= k < |job.chunks| =>
        Shard(j, k, job.chunks[k], job.selected[k], 0, {}, Waiting));
      jobs := jobs[j := job.(status := Running, base := |shards|)];
      shards := shards + added;
      EmitEvent(JobStarted, j, None, None);
      assert Steps(was, Start(j), View());
      InvKept(was, Start(j));
    }

    /** `_request` entering its region: a permit is taken and the node counted busy. */
    method Take(n: string)
      requires Permits(View(), n) > 0
      modifies this`permits, this`inFlight
      ensures View() == Queue.Take(old(View()), n)
    {
      var free := if n in permits then permits[n] else limit;
      var busy := if n in inFlight then inFlight[n] else 0;
      permits := permits[n := free - 1];
      inFlight := inFlight[n := busy + 1];
    }

    /** `_request` leaving its region, whatever happened inside. */
    method Release(n: string)
      modifies this`permits, this`inFlight
      ensures View() == Queue.Release(old(View()), n)
    {
      var busy: int := if n in inFlight then inFlight[n] else 1;
      inFlight := inFlight[n := Max(0, busy - 1)];
      permits := permits[n := (if n in permits then permits[n] else limit) + 1];
    }

    /** What `_run_shard` does after a transient failure; `next` is the node it moves to, if it moves. */
    method FailShard(i: nat) returns (ghost next: string)
      requires i < |shards| && shards[i].job < |jobs|
      modifies this
      ensures NextIs(old(View()), i, next) && View() == Fail(old(View()), i, next)
    {
      var sh := shards[i];
      var tried := sh.attempted + {sh.node};
      var ranked := RankedNodes(tried);
      next := if ranked == [] then "" else ranked[0];
      assert ranked == [] <==> available - tried == {} by {
        assert ranked != [] ==> ranked[0] in ranked;
      }
      StrOrder();
      if ranked != [] {
        forall m | m in available - tried ensures RankedBefore(View(), ranked[0], m) {
          var k :| 0 <= k < |ranked| && ranked[k] == m;
        }
      }
      if sh.attempt == 0 {
        shards := shards[i := sh.(attempt := 1, phase := Waiting)];
        EmitEvent(Retrying, sh.job, Some(sh.node), Some(i));
      } else if ranked == [] {
        shards := shards[i := sh.(attempted := tried, phase := Exhausted)];
      } else {
        var moved := ranked[0];
        var job := jobs[sh.job];
        if moved !in job.nodes {
          jobs := jobs[sh.job := job.(nodes := job.nodes + [moved])];
        }
        shards := shards[i := sh.(attempted := tried, node := moved, attempt := 0, phase := Waiting)];
        EmitEvent(Reassigned, sh.job, Some(moved), Some(i));
      }
    }

    /** A waiting shard obtains its node's semaphore: it sends, or finds the node gone. */
    method AcquireNode(i: nat) returns (ghost next: string)
      requires Inv(View()) && !closed && i < |shards| && shards[i].phase.Waiting? && Permits(View(), shards[i].node) > 0
      modifies this
      ensures Steps(old(View()), Acquire(i, next), View()) && Inv(View())
    {
      ghost var was := View();
      var sh := shards[i];
      if sh.node in available {
        next := QueueRuns.NextExists(View(), i);
        Take(sh.node);
        shards := shards[i := sh.(phase := InRequest)];
        EmitEvent(Dispatched, sh.job, Some(sh.node), Some(i));
      } else {
        next := FailShard(i);
      }
      assert Steps(was, Acquire(i, next), View());
      InvKept(was, Acquire(i, next));
    }

    /** A request of shard `i` comes back: with a result, a 4xx, or anything transient. */
    method HandleResponse(i: nat, outcome: Outcome) returns (ghost next: string)
      requires Inv(View()) && !closed && i < |shards| && shards[i].phase.InRequest?
      modifies this
      ensures Steps(old(View()), Respond(i, outcome, next), View()) && Inv(View())
    {
      ghost var was := View();
      assert ShardOk(was, i);
      var sh := shards[i];
      Release(sh.node);
      match outcome {
        case Success =>
          next := QueueRuns.NextExists(View(), i);
          shards := shards[i := sh.(phase := Finished)];
        case Reject =>
          next := QueueRuns.NextExists(View(), i);
          shards := shards[i := sh.(phase := Rejected)];
        case Transient =>
          next := FailShard(i);
      }
      assert Steps(was, Respond(i, outcome, next), View());
      InvKept(was, Respond(i, outcome, next));
    }

    /** The last section of `_run_job`: sort the outcomes, set the status. */
    method FinishJob(j: nat, mergeOk: bool)
      requires Inv(View()) && Enabled(View(), Finish(j, mergeOk))
      modifies this
      ensures Steps(old(View()), Finish(j, mergeOk), View()) && Inv(View())
    {
      ghost var was := View();
      var job := jobs[j];
      var mine := shards[job.base..job.base + |job.chunks|];
      var results, errors := Gather(mine);
      errors := errors + (if mergeOk then [] else [None]);
      var bad := errors != [];
      jobs := jobs[j := job.(status := if bad then Failed else Done, results := results, errors := errors)];
      EmitEvent(if bad then JobFailed else JobCompleted, j, None, None);
      assert Steps(was, Finish(j, mergeOk), View());
      InvKept(was, Finish(j, mergeOk));
    }

    /** `close`, whose cancellations arrive as `Cancel` and `FinishCancelled`. */
    method Close()
      requires Inv(View())
      modifies this
      ensures Inv(View())
      ensures if old(closed) then View() == old(View()) else Steps(old(View()), Action.Close, View())
    {
      if closed { return; }
      InvKept(View(), Action.Close);
      closed := true;
    }

    /** The cancellation of shard `i`: the `finally` clauses on its way out still run. */
    method Cancel(i: nat)
      requires Inv(View()) && Enabled(View(), CancelShard(i))
      modifies this
      ensures Steps(old(View()), CancelShard(i), View()) && Inv(View())
    {
      ghost var was := View();
      var sh := shards[i];
      if sh.phase.InRequest? { Release(sh.node); }
      shards := shards[i := sh.(phase := Cancelled)];
      assert Steps(was, CancelShard(i), View());
      InvKept(was, CancelShard(i));
    }

    method FinishCancelled(j: nat)
      requires Inv(View()) && Enabled(View(), Action.FinishCancelled(j))
      modifies this
      ensures Steps(old(View()), Action.FinishCancelled(j), View()) && Inv(View())
    {
      ghost var was := View();
      jobs := jobs[j := jobs[j].(status := Failed, results := [], errors := [])];
      EmitEvent(JobCancelled, j, None, None);
      assert Steps(was, Action.FinishCancelled(j), View());
      InvKept(was, Action.FinishCancelled(j));
    }
  }
}
