/** scripts/serve_head.py: live membership and the --watch debounce loop. */
module ServeHead {
  import opened Contracts
  import opened Cost
  import opened Launch
  import opened Ordering

  /** A node as GET /api/nodes reports it. */
  datatype Entry = Entry(id: string, host: string, offline: bool)

  datatype HeadError = HeadExcluded | NoLiveNodes | HeadNotLive

  type Alive = map<string, string>

  /** Hosts of the nodes that are neither offline nor excluded, by id. */
  function AliveById(nodes: seq<Entry>, excluded: set<string>): (m: Alive)
    ensures forall id :: id in m <==> exists e :: e in nodes && e.id == id && !e.offline && id !in excluded
    ensures forall id :: id in m ==> exists e :: e in nodes && e.id == id && e.host == m[id] && !e.offline
  {
    if nodes == [] then map[]
    else
      var n := |nodes| - 1;
      var e, rest := nodes[n], AliveById(nodes[..n], excluded);
      assert nodes == nodes[..n] + [e];
      if !e.offline && e.id !in excluded then rest[e.id := e.host] else rest
  }

  function WorkerIds(alive: Alive, headId: string): (ids: set<string>) {
    alive.Keys - {headId}
  }

  /** Head first, then the workers by increasing id. */
  ghost predicate HeadFirst(members: seq<Member>, headId: string, alive: Alive) {
    && members != [] && members[0] == Member(headId, members[0].host, true)
    && (forall i :: 1 <= i < |members| ==> !members[i].isHead)
    && Increasing(MemberIds(members)[1..])
    && (forall i :: 0 <= i < |members| ==> members[i].nodeId in alive && alive[members[i].nodeId] == members[i].host)
    && (forall id :: id in alive ==> id in MemberIds(members))
    && Distinct(MemberIds(members))
  }

  method BuildMembers(nodes: seq<Entry>, headId: string, excluded: set<string>)
    returns (r: Result<seq<Member>, HeadError>)
    ensures r == Err(HeadExcluded) <==> headId in excluded
    ensures r == Err(NoLiveNodes) <==> headId !in excluded && AliveById(nodes, excluded) == map[]
    ensures r == Err(HeadNotLive) <==>
            headId !in excluded && AliveById(nodes, excluded) != map[] && headId !in AliveById(nodes, excluded)
    ensures r.Ok? ==> HeadFirst(r.value, headId, AliveById(nodes, excluded))
  {
    if headId in excluded {
      return Err(HeadExcluded);
    }
    var alive := AliveById(nodes, excluded);
    if alive == map[] {
      return Err(NoLiveNodes);
    }
    if headId !in alive {
      return Err(HeadNotLive);
    }
    var listed := Enumerate(WorkerIds(alive, headId));
    var workers := Sort(StrLeq, listed);
    SortIds(listed);
    forall i | 0 <= i < |workers| ensures workers[i] in alive && workers[i] != headId {
      assert workers[i] in workers;
    }
    Assembled(headId, workers, alive);
    return Ok(Assemble(headId, workers, alive));
  }

  function Assemble(headId: string, workers: seq<string>, alive: Alive): seq<Member>
    requires headId in alive && forall i :: 0 <= i < |workers| ==> workers[i] in alive
  {
    [Member(headId, alive[headId], true)]
    + seq(|workers|, i requires 0 <= i < |workers| => Member(workers[i], alive[workers[i]], false))
  }

  lemma {:induction false} Assembled(headId: string, workers: seq<string>, alive: Alive)
    requires headId in alive && forall i :: 0 <= i < |workers| ==> workers[i] in alive && workers[i] != headId
    requires Increasing(workers) && Distinct(workers)
    requires forall id :: id in alive && id != headId ==> id in workers
    ensures HeadFirst(Assemble(headId, workers, alive), headId, alive)
  {
    var members := Assemble(headId, workers, alive);
    assert MemberIds(members) == [headId] + workers;
    assert MemberIds(members)[1..] == workers;
    assert headId !in workers;
    DistinctCons(MemberIds(members));
    forall i | 0 <= i < |members| ensures members[i].nodeId in alive && alive[members[i].nodeId] == members[i].host {
      if i > 0 { assert members[i].nodeId == workers[i - 1]; }
    }
  }

  /** A membership with the head first is already in device order, so the launched command lists
      the members' hosts in this very order. */
  lemma {:induction false} HeadFirstDevices(members: seq<Member>, headId: string, alive: Alive)
    requires HeadFirst(members, headId, alive)
    ensures Heads(members) == [members[0]] && Workers(members) == members[1..] && Devices(members) == members
  {
    NoHeads(members[1..]);
    assert members == [members[0]] + members[1..];
  }

  lemma {:induction false} NoHeads(members: seq<Member>)
    requires forall i :: 0 <= i < |members| ==> !members[i].isHead
    ensures Heads(members) == [] && Workers(members) == members
  {
    if members != [] {
      NoHeads(members[1..]);
      assert members == [members[0]] + members[1..];
    }
  }

  // ---- the watch loop ----

  /** What --watch compares: identity and address only. */
  type Key = seq<(string, string)>

  function MembershipKey(members: seq<Member>): Key {
    seq(|members|, i requires 0 <= i < |members| => (members[i].nodeId, members[i].host))
  }

  /** Two memberships compare equal exactly if they list the same nodes at the same addresses. */
  lemma {:induction false} SameKey(a: seq<Member>, b: seq<Member>)
    ensures MembershipKey(a) == MembershipKey(b) <==> MemberIds(a) == MemberIds(b) && Hosts(a) == Hosts(b)
  {
    if MembershipKey(a) == MembershipKey(b) {
      assert |MembershipKey(a)| == |a| && |MembershipKey(b)| == |b|;
      forall i | 0 <= i < |a| ensures a[i].nodeId == b[i].nodeId && a[i].host == b[i].host {
        assert MembershipKey(a)[i] == MembershipKey(b)[i];
      }
    }
    if MemberIds(a) == MemberIds(b) && Hosts(a) == Hosts(b) {
      assert |MemberIds(a)| == |a| && |MemberIds(b)| == |b|;
      forall i | 0 <= i < |a| ensures MembershipKey(a)[i] == MembershipKey(b)[i] {
        assert MemberIds(a)[i] == MemberIds(b)[i] && Hosts(a)[i] == Hosts(b)[i];
      }
    }
  }

  function KeyHosts(key: Key): seq<string> {
    seq(|key|, i requires 0 <= i < |key| => key[i].1)
  }

  /** One iteration's observations: whether the process has exited, the membership read (None if it
      failed), the monotonic clock, and what planning again would give (None if it fails). */
  datatype Poll = Poll(exited: bool, latest: Option<seq<Member>>, now: real, replan: Option<Launched>)

  datatype Launched = Launched(command: Command, members: seq<Member>)

  /** `restarts` records at which iterations the head was restarted. */
  datatype Watch = Watch(
    command: Command, current: Key, changedAt: Option<real>, stopped: bool, polled: nat, restarts: seq<nat>)

  /** The command was built from a membership with the head first, in that order. */
  predicate FromMembers(l: Launched) {
    [l.command.headHost] + l.command.rpc == Hosts(l.members)
  }

  predicate Differs(p: Poll, key: Key) {
    p.latest.Some? && MembershipKey(p.latest.value) != key
  }

  predicate Restarting(w: Watch, p: Poll, debounce: real) {
    && !w.stopped && !p.exited && Differs(p, w.current)
    && w.changedAt.Some? && p.now - w.changedAt.value >= debounce
  }

  function Observe(w: Watch, p: Poll, debounce: real): Watch {
    var next := w.(polled := w.polled + 1);
    if w.stopped then next
    else if p.exited then next.(stopped := true)
    else if p.latest.None? then next
    else if !Differs(p, w.current) then next.(changedAt := None)
    else if w.changedAt.None? then next.(changedAt := Some(p.now))
    else if p.now - w.changedAt.value < debounce then next
    else match p.replan
      case None => next.(stopped := true)
      case Some(l) =>
        next.(command := l.command, current := MembershipKey(l.members), changedAt := None,
              restarts := w.restarts + [w.polled])
  }

  datatype PlanFailure = BadMembership(head: HeadError) | BadLaunch(launch: LaunchError)

  /** What launching for `members` comes to: too few workers, a stale placement, or a command. */
  ghost predicate Launches(r: Result<Launched, PlanFailure>, members: seq<Member>, minWorkers: int, placement: Option<Assignment>) {
    var stale := placement.Some? && !Matches(placement.value, members);
    match r
    case Ok(launched) => |members| - 1 >= minWorkers && !stale && launched.members == members && FromMembers(launched)
    case Err(e) =>
      || (e == BadLaunch(TooFewWorkers) && |members| - 1 < minWorkers)
      || (e == BadLaunch(Stale) && |members| - 1 >= minWorkers && stale)
  }

  method LaunchFor(members: seq<Member>, ghost headId: string, ghost alive: Alive, minWorkers: int, placement: Option<Assignment>)
    returns (r: Result<Launched, PlanFailure>)
    requires HeadFirst(members, headId, alive) && (placement.Some? ==> Distinct(Ids(placement.value.layers)))
    ensures Launches(r, members, minWorkers, placement)
  {
    HeadFirstDevices(members, headId, alive);
    var command := LlamaServerCommand(members, minWorkers, placement);
    if command.Err? {
      assert command.error == TooFewWorkers || command.error == Stale by {
        assert command.error == NotOneHead || command.error == TooFewWorkers || command.error == Stale;
      }
      return Err(BadLaunch(command.error));
    }
    return Ok(Launched(command.value, members));
  }

  /** `plan_command`: each failure exactly, and whatever it launches, the device list is the
      membership it was built from. */
  method PlanCommand(nodes: seq<Entry>, headId: string, excluded: set<string>, minWorkers: int, placement: Option<Assignment>)
    returns (r: Result<Launched, PlanFailure>)
    requires placement.Some? ==> Distinct(Ids(placement.value.layers))
    ensures r == Err(BadMembership(HeadExcluded)) <==> headId in excluded
    ensures r == Err(BadMembership(NoLiveNodes)) <==> headId !in excluded && AliveById(nodes, excluded) == map[]
    ensures r == Err(BadMembership(HeadNotLive)) <==>
              headId !in excluded && AliveById(nodes, excluded) != map[] && headId !in AliveById(nodes, excluded)
    ensures headId !in excluded && headId in AliveById(nodes, excluded) ==>
              exists members :: HeadFirst(members, headId, AliveById(nodes, excluded))
                                && Launches(r, members, minWorkers, placement)
  {
    var members := BuildMembers(nodes, headId, excluded);
    if members.Err? {
      assert members.error == HeadExcluded || members.error == NoLiveNodes || members.error == HeadNotLive;
      return Err(BadMembership(members.error));
    }
    r := LaunchFor(members.value, headId, AliveById(nodes, excluded), minWorkers, placement);
  }

  function Begin(l: Launched): Watch {
    Watch(l.command, MembershipKey(l.members), None, false, 0, [])
  }

  /** The loop's state after `n` iterations. */
  function After(l: Launched, polls: seq<Poll>, debounce: real, n: nat): Watch
    requires n <= |polls|
  {
    if n == 0 then Begin(l) else Observe(After(l, polls, debounce, n - 1), polls[n - 1], debounce)
  }

  /** `main`'s loop under --watch. */
  method WatchLoop(l: Launched, polls: seq<Poll>, debounce: real) returns (w: Watch)
    ensures w == After(l, polls, debounce, |polls|)
  {
    var proc, current, changedAt := l.command, MembershipKey(l.members), None;
    var stopped := false;
    var restarts: seq<nat> := [];
    for i := 0 to |polls|
      invariant After(l, polls, debounce, i) == Watch(proc, current, changedAt, stopped, i, restarts)
    {
      var p := polls[i];
      if stopped { continue; }
      if p.exited { stopped := true; continue; }
      if p.latest.None? { continue; }
      if MembershipKey(p.latest.value) == current { changedAt := None; continue; }
      if changedAt.None? { changedAt := Some(p.now); continue; }
      if p.now - changedAt.value < debounce { continue; }
      if p.replan.None? { stopped := true; continue; }
      proc, current, changedAt := p.replan.value.command, MembershipKey(p.replan.value.members), None;
      restarts := restarts + [i];
    }
    w := Watch(proc, current, changedAt, stopped, |polls|, restarts);
  }

  lemma {:induction false} Polled(l: Launched, polls: seq<Poll>, debounce: real, n: nat)
    requires n <= |polls|
    ensures After(l, polls, debounce, n).polled == n
  {
    if n > 0 { Polled(l, polls, debounce, n - 1); }
  }

  /** The running head always serves the membership it is compared with: its host and `--rpc` list
      are the hosts of `current`, in order. */
  lemma {:induction false} HeadServesCurrent(l: Launched, polls: seq<Poll>, debounce: real, n: nat)
    requires n <= |polls| && FromMembers(l)
    requires forall i :: 0 <= i < |polls| && polls[i].replan.Some? ==> FromMembers(polls[i].replan.value)
    ensures var w := After(l, polls, debounce, n);
            [w.command.headHost] + w.command.rpc == KeyHosts(w.current)
  {
    KeyHostsOfMembers(l.members);
    if n > 0 {
      HeadServesCurrent(l, polls, debounce, n - 1);
      if polls[n - 1].replan.Some? { KeyHostsOfMembers(polls[n - 1].replan.value.members); }
    }
  }

  lemma {:induction false} KeyHostsOfMembers(members: seq<Member>)
    ensures KeyHosts(MembershipKey(members)) == Hosts(members)
  {
  }

  /** From iteration `j` to `n` every successful read differed from what the head was serving, and
      what it was serving did not change. */
  ghost predicate Unsettled(l: Launched, polls: seq<Poll>, debounce: real, j: nat, n: nat)
    requires n <= |polls|
  {
    && j < n && polls[j].latest.Some?
    && forall k :: j <= k < n ==>
         && After(l, polls, debounce, k).current == After(l, polls, debounce, n).current
         && (polls[k].latest.Some? ==> Differs(polls[k], After(l, polls, debounce, k).current))
  }

  ghost predicate RestartedBefore(w: Watch, j: nat) {
    forall r :: r in w.restarts ==> r < j
  }

  /** The change pending after `n` iterations was first seen at poll `j`, after the last restart. */
  ghost predicate PendingSince(l: Launched, polls: seq<Poll>, debounce: real, n: nat, j: nat)
    requires n <= |polls|
  {
    var w := After(l, polls, debounce, n);
    Unsettled(l, polls, debounce, j, n) && w.changedAt == Some(polls[j].now) && RestartedBefore(w, j)
  }

  /** A pending change remembers when it was first seen. */
  ghost predicate Pending(l: Launched, polls: seq<Poll>, debounce: real, n: nat)
    requires n <= |polls|
  {
    var w := After(l, polls, debounce, n);
    w.changedAt.Some? && !w.stopped ==> exists j: nat :: PendingSince(l, polls, debounce, n, j)
  }

  /** An iteration that leaves a change pending leaves what is served alone. */
  lemma {:induction false} ObservePending(v: Watch, p: Poll, debounce: real)
    requires var w := Observe(v, p, debounce); w.changedAt.Some? && !w.stopped
    ensures var w := Observe(v, p, debounce);
            && !v.stopped && w.current == v.current && w.restarts == v.restarts
            && (p.latest.Some? ==> Differs(p, v.current))
            && (if v.changedAt.Some? then w.changedAt == v.changedAt else p.latest.Some? && w.changedAt == Some(p.now))
  {
  }

  lemma {:induction false} StillUnsettled(l: Launched, polls: seq<Poll>, debounce: real, j: nat, n: nat)
    requires 0 < n <= |polls| && Unsettled(l, polls, debounce, j, n - 1)
    requires var v := After(l, polls, debounce, n - 1);
             && After(l, polls, debounce, n).current == v.current
             && (polls[n - 1].latest.Some? ==> Differs(polls[n - 1], v.current))
    ensures Unsettled(l, polls, debounce, j, n)
  {
    forall k | j <= k < n
      ensures After(l, polls, debounce, k).current == After(l, polls, debounce, n).current
      ensures polls[k].latest.Some? ==> Differs(polls[k], After(l, polls, debounce, k).current)
    {
      if k < n - 1 {
        assert After(l, polls, debounce, k).current == After(l, polls, debounce, n - 1).current;
      }
    }
  }

  lemma {:induction false} RestartsPast(l: Launched, polls: seq<Poll>, debounce: real, n: nat)
    requires n <= |polls|
    ensures RestartedBefore(After(l, polls, debounce, n), n)
  {
    if n > 0 {
      RestartsPast(l, polls, debounce, n - 1);
      RestartStep(l, polls, debounce, n);
    }
  }

  /** One iteration carries a pending change on, or starts one. */
  lemma {:induction false} PendingNext(l: Launched, polls: seq<Poll>, debounce: real, n: nat)
    requires 0 < n <= |polls| && Pending(l, polls, debounce, n - 1)
    requires RestartedBefore(After(l, polls, debounce, n - 1), n - 1)
    requires After(l, polls, debounce, n).changedAt.Some? && !After(l, polls, debounce, n).stopped
    ensures exists j: nat :: PendingSince(l, polls, debounce, n, j)
  {
    var v := After(l, polls, debounce, n - 1);
    assert After(l, polls, debounce, n) == Observe(v, polls[n - 1], debounce);
    ObservePending(v, polls[n - 1], debounce);
    if v.changedAt.None? {
      assert PendingSince(l, polls, debounce, n, n - 1);
    } else {
      var j: nat :| PendingSince(l, polls, debounce, n - 1, j);
      StillUnsettled(l, polls, debounce, j, n);
      assert PendingSince(l, polls, debounce, n, j);
    }
  }

  lemma {:induction false} PendingKept(l: Launched, polls: seq<Poll>, debounce: real, n: nat)
    requires n <= |polls|
    ensures Pending(l, polls, debounce, n)
  {
    if n > 0 && After(l, polls, debounce, n).changedAt.Some? && !After(l, polls, debounce, n).stopped {
      PendingKept(l, polls, debounce, n - 1);
      RestartsPast(l, polls, debounce, n - 1);
      PendingNext(l, polls, debounce, n);
    }
  }

  /** A restart happens only after every successful membership read over at least the debounce time
      differed from what the head was serving. */
  lemma {:induction false} RestartJustified(l: Launched, polls: seq<Poll>, debounce: real, n: nat)
    requires n < |polls| && Restarting(After(l, polls, debounce, n), polls[n], debounce)
    ensures exists j: nat :: Unsettled(l, polls, debounce, j, n) && Differs(polls[n], After(l, polls, debounce, n).current)
              && polls[n].now - polls[j].now >= debounce
              && RestartedBefore(After(l, polls, debounce, n), j)
  {
    PendingKept(l, polls, debounce, n);
    var j: nat :| PendingSince(l, polls, debounce, n, j);
  }

  /** Time does not run backwards between polls. */
  ghost predicate Ordered(polls: seq<Poll>) {
    forall i, j :: 0 <= i <= j < |polls| ==> polls[i].now <= polls[j].now
  }

  lemma {:induction false} ChangedEarlier(l: Launched, polls: seq<Poll>, debounce: real, n: nat)
    requires n < |polls| && Ordered(polls)
    ensures var w := After(l, polls, debounce, n); !w.stopped && w.changedAt.Some? ==> w.changedAt.value <= polls[n].now
  {
    var w := After(l, polls, debounce, n);
    if !w.stopped && w.changedAt.Some? {
      PendingKept(l, polls, debounce, n);
      var j: nat :| PendingSince(l, polls, debounce, n, j);
    }
  }

  lemma {:induction false} PendingStep(v: Watch, p: Poll, debounce: real, bound: real)
    requires !Observe(v, p, debounce).stopped && !(Restarting(v, p, debounce) && p.replan.Some?)
    requires p.latest.Some? ==> Differs(p, v.current)
    requires if v.changedAt.Some? then v.changedAt.value <= bound else p.latest.Some? && p.now <= bound
    ensures var w := Observe(v, p, debounce); w.changedAt.Some? && w.changedAt.value <= bound
    ensures !v.stopped
  {
  }

  lemma {:induction false} NotRestarted(l: Launched, polls: seq<Poll>, debounce: real, j: nat, n: nat)
    requires j < n <= |polls| && RestartedBefore(After(l, polls, debounce, n), j)
    ensures !(Restarting(After(l, polls, debounce, n - 1), polls[n - 1], debounce) && polls[n - 1].replan.Some?)
    ensures RestartedBefore(After(l, polls, debounce, n - 1), j)
  {
    RestartStep(l, polls, debounce, n);
    var v := After(l, polls, debounce, n - 1);
    assert forall r :: r in v.restarts ==> r in After(l, polls, debounce, n).restarts;
    assert !(n - 1 in After(l, polls, debounce, n).restarts);
  }

  lemma {:induction false} UnsettledShorter(l: Launched, polls: seq<Poll>, debounce: real, j: nat, n: nat)
    requires j < n - 1 < |polls| && Unsettled(l, polls, debounce, j, n)
    ensures Unsettled(l, polls, debounce, j, n - 1)
  {
    assert After(l, polls, debounce, n - 1).current == After(l, polls, debounce, n).current;
  }

  /** From an unsettled poll `j` on, a change is pending since `polls[j].now` or earlier. */
  lemma {:induction false} StaysPending(l: Launched, polls: seq<Poll>, debounce: real, j: nat, n: nat)
    requires j < n <= |polls| && Ordered(polls) && !After(l, polls, debounce, n).stopped
    requires Unsettled(l, polls, debounce, j, n) && RestartedBefore(After(l, polls, debounce, n), j)
    ensures var w := After(l, polls, debounce, n); w.changedAt.Some? && w.changedAt.value <= polls[j].now
  {
    NotRestarted(l, polls, debounce, j, n);
    RunningBefore(l, polls, debounce, n);
    if j < n - 1 {
      UnsettledShorter(l, polls, debounce, j, n);
      StaysPending(l, polls, debounce, j, n - 1);
    } else {
      ChangedEarlier(l, polls, debounce, j);
    }
    StillPending(l, polls, debounce, n, polls[j].now);
  }

  lemma {:induction false} RunningBefore(l: Launched, polls: seq<Poll>, debounce: real, n: nat)
    requires 0 < n <= |polls| && !After(l, polls, debounce, n).stopped
    ensures !After(l, polls, debounce, n - 1).stopped
  {
  }

  lemma {:induction false} StillPending(l: Launched, polls: seq<Poll>, debounce: real, n: nat, bound: real)
    requires 0 < n <= |polls| && !After(l, polls, debounce, n).stopped
    requires var v, p := After(l, polls, debounce, n - 1), polls[n - 1];
             && !(Restarting(v, p, debounce) && p.replan.Some?)
             && (p.latest.Some? ==> Differs(p, v.current))
             && (if v.changedAt.Some? then v.changedAt.value <= bound else p.latest.Some? && p.now <= bound)
    ensures var w := After(l, polls, debounce, n); w.changedAt.Some? && w.changedAt.value <= bound
  {
    PendingStep(After(l, polls, debounce, n - 1), polls[n - 1], debounce, bound);
  }

  /** Exactly when the loop stops the head to restart it: it runs, the membership just read differs
      from what it serves, and so did every successful read since some poll at least the debounce
      time ago, after the last restart. The head is then restarted exactly if planning again works. */
  lemma {:induction false} RestartExact(l: Launched, polls: seq<Poll>, debounce: real, n: nat)
    requires n < |polls| && Ordered(polls)
    ensures var w := After(l, polls, debounce, n);
            Restarting(w, polls[n], debounce) <==>
              && !w.stopped && !polls[n].exited && Differs(polls[n], w.current)
              && exists j: nat :: Unsettled(l, polls, debounce, j, n) && polls[n].now - polls[j].now >= debounce
                                  && RestartedBefore(w, j)
    ensures var w := After(l, polls, debounce, n);
            n in After(l, polls, debounce, n + 1).restarts <==> Restarting(w, polls[n], debounce) && polls[n].replan.Some?
  {
    var w := After(l, polls, debounce, n);
    RestartStep(l, polls, debounce, n + 1);
    RestartsPast(l, polls, debounce, n);
    if Restarting(w, polls[n], debounce) {
      RestartJustified(l, polls, debounce, n);
    } else if !w.stopped && !polls[n].exited && Differs(polls[n], w.current) {
      forall j: nat | Unsettled(l, polls, debounce, j, n) && RestartedBefore(w, j)
        ensures polls[n].now - polls[j].now < debounce
      {
        StaysPending(l, polls, debounce, j, n);
      }
    }
  }

  /** The new membership need not have been stable: two reads that differ from each other and from
      what is served, the debounce time apart, restart the head on the second. */
  lemma {:induction false} FlappingRestarts(l: Launched, x: seq<Member>, y: seq<Member>, again: Launched, debounce: real)
    requires MembershipKey(x) != MembershipKey(l.members) && MembershipKey(y) != MembershipKey(l.members)
    requires MembershipKey(x) != MembershipKey(y) && again.members == y
    ensures var polls := [Poll(false, Some(x), 0.0, None), Poll(false, Some(y), debounce, Some(again))];
            var w := After(l, polls, debounce, 2);
            w.restarts == [1] && w.command == again.command && w.current == MembershipKey(y) && !w.stopped
  {
    var polls := [Poll(false, Some(x), 0.0, None), Poll(false, Some(y), debounce, Some(again))];
    assert After(l, polls, debounce, 0) == Begin(l);
    assert After(l, polls, debounce, 1) == Observe(Begin(l), polls[0], debounce);
    assert After(l, polls, debounce, 2) == Observe(After(l, polls, debounce, 1), polls[1], debounce);
  }

  /** The loop gives up at an iteration exactly if the head has exited, or it was stopped for a restart
      and planning again failed. */
  ghost predicate GivesUp(w: Watch, p: Poll, debounce: real) {
    !w.stopped && (p.exited || (Restarting(w, p, debounce) && p.replan.None?))
  }

  ghost predicate GaveUpAt(l: Launched, polls: seq<Poll>, debounce: real, k: nat)
    requires k < |polls|
  {
    GivesUp(After(l, polls, debounce, k), polls[k], debounce)
  }

  lemma {:induction false} EndingStep(l: Launched, polls: seq<Poll>, debounce: real, n: nat)
    requires n < |polls|
    ensures After(l, polls, debounce, n + 1).stopped <==>
            After(l, polls, debounce, n).stopped || GaveUpAt(l, polls, debounce, n)
  {
    assert After(l, polls, debounce, n + 1) == Observe(After(l, polls, debounce, n), polls[n], debounce);
    GivingUp(After(l, polls, debounce, n), polls[n], debounce);
  }

  /** The watch has ended exactly if it gave up at some iteration. */
  lemma {:induction false} EndsExactly(l: Launched, polls: seq<Poll>, debounce: real, n: nat)
    requires n <= |polls|
    ensures After(l, polls, debounce, n).stopped <==> exists k :: 0 <= k < n && GaveUpAt(l, polls, debounce, k)
  {
    if n > 0 {
      EndsExactly(l, polls, debounce, n - 1);
      EndingStep(l, polls, debounce, n - 1);
    }
  }

  lemma {:induction false} GivingUp(w: Watch, p: Poll, debounce: real)
    ensures Observe(w, p, debounce).stopped <==> w.stopped || GivesUp(w, p, debounce)
  {
  }

  /** Once it has ended, the watch starts no head again. */
  lemma {:induction false} EndedForGood(l: Launched, polls: seq<Poll>, debounce: real, k: nat, n: nat)
    requires k <= n <= |polls| && After(l, polls, debounce, k).stopped
    ensures After(l, polls, debounce, n) == After(l, polls, debounce, k).(polled := n)
  {
    Polled(l, polls, debounce, k);
    if k < n { EndedForGood(l, polls, debounce, k, n - 1); }
  }

  /** An iteration records a restart exactly when the restart branch was taken and planning worked. */
  lemma {:induction false} RestartStep(l: Launched, polls: seq<Poll>, debounce: real, n: nat)
    requires 0 < n <= |polls|
    ensures var v := After(l, polls, debounce, n - 1);
            After(l, polls, debounce, n).restarts
            == v.restarts + if Restarting(v, polls[n - 1], debounce) && polls[n - 1].replan.Some? then [n - 1] else []
  {
    Polled(l, polls, debounce, n - 1);
  }

  /** Every recorded restart was one, and records are never dropped. */
  lemma {:induction false} RestartsRecorded(l: Launched, polls: seq<Poll>, debounce: real, n: nat, r: nat)
    requires n <= |polls| && r in After(l, polls, debounce, n).restarts
    ensures r < n && Restarting(After(l, polls, debounce, r), polls[r], debounce)
    ensures forall k :: r < k <= n ==> r in After(l, polls, debounce, k).restarts
  {
    if n > 0 {
      RestartStep(l, polls, debounce, n);
      if r in After(l, polls, debounce, n - 1).restarts {
        RestartsRecorded(l, polls, debounce, n - 1, r);
      }
    }
  }

  /** Consecutive restarts, and hence any two, are at least the debounce time apart. */
  lemma {:induction false} RestartsSpaced(l: Launched, polls: seq<Poll>, debounce: real, n: nat, a: nat, b: nat)
    requires n <= |polls| && Ordered(polls)
    requires a in After(l, polls, debounce, n).restarts && b in After(l, polls, debounce, n).restarts && a < b
    ensures b < |polls| && polls[b].now - polls[a].now >= debounce
  {
    RestartsRecorded(l, polls, debounce, n, a);
    RestartsRecorded(l, polls, debounce, n, b);
    assert a in After(l, polls, debounce, b).restarts;
    RestartJustified(l, polls, debounce, b);
    var j: nat :| Unsettled(l, polls, debounce, j, b) && polls[b].now - polls[j].now >= debounce
                  && RestartedBefore(After(l, polls, debounce, b), j);
  }
}
