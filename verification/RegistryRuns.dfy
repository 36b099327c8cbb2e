/** Whole runs of the membership registry (without `reset`, which erases the log). */
module RegistryRuns {
  import opened Contracts
  import opened Ordering
  import opened Registry

  // ---- the log explains the state ----

  datatype Members = Members(registered: set<string>, offline: set<string>)

  function Follow(m: Members, e: Event): Members {
    match e.kind
    case Joined => m.(registered := m.registered + {e.nodeId})
    case Readdressed => m
    case WentOffline => m.(offline := m.offline + {e.nodeId})
    case Recovered => m.(offline := m.offline - {e.nodeId})
    case Removed => Members(m.registered - {e.nodeId}, m.offline - {e.nodeId})
  }

  /** Membership as a consumer reconstructs it from the events alone. */
  function Replay(events: seq<Event>): Members {
    if events == [] then Members({}, {})
    else Follow(Replay(events[..|events| - 1]), events[|events| - 1])
  }

  lemma {:induction false} ReplayAppend(events: seq<Event>, e: Event)
    ensures Replay(events + [e]) == Follow(Replay(events), e)
  {
    assert (events + [e])[..|events|] == events;
  }

  function Actual(s: State): Members {
    Members(s.nodes.Keys, set id | id in s.nodes && s.nodes[id].state == Offline)
  }

  ghost predicate Explained(s: State) {
    Replay(s.events) == Actual(s)
  }

  /** The entry a consumer builds its device list from: the host of a node that is not offline. */
  function LiveHost(s: State, id: string): Option<string> {
    if id in s.nodes && s.nodes[id].state != Offline then Some(s.nodes[id].host) else None
  }

  /** Between `s` and `t` the log grew, and every id whose live entry differs is named by a
      replan event in the part that was added. */
  ghost predicate Announced(s: State, t: State) {
    && s.events <= t.events
    && forall id :: LiveHost(s, id) != LiveHost(t, id) ==> Named(t.events, |s.events|, id)
  }

  ghost predicate Named(events: seq<Event>, from: nat, id: string) {
    exists k :: from <= k < |events| && events[k].nodeId == id && events[k].replan
  }

  lemma {:induction false} AnnouncedTransitive(s: State, t: State, u: State)
    requires Announced(s, t) && Announced(t, u)
    ensures Announced(s, u)
  {
    forall id | LiveHost(s, id) != LiveHost(u, id) ensures Named(u.events, |s.events|, id) {
      if LiveHost(s, id) != LiveHost(t, id) {
        var k :| |s.events| <= k < |t.events| && t.events[k].nodeId == id && t.events[k].replan;
        assert u.events[k] == t.events[k];
      } else {
        assert Named(u.events, |t.events|, id);
      }
    }
  }

  /** One step that writes at most the record of `id` and logs `kind` for it, or logs nothing and
      leaves the live entry of `id` alone. */
  lemma {:induction false} SingleStep(s: State, t: State, id: string, kind: EventKind)
    requires Consistent(s) && Consistent(t)
    requires forall x :: x != id ==> LiveHost(t, x) == LiveHost(s, x)
    requires (t.events == s.events && LiveHost(t, id) == LiveHost(s, id))
             || t.events == s.events + [Event(s.nextSequence, kind, id, true)]
    ensures Announced(s, t)
  {
    if t.events != s.events {
      assert t.events[|s.events|].nodeId == id;
      assert Named(t.events, |s.events|, id);
    }
  }

  ghost predicate Good(c: Config, s: State, t: State) {
    Consistent(t) && (Explained(s) ==> Explained(t)) && Announced(s, t)
    && (Bounded(c, s) ==> Bounded(c, t))
  }

  /** missed_heartbeats stays within 0..k. */
  ghost predicate Bounded(c: Config, s: State) {
    forall id :: id in s.nodes ==> s.nodes[id].missed <= c.offlineAfter
  }

  lemma {:induction false} RegisterGood(c: Config, s: State, id: string, host: string, required: bool, now: real)
    requires Consistent(s)
    ensures Good(c, s, DoRegister(s, id, host, required, now))
  {
    if id in s.nodes {
      RejoinGood(c, s, id, host, required, now);
    } else {
      JoinGood(c, s, id, host, required, now);
    }
  }

  /** Rewriting one record changes at most whether that node counts as offline. */
  lemma {:induction false} OneRecord(s: State, t: State, id: string)
    requires id in s.nodes && id in t.nodes && t.nodes == s.nodes[id := t.nodes[id]]
    ensures Actual(t).registered == Actual(s).registered
    ensures Actual(t).offline
         == if t.nodes[id].state == Offline then Actual(s).offline + {id} else Actual(s).offline - {id}
  {
  }

  lemma {:induction false} SameState(s: State, t: State, id: string)
    requires id in s.nodes && id in t.nodes && t.nodes == s.nodes[id := t.nodes[id]]
    requires t.nodes[id].state == s.nodes[id].state
    ensures Actual(t) == Actual(s)
  {
    OneRecord(s, t, id);
  }

  /** A log that stands still, or grows by a change of address, tells of the same members. */
  lemma {:induction false} QuietReplay(s: State, t: State)
    requires t.events == s.events
             || (|t.events| == |s.events| + 1 && t.events == s.events + [t.events[|s.events|]]
                 && t.events[|s.events|].kind == Readdressed)
    ensures Replay(t.events) == Replay(s.events)
  {
    if t.events != s.events { ReplayAppend(s.events, t.events[|s.events|]); }
  }

  lemma {:induction false} RejoinExplained(s: State, id: string, host: string, required: bool, now: real)
    requires id in s.nodes
    ensures Explained(s) ==> Explained(DoRegister(s, id, host, required, now))
  {
    var t := DoRegister(s, id, host, required, now);
    SameState(s, t, id);
    QuietReplay(s, t);
  }

  lemma {:induction false} RejoinGood(c: Config, s: State, id: string, host: string, required: bool, now: real)
    requires Consistent(s) && id in s.nodes
    ensures Good(c, s, DoRegister(s, id, host, required, now))
  {
    RejoinExplained(s, id, host, required, now);
    SingleStep(s, DoRegister(s, id, host, required, now), id, Readdressed);
  }

  lemma {:induction false} JoinGood(c: Config, s: State, id: string, host: string, required: bool, now: real)
    requires Consistent(s) && id !in s.nodes
    ensures Good(c, s, DoRegister(s, id, host, required, now))
  {
    var t := DoRegister(s, id, host, required, now);
    ReplayAppend(s.events, t.events[|s.events|]);
    assert Actual(t).offline == Actual(s).offline;
    SingleStep(s, t, id, Joined);
  }

  lemma {:induction false} HeartbeatGood(c: Config, s: State, id: string, metrics: Option<NodeMetrics>, now: real)
    requires Consistent(s)
    ensures Good(c, s, DoHeartbeat(s, id, metrics, now))
  {
    var t := DoHeartbeat(s, id, metrics, now);
    HeartbeatExplained(s, id, metrics, now);
    SingleStep(s, t, id, Recovered);
  }

  lemma {:induction false} HeartbeatExplained(s: State, id: string, metrics: Option<NodeMetrics>, now: real)
    ensures Explained(s) ==> Explained(DoHeartbeat(s, id, metrics, now))
  {
    var t := DoHeartbeat(s, id, metrics, now);
    if t.events != s.events { ReplayAppend(s.events, t.events[|s.events|]); }
    if HeartbeatFault(s, id, metrics).None? { OneRecord(s, t, id); }
  }

  lemma {:induction false} RemoveGood(c: Config, s: State, id: string)
    requires Consistent(s)
    ensures Good(c, s, DoRemove(s, id))
  {
    var t := DoRemove(s, id);
    WithoutSpec(s.order, id);
    if t.events != s.events {
      ReplayAppend(s.events, t.events[|s.events|]);
      assert t.nodes.Keys == s.nodes.Keys - {id};
      assert Actual(t).offline == Actual(s).offline - {id};
    }
    SingleStep(s, t, id, Removed);
  }

  lemma {:induction false} SweepOneGood(c: Config, s: State, id: string, now: real)
    requires c.Valid() && Consistent(s)
    ensures Good(c, s, SweepOne(c, s, id, now))
  {
    var t := SweepOne(c, s, id, now);
    SweepOneExplained(c, s, id, now);
    SingleStep(s, t, id, WentOffline);
  }

  lemma {:induction false} SweepOneExplained(c: Config, s: State, id: string, now: real)
    requires c.Valid()
    ensures Explained(s) ==> Explained(SweepOne(c, s, id, now))
  {
    var t := SweepOne(c, s, id, now);
    if id in s.nodes { MarkExplained(s, t, id); }
  }

  /** A record that stays as offline as it was, or is marked and logged so. */
  lemma {:induction false} MarkExplained(s: State, t: State, id: string)
    requires id in s.nodes && id in t.nodes && t.nodes == s.nodes[id := t.nodes[id]]
    requires if s.nodes[id].state != Offline && t.nodes[id].state == Offline
             then t.events == s.events + [Event(s.nextSequence, WentOffline, id, true)]
             else t.events == s.events && (t.nodes[id].state == Offline <==> s.nodes[id].state == Offline)
    ensures Explained(s) ==> Explained(t)
  {
    OneRecord(s, t, id);
    if t.events != s.events {
      ReplayAppend(s.events, Event(s.nextSequence, WentOffline, id, true));
    } else {
      assert Actual(t).offline == Actual(s).offline;
    }
  }

  lemma {:induction false} SweepManyGood(c: Config, s: State, ids: seq<string>, now: real)
    requires c.Valid() && Consistent(s)
    ensures Good(c, s, SweepMany(c, s, ids, now))
    decreases |ids|
  {
    if ids != [] {
      var m := SweepOne(c, s, ids[0], now);
      SweepOneGood(c, s, ids[0], now);
      SweepManyGood(c, m, ids[1..], now);
      AnnouncedTransitive(s, m, SweepMany(c, s, ids, now));
    }
  }

  // ---- what a sweep does ----

  lemma {:induction false} SweepManyRecords(c: Config, s: State, ids: seq<string>, now: real)
    requires c.Valid() && Distinct(ids)
    ensures var t := SweepMany(c, s, ids, now);
            && t.nodes.Keys == s.nodes.Keys && t.order == s.order
            && forall id :: id in s.nodes ==> t.nodes[id] == if id in ids then Swept(c, s.nodes[id], now) else s.nodes[id]
    decreases |ids|
  {
    if ids != [] {
      var m := SweepOne(c, s, ids[0], now);
      assert ids == [ids[0]] + ids[1..];
      SweepManyRecords(c, m, ids[1..], now);
      assert ids[0] !in ids[1..];
    }
  }

  lemma {:induction false} FloorQuotient(a: real, b: real, k: nat)
    requires a >= 0.0 && b > 0.0
    ensures (a / b).Floor >= k <==> a >= k as real * b
  {
    var q := a / b;
    assert q * b == a;
    var d := q - k as real;
    assert d * b == a - k as real * b;
  }

  /** `t` is `r` after a sweep at `now`: offline exactly if it was, or if it is required and has been
      silent for `span`; otherwise in the same state, at the same address, with the same beat. */
  ghost predicate Marked(span: real, r: Record, t: Record, now: real) {
    && t.lastHeartbeat == r.lastHeartbeat && t.host == r.host && t.required == r.required && t.metrics == r.metrics
    && (t.state == Offline <==>
          r.state == Offline || (r.required && Elapsed(r, now) >= span))
    && (t.state != Offline ==> t.state == r.state)
  }

  /** k heartbeat intervals. */
  function Span(c: Config): real { c.offlineAfter as real * c.interval }

  lemma {:induction false} SweptExact(c: Config, r: Record, now: real)
    requires c.Valid()
    ensures Marked(Span(c), r, Swept(c, r, now), now)
  {
    FloorQuotient(Elapsed(r, now), c.interval, c.offlineAfter);
  }

  /** The missed count after a sweep is at least `k` exactly if `k` whole intervals have passed in silence,
      counted up to the limit; nodes that are not watched, or are offline already, are left as they were. */
  lemma {:induction false} MissedCounts(c: Config, r: Record, now: real, k: nat)
    requires c.Valid() && k <= c.offlineAfter
    ensures var t := Swept(c, r, now);
            if r.required && r.state != Offline
            then t.missed <= c.offlineAfter && (t.missed >= k <==> k == 0 || now - r.lastHeartbeat >= k as real * c.interval)
            else t == r
  {
    if k > 0 {
      FloorQuotient(Elapsed(r, now), c.interval, k);
      AtLeastOne(k, c.interval);
    }
  }

  lemma {:induction false} AtLeastOne(k: nat, interval: real)
    requires k > 0 && interval > 0.0
    ensures k as real * interval > 0.0
  {
  }

  /** A sweep that read the clock at `now` marks exactly the required nodes that have been silent
      for k intervals by then; everything else about membership stays. */
  lemma {:induction false} SweepExact(c: Config, s: State, now: real)
    requires c.Valid() && Consistent(s)
    ensures var t := DoSweep(c, s, now);
            && t.nodes.Keys == s.nodes.Keys
            && forall id :: id in s.nodes ==> Marked(Span(c), s.nodes[id], t.nodes[id], now)
  {
    SweepManyRecords(c, s, s.order, now);
    forall id | id in s.nodes ensures Marked(Span(c), s.nodes[id], Swept(c, s.nodes[id], now), now) {
      SweptExact(c, s.nodes[id], now);
    }
  }

  // ---- runs ----

  /** A registry call, at the time `at` its lock-protected section runs. A sweep read its clock
      earlier, at `readAt`: other calls may have slipped in between. */
  datatype Call =
    | Register(at: real, id: string, host: string, required: bool)
    | Heartbeat(at: real, id: string, metrics: Option<NodeMetrics>)
    | Remove(at: real, id: string)
    | Sweep(at: real, readAt: real)

  datatype Beat = Beat(id: string, at: real)

  /** The registry, the monotonic clock, and the history of signs of life. */
  datatype World = World(state: State, clock: real, beats: seq<Beat>)

  ghost predicate Enabled(w: World, call: Call) {
    w.clock <= call.at && (call.Sweep? ==> call.readAt <= call.at)
  }

  function Step(c: Config, w: World, call: Call): World
    requires c.Valid()
  {
    match call
    case Register(at, id, host, required) =>
      World(DoRegister(w.state, id, host, required, at), at, w.beats + [Beat(id, at)])
    case Heartbeat(at, id, metrics) =>
      World(DoHeartbeat(w.state, id, metrics, at), at,
            if HeartbeatFault(w.state, id, metrics).None? then w.beats + [Beat(id, at)] else w.beats)
    case Remove(at, id) => World(DoRemove(w.state, id), at, w.beats)
    case Sweep(at, readAt) => World(DoSweep(c, w.state, readAt), at, w.beats)
  }

  /** A registered node's last_heartbeat is its latest sign of life. */
  ghost predicate Timely(w: World) {
    && (forall i :: 0 <= i < |w.beats| ==> w.beats[i].at <= w.clock)
    && (forall id :: id in w.state.nodes ==> w.state.nodes[id].lastHeartbeat <= w.clock)
    && (forall i :: 0 <= i < |w.beats| && w.beats[i].id in w.state.nodes ==>
          w.beats[i].at <= w.state.nodes[w.beats[i].id].lastHeartbeat)
  }

  ghost predicate Inv(c: Config, w: World) {
    Consistent(w.state) && Explained(w.state) && Bounded(c, w.state) && Timely(w)
  }

  lemma {:induction false} StepGood(c: Config, w: World, call: Call)
    requires c.Valid() && Inv(c, w) && Enabled(w, call)
    ensures Inv(c, Step(c, w, call)) && Announced(w.state, Step(c, w, call).state)
  {
    TimelyKept(c, w, call);
    assert Good(c, w.state, Step(c, w, call).state) by {
      match call
      case Register(at, id, host, required) => RegisterGood(c, w.state, id, host, required, at);
      case Heartbeat(at, id, metrics) => HeartbeatGood(c, w.state, id, metrics, at);
      case Remove(at, id) => RemoveGood(c, w.state, id);
      case Sweep(at, readAt) => SweepManyGood(c, w.state, w.state.order, readAt);
    }
  }

  lemma {:induction false} TimelyKept(c: Config, w: World, call: Call)
    requires c.Valid() && Consistent(w.state) && Timely(w) && Enabled(w, call)
    ensures Timely(Step(c, w, call))
  {
    if call.Sweep? { SweepExact(c, w.state, call.readAt); }
  }

  ghost predicate Runnable(c: Config, w: World, calls: seq<Call>)
    requires c.Valid()
    decreases |calls|
  {
    calls == [] || (Enabled(w, calls[0]) && Runnable(c, Step(c, w, calls[0]), calls[1..]))
  }

  ghost function Run(c: Config, w: World, calls: seq<Call>): World
    requires c.Valid()
    decreases |calls|
  {
    if calls == [] then w else Run(c, Step(c, w, calls[0]), calls[1..])
  }

  const START: World := World(State([], map[], [], 1), 0.0, [])

  /** The registry log explains the state: at any point of any run, replaying the events gives
      exactly the registered and the offline ids, and missed-heartbeat counts are in 0..k. */
  lemma {:induction false} RunGood(c: Config, w: World, calls: seq<Call>)
    requires c.Valid() && Inv(c, w) && Runnable(c, w, calls)
    ensures Inv(c, Run(c, w, calls)) && Announced(w.state, Run(c, w, calls).state)
    decreases |calls|
  {
    if calls != [] {
      StepGood(c, w, calls[0]);
      RunGood(c, Step(c, w, calls[0]), calls[1..]);
      AnnouncedTransitive(w.state, Step(c, w, calls[0]).state, Run(c, w, calls).state);
    }
  }

  lemma {:induction false} LogExplainsState(c: Config, calls: seq<Call>)
    requires c.Valid() && Runnable(c, START, calls)
    ensures var s := Run(c, START, calls).state;
            Replay(s.events) == Actual(s) && Bounded(c, s) && Consistent(s)
  {
    StartInv(c);
    RunGood(c, START, calls);
  }

  lemma {:induction false} StartInv(c: Config)
    ensures Inv(c, START)
  {
    assert Actual(START.state) == Members({}, {});
  }

  lemma {:induction false} RunSplit(c: Config, w: World, a: seq<Call>, b: seq<Call>)
    requires c.Valid() && Runnable(c, w, a + b)
    ensures Runnable(c, w, a) && Runnable(c, Run(c, w, a), b)
    ensures Run(c, w, a + b) == Run(c, Run(c, w, a), b)
    decreases |a|
  {
    if a == [] {
      assert a + b == b;
    } else {
      assert (a + b)[1..] == a[1..] + b;
      RunSplit(c, Step(c, w, a[0]), a[1..], b);
    }
  }

  /** Between any two points of a run, every id whose entry in the live id-to-host map differs is
      named by a replan event logged in between. */
  lemma {:induction false} LiveChangesAnnounced(c: Config, before: seq<Call>, between: seq<Call>, id: string)
    requires c.Valid() && Runnable(c, START, before + between)
    requires LiveHost(Run(c, START, before).state, id) != LiveHost(Run(c, START, before + between).state, id)
    ensures Named(Run(c, START, before + between).state.events, |Run(c, START, before).state.events|, id)
  {
    RunSplit(c, START, before, between);
    StartInv(c);
    RunGood(c, START, before);
    RunGood(c, Run(c, START, before), between);
  }

  /** No false offline call: if a sweep marks a node, the node gave no sign of life in the k
      intervals before the sweep read its clock, however the calls were interleaved. */
  lemma {:induction false} NoFalseOffline(c: Config, calls: seq<Call>, sweep: Call, id: string)
    requires c.Valid() && c.offlineAfter > 0
    requires Runnable(c, START, calls) && sweep.Sweep? && Enabled(Run(c, START, calls), sweep)
    requires var w := Run(c, START, calls);
             id in w.state.nodes && w.state.nodes[id].state != Offline
             && LiveHost(Step(c, w, sweep).state, id).None?
    ensures var w := Run(c, START, calls);
            && w.state.nodes[id].required
            && forall i :: 0 <= i < |w.beats| && w.beats[i].id == id ==>
                 w.beats[i].at + Span(c) <= sweep.readAt
  {
    StartInv(c);
    RunGood(c, START, calls);
    var w := Run(c, START, calls);
    SweepExact(c, w.state, sweep.readAt);
    PositiveSpan(c);
    MarkedSilent(w, id, Step(c, w, sweep).state.nodes[id], sweep, Span(c));
  }

  lemma {:induction false} MarkedSilent(w: World, id: string, t: Record, sweep: Call, span: real)
    requires Timely(w) && sweep.Sweep? && Enabled(w, sweep) && id in w.state.nodes && span > 0.0
    requires w.state.nodes[id].state != Offline && t.state == Offline
    requires Marked(span, w.state.nodes[id], t, sweep.readAt)
    ensures w.state.nodes[id].required
    ensures forall i :: 0 <= i < |w.beats| && w.beats[i].id == id ==> w.beats[i].at + span <= sweep.readAt
  {
  }

  lemma {:induction false} PositiveSpan(c: Config)
    requires c.Valid() && c.offlineAfter > 0
    ensures Span(c) > 0.0
  {
  }

  lemma {:induction false} SilentFor(r: Record, now: real, span: real)
    ensures r.lastHeartbeat + span <= now ==> Elapsed(r, now) >= span
  {
  }

  /** No missed one either: after a sweep, every required node silent for k intervals at its clock
      read is offline. */
  lemma {:induction false} SilentNodesGoOffline(c: Config, calls: seq<Call>, sweep: Call, id: string)
    requires c.Valid() && Runnable(c, START, calls) && sweep.Sweep? && Enabled(Run(c, START, calls), sweep)
    requires var w := Run(c, START, calls);
             id in w.state.nodes && w.state.nodes[id].required
             && w.state.nodes[id].lastHeartbeat + Span(c) <= sweep.readAt
    ensures var t := Step(c, Run(c, START, calls), sweep).state;
            id in t.nodes && t.nodes[id].state == Offline
  {
    StartInv(c);
    RunGood(c, START, calls);
    var w := Run(c, START, calls);
    SweepExact(c, w.state, sweep.readAt);
    assert Marked(Span(c), w.state.nodes[id], Step(c, w, sweep).state.nodes[id], sweep.readAt);
    SilentFor(w.state.nodes[id], sweep.readAt, Span(c));
  }

  // ---- one node's story ----

  /** What the calls about one node amount to, told without the registry: where it is and whether it
      must beat, as last registered; whether it has beaten since it joined; its last reported metrics;
      and its last sign of life. */
  datatype Tale = Absent | Present(host: string, required: bool, spoke: bool, metrics: Option<NodeMetrics>, lastSign: real)

  function Tell(t: Tale, id: string, call: Call): Tale {
    match call
    case Register(at, x, host, required) =>
      if x != id then t
      else if t.Absent? then Present(host, required, false, None, at)
      else t.(host := host, required := required, lastSign := at)
    case Heartbeat(at, x, metrics) =>
      if x != id || t.Absent? || (metrics.Some? && metrics.value.nodeId != id) then t
      else t.(spoke := true, lastSign := at, metrics := if metrics.Some? then metrics else t.metrics)
    case Remove(_, x) => if x == id then Absent else t
    case Sweep(_, _) => t
  }

  function TellAll(t: Tale, id: string, calls: seq<Call>): Tale
    decreases |calls|
  {
    if calls == [] then t else TellAll(Tell(t, id, calls[0]), id, calls[1..])
  }

  /** The registry's record of `id` is its tale; it is joining only before its first beat, idle only
      after, and offline otherwise. */
  ghost predicate Records(s: State, id: string, t: Tale) {
    && (id in s.nodes <==> t.Present?)
    && (t.Present? ==> RecordIs(s.nodes[id], t))
  }

  ghost predicate RecordIs(r: Record, t: Tale)
    requires t.Present?
  {
    && r.host == t.host && r.required == t.required && r.metrics == t.metrics && r.lastHeartbeat == t.lastSign
    && (r.state == Offline || r.state == if t.spoke then Idle else Joining)
  }

  lemma {:induction false} TaleKept(c: Config, w: World, id: string, t: Tale, call: Call)
    requires c.Valid() && Consistent(w.state) && Records(w.state, id, t)
    ensures Records(Step(c, w, call).state, id, Tell(t, id, call))
  {
    if call.Sweep? {
      SweepExact(c, w.state, call.readAt);
      var u := DoSweep(c, w.state, call.readAt);
      if id in w.state.nodes { assert Marked(Span(c), w.state.nodes[id], u.nodes[id], call.readAt); }
    }
  }

  lemma {:induction false} TalesKept(c: Config, w: World, id: string, t: Tale, calls: seq<Call>)
    requires c.Valid() && Inv(c, w) && Runnable(c, w, calls) && Records(w.state, id, t)
    ensures Records(Run(c, w, calls).state, id, TellAll(t, id, calls))
    decreases |calls|
  {
    if calls != [] {
      TaleKept(c, w, id, t, calls[0]);
      StepGood(c, w, calls[0]);
      TalesKept(c, Step(c, w, calls[0]), id, Tell(t, id, calls[0]), calls[1..]);
    }
  }

  /** Over every run the registry's record of a node is what the calls about that node tell. */
  lemma {:induction false} RegistryTells(c: Config, calls: seq<Call>, id: string)
    requires c.Valid() && Runnable(c, START, calls)
    ensures Records(Run(c, START, calls).state, id, TellAll(Absent, id, calls))
  {
    StartInv(c);
    TalesKept(c, START, id, Absent, calls);
  }

  // ---- the log says no more than happened ----

  /** What a consumer can see of a node: its host and whether it is offline. */
  function Seen(s: State, id: string): Option<(string, bool)> {
    if id in s.nodes then Some((s.nodes[id].host, s.nodes[id].state == Offline)) else None
  }

  ghost predicate LooksSame(s: State, t: State) {
    forall id :: Seen(s, id) == Seen(t, id)
  }

  lemma {:induction false} SweepOneLogs(c: Config, s: State, id: string, now: real)
    requires c.Valid()
    ensures var t := SweepOne(c, s, id, now);
            && s.events <= t.events && t.nodes.Keys == s.nodes.Keys
            && (forall x :: x in s.nodes ==> t.nodes[x].host == s.nodes[x].host)
            && (forall x :: x in s.nodes && s.nodes[x].state == Offline ==> t.nodes[x].state == Offline)
            && (t.events == s.events <==> LooksSame(s, t))
  {
    var t := SweepOne(c, s, id, now);
    if id in s.nodes {
      assert t.nodes == s.nodes[id := Swept(c, s.nodes[id], now)];
      if t.events != s.events { assert Seen(s, id) != Seen(t, id); }
    }
  }

  lemma {:induction false} SweepLogs(c: Config, s: State, ids: seq<string>, now: real)
    requires c.Valid()
    ensures var t := SweepMany(c, s, ids, now);
            && s.events <= t.events && t.nodes.Keys == s.nodes.Keys
            && (forall x :: x in s.nodes ==> t.nodes[x].host == s.nodes[x].host)
            && (forall x :: x in s.nodes && s.nodes[x].state == Offline ==> t.nodes[x].state == Offline)
            && (t.events == s.events <==> LooksSame(s, t))
    decreases |ids|
  {
    if ids != [] {
      var m := SweepOne(c, s, ids[0], now);
      SweepOneLogs(c, s, ids[0], now);
      SweepLogs(c, m, ids[1..], now);
      SweptTwice(s, m, SweepMany(c, m, ids[1..], now));
    }
  }

  /** Nodes only go offline in a sweep, so what one step changed the rest does not undo. */
  lemma {:induction false} SweptTwice(s: State, m: State, t: State)
    requires s.events <= m.events <= t.events
    requires s.nodes.Keys == m.nodes.Keys == t.nodes.Keys
    requires forall x :: x in s.nodes && s.nodes[x].state == Offline ==> m.nodes[x].state == Offline
    requires forall x :: x in m.nodes && m.nodes[x].state == Offline ==> t.nodes[x].state == Offline
    requires m.events == s.events <==> LooksSame(s, m)
    requires t.events == m.events <==> LooksSame(m, t)
    requires forall x :: x in s.nodes ==> s.nodes[x].host == m.nodes[x].host == t.nodes[x].host
    ensures t.events == s.events <==> LooksSame(s, t)
  {
    if LooksSame(s, t) {
      forall x ensures Seen(s, x) == Seen(m, x) && Seen(m, x) == Seen(t, x) {
        assert Seen(s, x) == Seen(t, x);
      }
    }
    if t.events == s.events {
      assert |m.events| == |s.events|;
      assert m.events == s.events;
      forall x ensures Seen(s, x) == Seen(t, x) { assert Seen(s, x) == Seen(m, x) && Seen(m, x) == Seen(t, x); }
    }
  }

  /** A call logs an event exactly if some node joins, leaves, moves, or goes offline or comes back:
      registering again at the same address, and beats of a node that is not offline, stay quiet. */
  lemma {:induction false} LogsExactlyChanges(c: Config, w: World, call: Call)
    requires c.Valid() && Consistent(w.state)
    ensures Step(c, w, call).state.events == w.state.events <==> LooksSame(w.state, Step(c, w, call).state)
  {
    match call
    case Register(at, id, host, required) => RegisterLogs(w.state, id, host, required, at);
    case Heartbeat(at, id, metrics) => HeartbeatLogs(w.state, id, metrics, at);
    case Remove(at, id) => RemoveLogs(w.state, id);
    case Sweep(at, readAt) => SweepLogs(c, w.state, w.state.order, readAt);
  }

  lemma {:induction false} OnlySeen(s: State, t: State, id: string)
    requires forall x :: x != id ==> Seen(s, x) == Seen(t, x)
    ensures LooksSame(s, t) <==> Seen(s, id) == Seen(t, id)
  {
  }

  lemma {:induction false} RegisterLogs(s: State, id: string, host: string, required: bool, now: real)
    ensures var t := DoRegister(s, id, host, required, now); t.events == s.events <==> LooksSame(s, t)
  {
    var t := DoRegister(s, id, host, required, now);
    OnlySeen(s, t, id);
    if Seen(s, id) != Seen(t, id) { assert |t.events| == |s.events| + 1; }
  }

  lemma {:induction false} HeartbeatLogs(s: State, id: string, metrics: Option<NodeMetrics>, now: real)
    ensures var t := DoHeartbeat(s, id, metrics, now); t.events == s.events <==> LooksSame(s, t)
  {
    var t := DoHeartbeat(s, id, metrics, now);
    OnlySeen(s, t, id);
    if Seen(s, id) != Seen(t, id) { assert |t.events| == |s.events| + 1; }
  }

  lemma {:induction false} RemoveLogs(s: State, id: string)
    ensures var t := DoRemove(s, id); t.events == s.events <==> LooksSame(s, t)
  {
    var t := DoRemove(s, id);
    OnlySeen(s, t, id);
    if id in s.nodes { assert |t.events| == |s.events| + 1; }
  }
}
