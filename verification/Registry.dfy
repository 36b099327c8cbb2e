/** ctl/registry.py: membership, heartbeats and the event log that has to explain them. */
module Registry {
  import opened Contracts
  import opened Numbers
  import opened Ordering

  datatype Record = Record(
    host: string, state: NodeState, lastHeartbeat: real, missed: nat,
    metrics: Option<NodeMetrics>, required: bool)

  datatype EventKind = Joined | Readdressed | WentOffline | Recovered | Removed

  datatype Event = Event(sequence: nat, kind: EventKind, nodeId: string, replan: bool)

  /** `order` is the insertion order of the `nodes` dict. */
  datatype State = State(order: seq<string>, nodes: map<string, Record>, events: seq<Event>, nextSequence: nat)

  /** heartbeat_interval_s and missed_heartbeats_offline. */
  datatype Config = Config(interval: real, offlineAfter: nat) {
    ghost predicate Valid() { interval > 0.0 }
  }

  function Emit(s: State, kind: EventKind, id: string): State {
    s.(events := s.events + [Event(s.nextSequence, kind, id, true)], nextSequence := s.nextSequence + 1)
  }

  function Put(s: State, id: string, r: Record): State {
    s.(nodes := s.nodes[id := r], order := if id in s.nodes then s.order else s.order + [id])
  }

  /** `register`: a known id keeps its state and is announced only if its address moved. */
  function DoRegister(s: State, id: string, host: string, required: bool, now: real): State {
    if id in s.nodes then
      var old' := s.nodes[id];
      var t := Put(s, id, old'.(host := host, lastHeartbeat := now, missed := 0, required := required));
      if old'.host != host then Emit(t, Readdressed, id) else t
    else
      Emit(Put(s, id, Record(host, Joining, now, 0, None, required)), Joined, id)
  }

  datatype HeartbeatError = UnknownNode | ForeignMetrics

  function HeartbeatFault(s: State, id: string, metrics: Option<NodeMetrics>): Option<HeartbeatError> {
    if id !in s.nodes then Some(UnknownNode)
    else if metrics.Some? && metrics.value.nodeId != id then Some(ForeignMetrics)
    else None
  }

  function DoHeartbeat(s: State, id: string, metrics: Option<NodeMetrics>, now: real): State {
    if HeartbeatFault(s, id, metrics).Some? then s
    else
      var r := s.nodes[id];
      var t := Put(s, id, r.(lastHeartbeat := now, missed := 0, state := Idle,
                             metrics := if metrics.Some? then metrics else r.metrics));
      if r.state == Offline then Emit(t, Recovered, id) else t
  }

  function Without(order: seq<string>, id: string): seq<string> {
    if order == [] then []
    else if order[0] == id then Without(order[1..], id) else [order[0]] + Without(order[1..], id)
  }

  function DoRemove(s: State, id: string): State {
    if id !in s.nodes then s
    else Emit(s.(nodes := s.nodes - {id}, order := Without(s.order, id)), Removed, id)
  }

  /** Time since the last heartbeat as the sweep sees it: a beat after its clock read counts as now. */
  function Elapsed(r: Record, now: real): real { MaxReal(0.0, now - r.lastHeartbeat) }

  function MissedBeats(c: Config, r: Record, now: real): (n: nat)
    requires c.Valid()
  {
    var q := Elapsed(r, now) / c.interval;
    assert q >= 0.0;
    q.Floor
  }

  /** The record after a sweep that read the clock at `now`. */
  function Swept(c: Config, r: Record, now: real): Record
    requires c.Valid()
  {
    if !r.required || r.state == Offline then r
    else
      var missed := MissedBeats(c, r, now);
      var counted := r.(missed := Min(missed, c.offlineAfter));
      if missed < c.offlineAfter then counted else counted.(state := Offline)
  }

  function SweepOne(c: Config, s: State, id: string, now: real): State
    requires c.Valid()
  {
    if id !in s.nodes then s
    else
      var r := s.nodes[id];
      var t := s.(nodes := s.nodes[id := Swept(c, r, now)]);
      if r.state != Offline && Swept(c, r, now).state == Offline then Emit(t, WentOffline, id) else t
  }

  function SweepMany(c: Config, s: State, ids: seq<string>, now: real): State
    requires c.Valid()
    decreases |ids|
  {
    if ids == [] then s else SweepMany(c, SweepOne(c, s, ids[0], now), ids[1..], now)
  }

  /** `sweep`: every node, in dict order. */
  function DoSweep(c: Config, s: State, now: real): State
    requires c.Valid()
  {
    SweepMany(c, s, s.order, now)
  }

  lemma {:induction false} SweepManyNext(c: Config, s: State, t: State, ids: seq<string>, i: nat, now: real)
    requires c.Valid() && i < |ids| && t == SweepOne(c, s, ids[i], now)
    ensures SweepMany(c, s, ids[i..], now) == SweepMany(c, t, ids[i + 1..], now)
  {
    assert ids[i..][0] == ids[i] && ids[i..][1..] == ids[i + 1..];
  }

  /** Sweeping `rest` from here reaches `target`, and `emitted` is what was logged since `was`. The
      quantifier keeps the arithmetic of the sweep out of the loop's own proof. */
  ghost predicate Sweeping(c: Config, was: State, s: State, emitted: seq<Event>, rest: seq<string>, now: real, target: State)
    requires c.Valid()
  {
    (forall t :: t == s ==> SweepMany(c, t, rest, now) == target) && s.events == was.events + emitted
  }

  lemma {:induction false} SweepBegins(c: Config, was: State, ids: seq<string>, now: real)
    requires c.Valid() && ids == was.order
    ensures Sweeping(c, was, was, [], ids[0..], now, DoSweep(c, was, now))
  {
    assert ids[0..] == ids;
  }

  lemma {:induction false} SweepEnds(c: Config, was: State, s: State, emitted: seq<Event>, ids: seq<string>, now: real, target: State)
    requires c.Valid() && Sweeping(c, was, s, emitted, ids[|ids|..], now, target)
    ensures s == target && s.events == was.events + emitted
  {
    assert SweepMany(c, s, ids[|ids|..], now) == s;
  }

  lemma {:induction false} SweepStep(c: Config, was: State, s: State, t: State, emitted: seq<Event>, more: seq<Event>,
                  ids: seq<string>, i: nat, now: real, target: State)
    requires c.Valid() && i < |ids| && Sweeping(c, was, s, emitted, ids[i..], now, target)
    requires t == SweepOne(c, s, ids[i], now) && t.events == s.events + more
    ensures Sweeping(c, was, t, emitted + more, ids[i + 1..], now, target)
  {
    SweepManyNext(c, s, t, ids, i, now);
    Regroup(was.events, emitted, more);
  }

  // ---- the class ----

  ghost predicate Consistent(s: State) {
    && Distinct(s.order)
    && (forall id :: id in s.order <==> id in s.nodes)
    && s.nextSequence == |s.events| + 1
    && forall k :: 0 <= k < |s.events| ==> s.events[k].sequence == k + 1
  }

  class NodeRegistry {
    const config: Config
    var order: seq<string>
    var nodes: map<string, Record>
    var events: seq<Event>
    var nextSequence: nat

    ghost function View(): State
      reads this
    {
      State(order, nodes, events, nextSequence)
    }

    ghost predicate Valid()
      reads this
    {
      config.Valid() && Consistent(View())
    }

    constructor (interval: real, offlineAfter: nat)
      requires interval > 0.0
      ensures Valid() && View() == State([], map[], [], 1) && config == Config(interval, offlineAfter)
    {
      config := Config(interval, offlineAfter);
      order, nodes, events, nextSequence := [], map[], [], 1;
    }

    method Append(kind: EventKind, id: string) returns (e: Event)
      modifies this`events, this`nextSequence
      ensures View() == Emit(old(View()), kind, id) && events == old(events) + [e]
    {
      e := Event(nextSequence, kind, id, true);
      events := events + [e];
      nextSequence := nextSequence + 1;
    }

    method Register(id: string, host: string, required: bool, now: real) returns (state: NodeState)
      requires Valid()
      modifies this
      ensures Valid() && View() == DoRegister(old(View()), id, host, required, now)
      ensures id in nodes && state == nodes[id].state
    {
      if id in nodes {
        var moved := nodes[id].host != host;
        state := nodes[id].state;
        nodes := nodes[id := nodes[id].(host := host, lastHeartbeat := now, missed := 0, required := required)];
        if moved {
          var _ := Append(Readdressed, id);
        }
        return;
      }
      state := Joining;
      nodes := nodes[id := Record(host, Joining, now, 0, None, required)];
      order := order + [id];
      var _ := Append(Joined, id);
    }

    method Heartbeat(id: string, metrics: Option<NodeMetrics>, now: real) returns (fault: Option<HeartbeatError>)
      requires Valid()
      modifies this
      ensures Valid() && View() == DoHeartbeat(old(View()), id, metrics, now)
      ensures fault == HeartbeatFault(old(View()), id, metrics)
      ensures fault == Some(UnknownNode) <==> id !in old(nodes)
      ensures fault == Some(ForeignMetrics) <==> id in old(nodes) && metrics.Some? && metrics.value.nodeId != id
    {
      if id !in nodes {
        return Some(UnknownNode);
      }
      if metrics.Some? && metrics.value.nodeId != id {
        return Some(ForeignMetrics);
      }
      var wasOffline := nodes[id].state == Offline;
      nodes := nodes[id := nodes[id].(lastHeartbeat := now, missed := 0, state := Idle)];
      if metrics.Some? {
        nodes := nodes[id := nodes[id].(metrics := metrics)];
      }
      if wasOffline {
        var _ := Append(Recovered, id);
      }
      return None;
    }

    method Remove(id: string) returns (found: bool)
      requires Valid()
      modifies this
      ensures Valid() && View() == DoRemove(old(View()), id) && found == old(id in nodes)
    {
      if id !in nodes {
        return false;
      }
      WithoutSpec(order, id);
      nodes := nodes - {id};
      order := Without(order, id);
      var _ := Append(Removed, id);
      return true;
    }

    /** The body of the sweep loop for one node. */
    method SweepNode(id: string, now: real) returns (emitted: seq<Event>)
      requires Valid() && id in nodes
      modifies this`nodes, this`events, this`nextSequence
      ensures Valid() && View() == SweepOne(config, old(View()), id, now)
      ensures events == old(events) + emitted
    {
      emitted := [];
      var r := nodes[id];
      assert nodes[id := r] == nodes;
      if !r.required || r.state == Offline {
        return;
      }
      var missed := MissedBeats(config, r, now);
      nodes := nodes[id := r.(missed := Min(missed, config.offlineAfter))];
      if missed < config.offlineAfter {
        return;
      }
      nodes := nodes[id := nodes[id].(state := Offline)];
      var e := Append(WentOffline, id);
      emitted := [e];
    }

    /** One iteration of the sweep loop. */
    method SweepNext(ids: seq<string>, i: nat, now: real, emitted: seq<Event>, ghost was: State, ghost target: State)
      returns (more: seq<Event>)
      requires Valid() && order == ids && i < |ids|
      requires Sweeping(config, was, View(), emitted, ids[i..], now, target)
      modifies this`nodes, this`events, this`nextSequence
      ensures Valid() && Sweeping(config, was, View(), emitted + more, ids[i + 1..], now, target)
    {
      ghost var before := View();
      more := SweepNode(ids[i], now);
      SweepStep(config, was, before, View(), emitted, more, ids, i, now, target);
    }

    /** The locked part of `sweep`: every node in dict order. */
    method SweepLocked(now: real) returns (emitted: seq<Event>)
      requires Valid()
      modifies this`nodes, this`events, this`nextSequence
      ensures Valid() && View() == DoSweep(config, old(View()), now)
      ensures events == old(events) + emitted
    {
      emitted := [];
      var ids := order;
      ghost var was, target := View(), DoSweep(config, View(), now);
      SweepBegins(config, was, ids, now);
      for i := 0 to |ids|
        invariant Valid() && order == ids
        invariant Sweeping(config, was, View(), emitted, ids[i..], now, target)
      {
        var more := SweepNext(ids, i, now, emitted, was, target);
        emitted := emitted + more;
      }
      SweepEnds(config, was, View(), emitted, ids, now, target);
    }

    /** `now` was read before the lock was taken; `notified` are the nodes `on_replan` is called for,
        in order, after it is released. */
    method Sweep(now: real) returns (emitted: seq<Event>, notified: seq<string>)
      requires Valid()
      modifies this`nodes, this`events, this`nextSequence
      ensures Valid() && View() == DoSweep(config, old(View()), now)
      ensures events == old(events) + emitted
      ensures |notified| == |emitted| && forall i :: 0 <= i < |emitted| ==> notified[i] == emitted[i].nodeId
    {
      emitted := SweepLocked(now);
      notified := seq(|emitted|, i requires 0 <= i < |emitted| => emitted[i].nodeId);
    }

    /** A consumer that asks for what follows the last sequence number it saw gets exactly the rest
        of the log. */
    method EventsAfter(sequence: int) returns (r: seq<Event>)
      requires Valid()
      ensures r == events[Min(Max(sequence, 0), |events|)..]
    {
      r := [];
      for i := 0 to |events|
        invariant r == events[Min(Max(sequence, 0), i)..i]
      {
        if events[i].sequence > sequence {
          r := r + [events[i]];
        }
      }
    }
  }

  lemma {:induction false} WithoutSpec(order: seq<string>, id: string)
    requires Distinct(order)
    ensures Distinct(Without(order, id))
    ensures forall x :: x in Without(order, id) <==> x in order && x != id
  {
    if order != [] {
      WithoutSpec(order[1..], id);
      assert order == [order[0]] + order[1..];
      var rest := Without(order[1..], id);
      assert order[0] !in order[1..];
      assert forall k :: 0 <= k < |rest| ==> rest[k] in rest;
    }
  }
}
