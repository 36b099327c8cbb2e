/** Registry and head together: what the watch loop reads is what the registry's log announces. */
module Membership {
  import opened Contracts
  import opened Launch
  import opened Ordering
  import opened ServeHead
  import Registry
  import RegistryRuns

  /** GET /api/nodes: the registry's profiles in dict order. */
  function Entries(s: Registry.State): seq<Entry>
    requires forall id :: id in s.order ==> id in s.nodes
  {
    seq(|s.order|, i requires 0 <= i < |s.order| =>
      Entry(s.order[i], s.nodes[s.order[i]].host, s.nodes[s.order[i]].state == Offline))
  }

  /** The head's view of who is alive is the registry's live id-to-host map, less the exclusions. */
  lemma {:induction false} AliveIsLive(s: Registry.State, excluded: set<string>, id: string)
    requires Registry.Consistent(s)
    ensures var alive := AliveById(Entries(s), excluded);
            (if id in alive then Some(alive[id]) else None)
            == if id in excluded then None else RegistryRuns.LiveHost(s, id)
  {
    var entries, alive := Entries(s), AliveById(Entries(s), excluded);
    if id in s.nodes {
      assert id in s.order;
      var i :| 0 <= i < |s.order| && s.order[i] == id;
      assert entries[i] in entries;
      forall e | e in entries && e.id == id ensures e == entries[i] {
        var j :| 0 <= j < |entries| && entries[j] == e;
        assert s.order[j] == id;
      }
    } else {
      forall e | e in entries ensures e.id != id {
        var j :| 0 <= j < |entries| && entries[j] == e;
        assert s.order[j] in s.order;
      }
    }
  }

  /** One ordering only: a fixed first id, then the others strictly increasing. */
  lemma {:induction false} OrderUnique(x: seq<string>, y: seq<string>)
    requires x != [] && y != [] && x[0] == y[0]
    requires Distinct(x) && Distinct(y) && Increasing(x[1..]) && Increasing(y[1..])
    requires forall id :: id in x <==> id in y
    ensures x == y
  {
    assert (set id | id in x) == (set id | id in y);
    SameElements(x, y);
    SameTails(x, y);
    IncreasingUnique(x[1..], y[1..]);
    assert x == [x[0]] + x[1..] && y == [y[0]] + y[1..];
  }

  lemma {:induction false} IncreasingUnique(x: seq<string>, y: seq<string>)
    requires Increasing(x) && Increasing(y) && multiset(x) == multiset(y)
    ensures x == y
  {
    StrOrder();
    SortedUnique(StrLeq, x, y);
  }

  /** The member list is determined by who is alive. */
  lemma {:induction false} HeadFirstUnique(a: seq<Member>, b: seq<Member>, headId: string, alive: Alive)
    requires HeadFirst(a, headId, alive) && HeadFirst(b, headId, alive)
    ensures a == b
  {
    var x, y := MemberIds(a), MemberIds(b);
    IdsAlive(a, headId, alive);
    IdsAlive(b, headId, alive);
    OrderUnique(x, y);
    assert |a| == |b| by { assert |a| == |x| && |b| == |y|; }
    forall i | 0 <= i < |a| ensures a[i] == b[i] {
      assert x[i] == y[i];
    }
  }

  lemma {:induction false} IdsAlive(a: seq<Member>, headId: string, alive: Alive)
    requires HeadFirst(a, headId, alive)
    ensures forall id :: id in MemberIds(a) <==> id in alive
  {
    forall id | id in MemberIds(a) ensures id in alive {
      var i :| 0 <= i < |a| && MemberIds(a)[i] == id;
    }
  }

  /** `members` is what `build_members` returns on the registry state `s` (every reachable state is
      consistent, by `RegistryRuns.RunGood`). */
  ghost predicate BuiltFrom(members: seq<Member>, s: Registry.State, headId: string, excluded: set<string>) {
    Registry.Consistent(s) && HeadFirst(members, headId, AliveById(Entries(s), excluded))
  }

  /** If the membership a head would be built from differs between two points of a registry run,
      the log contains a replan event from in between: no change the watch loop can react to goes
      unannounced. */
  lemma {:induction false} MembershipChangeAnnounced(c: Registry.Config, before: seq<RegistryRuns.Call>, between: seq<RegistryRuns.Call>,
                                  headId: string, excluded: set<string>, a: seq<Member>, b: seq<Member>)
    requires c.Valid() && RegistryRuns.Runnable(c, RegistryRuns.START, before + between)
    requires BuiltFrom(a, RegistryRuns.Run(c, RegistryRuns.START, before).state, headId, excluded)
    requires BuiltFrom(b, RegistryRuns.Run(c, RegistryRuns.START, before + between).state, headId, excluded)
    requires a != b
    ensures var s := RegistryRuns.Run(c, RegistryRuns.START, before).state;
            var t := RegistryRuns.Run(c, RegistryRuns.START, before + between).state;
            exists id :: id !in excluded && RegistryRuns.Named(t.events, |s.events|, id)
  {
    var s := RegistryRuns.Run(c, RegistryRuns.START, before).state;
    var t := RegistryRuns.Run(c, RegistryRuns.START, before + between).state;
    var x, y := AliveById(Entries(s), excluded), AliveById(Entries(t), excluded);
    if x == y { HeadFirstUnique(a, b, headId, x); }
    var id := DifferingKey(x, y);
    AliveIsLive(s, excluded, id);
    AliveIsLive(t, excluded, id);
    RegistryRuns.LiveChangesAnnounced(c, before, between, id);
  }

  lemma {:induction false} DifferingKey(x: Alive, y: Alive) returns (id: string)
    requires x != y
    ensures (if id in x then Some(x[id]) else None) != (if id in y then Some(y[id]) else None)
  {
    if x.Keys == y.Keys {
      id :| id in x.Keys && x[id] != y[id];
    } else if k :| k in x.Keys && k !in y.Keys {
      id := k;
    } else {
      id :| id in y.Keys && id !in x.Keys;
    }
  }
}
