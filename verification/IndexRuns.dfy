/** Concurrent `refresh` calls: two locks, one generation counter, any interleaving. */
module IndexRuns {
  import opened Contracts
  import opened Index

  /** What a call remembers: the generation it read on entry, the version of the directory at that
      moment, and the version being scanned then, if any. The last two are observations, not code. */
  datatype Entry = Entry(observed: nat, version: nat, running: Option<nat>)

  datatype Pc =
    | Outside
    | Waiting(call: Entry)                     // generation read, refresh lock not yet held
    | Holding(call: Entry)                     // refresh lock held, generation not yet compared
    | Scanning(call: Entry, scanned: nat)      // reading directory version `scanned`
    | Returned(call: Entry, seen: nat)         // stats returned at generation `seen`
    | Raised(call: Entry)
  {
    predicate InLock() { Holding? || Scanning? }
    predicate Entered() { !Outside? }
  }

  datatype Commit = Commit(observed: nat, scanned: nat, embed: Embedder, published: Published)

  datatype World = World(
    generation: nat, published: Option<Published>, lock: Option<nat>, threads: seq<Pc>,
    disks: seq<Files>, commits: seq<Commit>)
  {
    predicate Shaped() {
      disks != [] && (lock.Some? ==> lock.value < |threads|)
    }
    function Version(): nat requires disks != [] { |disks| - 1 }
    function Running(): Option<nat>
      requires Shaped()
    {
      if lock.Some? && threads[lock.value].Scanning? then Some(threads[lock.value].scanned) else None
    }
    function Goto(t: nat, pc: Pc): World
      requires t < |threads|
    {
      this.(threads := threads[t := pc])
    }
  }

  /** `Finish` carries the embedding model as it answers that one scan. */
  datatype Action =
    | Enter(t: nat)
    | Acquire(t: nat)
    | Compare(t: nat)
    | Finish(t: nat, embed: Embedder, result: Result<Published, Error>)
    | Change(files: Files)

  ghost predicate Enabled(caps: Caps, w: World, a: Action)
    requires w.Shaped()
  {
    match a
    case Enter(t) => t < |w.threads| && (w.threads[t].Outside? || w.threads[t].Returned? || w.threads[t].Raised?)
    case Acquire(t) => t < |w.threads| && w.threads[t].Waiting? && w.lock.None?
    case Compare(t) => t < |w.threads| && w.threads[t].Holding?
    case Finish(t, embed, result) =>
      && t < |w.threads| && w.threads[t].Scanning? && w.threads[t].scanned < |w.disks|
      && Outcome(caps, embed, w.disks[w.threads[t].scanned], result)
    case Change(_) => true
  }

  ghost function Step(caps: Caps, w: World, a: Action): World
    requires w.Shaped() && Enabled(caps, w, a)
  {
    match a
    case Enter(t) => w.Goto(t, Waiting(Entry(w.generation, w.Version(), w.Running())))
    case Acquire(t) => w.Goto(t, Holding(w.threads[t].call)).(lock := Some(t))
    case Compare(t) =>
      var call := w.threads[t].call;
      if w.generation != call.observed then w.Goto(t, Returned(call, w.generation)).(lock := None)
      else w.Goto(t, Scanning(call, w.Version()))
    case Finish(t, embed, result) =>
      var call, scanned := w.threads[t].call, w.threads[t].scanned;
      (match result
       case Err(_) => w.Goto(t, Raised(call)).(lock := None)
       case Ok(p) =>
         w.Goto(t, Returned(call, w.generation + 1))
         .(lock := None, generation := w.generation + 1, published := Some(p),
           commits := w.commits + [Commit(call.observed, scanned, embed, p)]))
    case Change(files) => w.(disks := w.disks + [files])
  }

  /** The refresh lock is held exactly by the thread inside its region. */
  ghost predicate Locked(w: World) {
    && w.Shaped()
    && forall t :: 0 <= t < |w.threads| ==> (w.threads[t].InLock() <==> w.lock == Some(t))
  }

  /** Generations count commits, one per observed generation, and the last commit is published. */
  ghost predicate Counted(caps: Caps, w: World) {
    && |w.commits| == w.generation
    && (forall g :: 0 <= g < |w.commits| ==>
        && w.commits[g].observed == g && w.commits[g].scanned < |w.disks|
        && Outcome(caps, w.commits[g].embed, w.disks[w.commits[g].scanned], Ok(w.commits[g].published)))
    && w.published == if w.generation == 0 then None else Some(w.commits[w.generation - 1].published)
  }

  /** A scan of version `scanned`, committed or about to be on generation `g`, is not older than the
      call `e`, unless it was the one already running when the call entered. */
  predicate NotOlder(e: Entry, g: nat, scanned: nat) {
    g >= e.observed ==> e.version <= scanned || (g == e.observed && e.running == Some(scanned))
  }

  ghost predicate CallOk(w: World, pc: Pc) {
    match pc
    case Outside => true
    case Waiting(e) => e.observed <= w.generation
    case Holding(e) => e.observed <= w.generation
    case Scanning(e, scanned) => e.observed == w.generation && e.version <= scanned < |w.disks|
    case Returned(e, seen) => e.observed < seen <= w.generation
    case Raised(e) => e.observed <= w.generation
  }

  ghost predicate Calls(w: World) {
    && w.disks != []
    && forall t :: 0 <= t < |w.threads| ==> CallOk(w, w.threads[t])
  }

  ghost predicate FreshFor(w: World, e: Entry) {
    && e.version < |w.disks|
    && (forall g :: 0 <= g < |w.commits| ==> NotOlder(e, g, w.commits[g].scanned))
    && (forall s :: 0 <= s < |w.threads| && w.threads[s].Scanning? ==> NotOlder(e, w.generation, w.threads[s].scanned))
  }

  ghost predicate Fresh(w: World) {
    forall t :: 0 <= t < |w.threads| && w.threads[t].Entered() ==> FreshFor(w, w.threads[t].call)
  }

  ghost predicate Inv(caps: Caps, w: World) {
    Locked(w) && Counted(caps, w) && Calls(w) && Fresh(w)
  }

  lemma {:induction false} LockedKept(caps: Caps, w: World, a: Action)
    requires Locked(w) && Enabled(caps, w, a)
    ensures Locked(Step(caps, w, a))
  {
  }

  lemma {:induction false} CountedKept(caps: Caps, w: World, a: Action)
    requires Locked(w) && Counted(caps, w) && Calls(w) && Enabled(caps, w, a)
    ensures Counted(caps, Step(caps, w, a))
  {
    var v := Step(caps, w, a);
    if a.Finish? && a.result.Ok? {
      assert CallOk(w, w.threads[a.t]);
      CommitCounted(caps, w, v, v.commits[|w.commits|]);
    } else {
      OthersCounted(caps, w, v);
    }
  }

  lemma {:induction false} CommitCounted(caps: Caps, w: World, v: World, c: Commit)
    requires Counted(caps, w) && v.disks == w.disks && v.commits == w.commits + [c]
    requires v.generation == w.generation + 1 && v.published == Some(c.published)
    requires c.observed == w.generation && c.scanned < |w.disks|
    requires Outcome(caps, c.embed, w.disks[c.scanned], Ok(c.published))
    ensures Counted(caps, v)
  {
  }

  lemma {:induction false} OthersCounted(caps: Caps, w: World, v: World)
    requires Counted(caps, w) && w.disks <= v.disks
    requires v.commits == w.commits && v.generation == w.generation && v.published == w.published
    ensures Counted(caps, v)
  {
  }

  lemma {:induction false} CallsKept(caps: Caps, w: World, a: Action)
    requires Locked(w) && Calls(w) && Fresh(w) && Enabled(caps, w, a)
    ensures Calls(Step(caps, w, a))
  {
    var v := Step(caps, w, a);
    forall t | 0 <= t < |v.threads| ensures CallOk(v, v.threads[t]) {
      assert CallOk(w, w.threads[t]);
    }
  }

  lemma {:induction false} FreshKept(caps: Caps, w: World, a: Action)
    requires Inv(caps, w) && Enabled(caps, w, a)
    ensures Fresh(Step(caps, w, a))
  {
    var v := Step(caps, w, a);
    forall t | 0 <= t < |v.threads| && v.threads[t].Entered() ensures FreshFor(v, v.threads[t].call) {
      if a.Enter? && a.t == t {
        FreshOnEntry(w, t);
      } else {
        assert w.threads[t].Entered() && w.threads[t].call == v.threads[t].call;
        FreshLater(caps, w, a, v.threads[t].call);
      }
    }
  }

  lemma {:induction false} FreshOnEntry(w: World, t: nat)
    requires Locked(w) && Calls(w) && |w.commits| == w.generation && t < |w.threads|
    requires !w.threads[t].InLock()
    ensures var e := Entry(w.generation, w.Version(), w.Running()); FreshFor(w.Goto(t, Waiting(e)), e)
  {
    forall s | 0 <= s < |w.threads| && w.threads[s].Scanning? ensures w.Running() == Some(w.threads[s].scanned) {
      assert w.threads[s].InLock();
    }
  }

  lemma {:induction false} FreshLater(caps: Caps, w: World, a: Action, e: Entry)
    requires Inv(caps, w) && Enabled(caps, w, a) && FreshFor(w, e)
    ensures FreshFor(Step(caps, w, a), e)
  {
    var v := Step(caps, w, a);
    forall g | 0 <= g < |v.commits| ensures NotOlder(e, g, v.commits[g].scanned) {
      if g < |w.commits| { assert NotOlder(e, g, w.commits[g].scanned); }
    }
    forall s | 0 <= s < |v.threads| && v.threads[s].Scanning? ensures NotOlder(e, v.generation, v.threads[s].scanned) {
      assert v.threads[s].InLock();
      if w.threads[s].Scanning? {
        assert w.threads[s].InLock();
        assert NotOlder(e, w.generation, w.threads[s].scanned);
      }
    }
  }

  lemma {:induction false} InvKept(caps: Caps, w: World, a: Action)
    requires Inv(caps, w) && Enabled(caps, w, a)
    ensures Inv(caps, Step(caps, w, a))
  {
    LockedKept(caps, w, a);
    CountedKept(caps, w, a);
    CallsKept(caps, w, a);
    FreshKept(caps, w, a);
  }

  function Start(threads: nat, files: Files): World {
    World(0, None, None, seq(threads, _ => Outside), [files], [])
  }

  ghost predicate Runnable(caps: Caps, w: World, actions: seq<Action>)
    requires w.Shaped()
    decreases |actions|
  {
    actions == [] ||
    (Enabled(caps, w, actions[0]) && Step(caps, w, actions[0]).Shaped()
     && Runnable(caps, Step(caps, w, actions[0]), actions[1..]))
  }

  ghost function Run(caps: Caps, w: World, actions: seq<Action>): World
    requires w.Shaped() && Runnable(caps, w, actions)
    decreases |actions|
  {
    if actions == [] then w else Run(caps, Step(caps, w, actions[0]), actions[1..])
  }

  lemma {:induction false} RunInv(caps: Caps, w: World, actions: seq<Action>)
    requires Inv(caps, w) && Runnable(caps, w, actions)
    ensures Inv(caps, Run(caps, w, actions))
    decreases |actions|
  {
    if actions != [] {
      InvKept(caps, w, actions[0]);
      RunInv(caps, Step(caps, w, actions[0]), actions[1..]);
    }
  }

  /** The call returned what a scan older than itself had found. */
  predicate SawOlder(w: World, pc: Pc)
    requires pc.Returned? && 0 < pc.seen <= |w.commits|
  {
    w.commits[pc.seen - 1].scanned < pc.call.version
  }

  /** The scan that was running when the call entered had started on an older version of the
      directory, and it is the one that committed on the generation the call observed. */
  predicate JoinedOlder(w: World, pc: Pc)
    requires pc.Returned? && pc.call.observed < |w.commits|
  {
    var e := pc.call;
    && pc.seen == e.observed + 1
    && e.running.Some? && e.running.value < e.version && w.commits[e.observed].scanned == e.running.value
  }

  /** A returned call saw a later generation than it observed, and older data exactly if it joined an
      older scan. */
  ghost predicate SawRightly(w: World, pc: Pc)
    requires pc.Returned?
  {
    pc.call.observed < pc.seen <= |w.commits| && (SawOlder(w, pc) <==> JoinedOlder(w, pc))
  }

  /** Single flight, over every interleaving: at most one thread is past the lock; the g-th commit was
      made by a call that observed generation g, so no generation is scanned into twice; what is
      published is the outcome of the last committed scan; a call that returned saw a later
      generation than it observed, and what it saw is older than the call if and only if it came
      from the scan already running, on an older version, when the call entered. */
  lemma {:induction false} SingleFlight(caps: Caps, n: nat, files: Files, actions: seq<Action>)
    requires Runnable(caps, Start(n, files), actions)
    ensures var w := Run(caps, Start(n, files), actions);
            && (forall s, t :: (0 <= s < t < |w.threads|) ==> !(w.threads[s].InLock() && w.threads[t].InLock()))
            && Counted(caps, w)
            && (forall t :: 0 <= t < |w.threads| && w.threads[t].Returned? ==> SawRightly(w, w.threads[t]))
  {
    var w := Run(caps, Start(n, files), actions);
    RunInv(caps, Start(n, files), actions);
    forall t: nat | t < |w.threads| && w.threads[t].Returned? ensures SawRightly(w, w.threads[t]) {
      ReturnedRightly(w, t);
    }
  }

  lemma {:induction false} ReturnedRightly(w: World, t: nat)
    requires |w.commits| == w.generation && Calls(w) && Fresh(w) && t < |w.threads| && w.threads[t].Returned?
    ensures SawRightly(w, w.threads[t])
  {
    var e, seen := w.threads[t].call, w.threads[t].seen;
    assert CallOk(w, w.threads[t]) && FreshFor(w, e);
    assert NotOlder(e, seen - 1, w.commits[seen - 1].scanned);
  }

  lemma {:induction false} RunCons(caps: Caps, w: World, a: Action, next: World, rest: seq<Action>, end: World)
    requires w.Shaped() && Enabled(caps, w, a)
    requires var v := Step(caps, w, a);
             && v.generation == next.generation && v.published == next.published && v.lock == next.lock
             && v.threads == next.threads && v.disks == next.disks && v.commits == next.commits
    requires Reaches(caps, next, rest, end)
    ensures Reaches(caps, w, [a] + rest, end)
  {
    assert Step(caps, w, a) == next;
    assert ([a] + rest)[1..] == rest;
  }

  ghost predicate Reaches(caps: Caps, w: World, actions: seq<Action>, end: World) {
    w.Shaped() && Runnable(caps, w, actions) && Run(caps, w, actions) == end
  }

  const FIRST := Entry(0, 0, None)
  const SECOND := Entry(0, 1, Some(0))

  function MidScan(disks: seq<Files>): World {
    World(0, None, Some(0), [Scanning(FIRST, 0), Outside], disks, [])
  }

  function BothReturned(disks: seq<Files>, embed: Embedder, p: Published): World {
    World(1, Some(p), None, [Returned(FIRST, 1), Returned(SECOND, 1)], disks, [Commit(0, 0, embed, p)])
  }

  lemma {:induction false} ScanBegins(caps: Caps, rest: seq<Action>, end: World)
    requires Reaches(caps, MidScan([[]]), rest, end)
    ensures Reaches(caps, Start(2, []), [Enter(0)] + ([Acquire(0)] + ([Compare(0)] + rest)), end)
  {
    var w1 := World(0, None, None, [Waiting(FIRST), Outside], [[]], []);
    var w2 := World(0, None, Some(0), [Holding(FIRST), Outside], [[]], []);
    assert Start(2, []).threads == [Outside, Outside];
    RunCons(caps, w2, Compare(0), MidScan([[]]), rest, end);
    RunCons(caps, w1, Acquire(0), w2, [Compare(0)] + rest, end);
    RunCons(caps, Start(2, []), Enter(0), w1, [Acquire(0)] + ([Compare(0)] + rest), end);
  }

  lemma {:induction false} SecondJoins(caps: Caps, embed: Embedder, files: Files, p: Published)
    requires Outcome(caps, embed, [], Ok(p))
    ensures Reaches(caps, MidScan([[], files]),
                    [Enter(1)] + ([Finish(0, embed, Ok(p))] + ([Acquire(1)] + [Compare(1)])), BothReturned([[], files], embed, p))
  {
    var disks, commits, end := [[], files], [Commit(0, 0, embed, p)], BothReturned([[], files], embed, p);
    var w5 := World(0, None, Some(0), [Scanning(FIRST, 0), Waiting(SECOND)], disks, []);
    var w6 := World(1, Some(p), None, [Returned(FIRST, 1), Waiting(SECOND)], disks, commits);
    var w7 := World(1, Some(p), Some(1), [Returned(FIRST, 1), Holding(SECOND)], disks, commits);
    RunCons(caps, w7, Compare(1), end, [], end);
    RunCons(caps, w6, Acquire(1), w7, [Compare(1)], end);
    RunCons(caps, w5, Finish(0, embed, Ok(p)), w6, [Acquire(1)] + [Compare(1)], end);
    RunCons(caps, MidScan(disks), Enter(1), w5, [Finish(0, embed, Ok(p))] + ([Acquire(1)] + [Compare(1)]), end);
  }

  /** The exception is real: a call that enters during a scan can return the documents of a
      directory that had already changed when it entered. Here the second call entered when the
      directory held `doc` and returned the scan of the empty directory. */
  lemma {:induction false} JoinedScanMayBeStale(caps: Caps, embed: Embedder, doc: Doc, p: Published)
    requires Outcome(caps, embed, [], Ok(p))
    ensures p.docs == []
    ensures exists run :: Reaches(caps, Start(2, []), run, BothReturned([[], [Some(doc)]], embed, p))
  {
    var files := [Some(doc)];
    var rest := [Enter(1)] + ([Finish(0, embed, Ok(p))] + ([Acquire(1)] + [Compare(1)]));
    SecondJoins(caps, embed, files, p);
    assert [[]] + [files] == [[], files];
    RunCons(caps, MidScan([[]]), Change(files), MidScan([[], files]), rest, BothReturned([[], files], embed, p));
    ScanBegins(caps, [Change(files)] + rest, BothReturned([[], files], embed, p));
  }
}
