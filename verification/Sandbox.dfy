/** node/sandbox.py `_OutputCollector`: two concurrent readers under one shared output cap. */
module Sandbox {
  import opened Numbers

  datatype Stream = Stdout | Stderr

  datatype Buffers = Buffers(out: seq<bv8>, err: seq<bv8>, truncated: bool)

  /** What the locked section does with one chunk read from stream `d`. */
  function Absorb(cap: nat, b: Buffers, d: Stream, chunk: seq<bv8>): Buffers {
    var remaining := Max(0, cap - (|b.out| + |b.err|));
    var kept := if remaining < |chunk| then chunk[..remaining] else chunk;
    Buffers(
      if d.Stdout? then b.out + kept else b.out,
      if d.Stderr? then b.err + kept else b.err,
      b.truncated || |chunk| > remaining)
  }

  /** One `read` by one of the two drains, in the order the lock was taken. */
  datatype Read = Read(from: Stream, chunk: seq<bv8>)

  function Collect(cap: nat, pieces: seq<Read>): Buffers {
    if pieces == [] then Buffers([], [], false)
    else
      var n := |pieces| - 1;
      Absorb(cap, Collect(cap, pieces[..n]), pieces[n].from, pieces[n].chunk)
  }

  class OutputCollector {
    const cap: nat
    var out: seq<bv8>
    var err: seq<bv8>
    var truncated: bool

    ghost function View(): Buffers
      reads this
    {
      Buffers(out, err, truncated)
    }

    constructor (cap: nat)
      ensures View() == Collect(cap, []) && this.cap == cap
    {
      this.cap := cap;
      out, err, truncated := [], [], false;
    }

    /** The body of `drain`'s loop, under the lock. */
    method Append(d: Stream, chunk: seq<bv8>)
      modifies this
      ensures View() == Absorb(cap, old(View()), d, chunk)
    {
      var retained := |out| + |err|;
      var remaining := Max(0, cap - retained);
      var kept := if remaining < |chunk| then chunk[..remaining] else chunk;
      if d.Stdout? {
        out := out + kept;
      } else {
        err := err + kept;
      }
      if |chunk| > remaining {
        truncated := true;
      }
    }

    /** The two drains running concurrently: `turns` is the order in which they take the lock, each
        turn appending the next chunk its drain has read. */
    method DrainBoth(outs: seq<seq<bv8>>, errs: seq<seq<bv8>>, turns: seq<Stream>)
      requires View() == Collect(cap, []) && Playable(outs, errs, turns)
      modifies this
      ensures View() == Collect(cap, Schedule(outs, errs, turns))
    {
      var o, e := 0, 0;
      for i := 0 to |turns|
        invariant Playable(outs, errs, turns[..i])
        invariant o == Turns(turns[..i], Stdout) && e == Turns(turns[..i], Stderr)
        invariant View() == Collect(cap, Schedule(outs, errs, turns[..i]))
      {
        PlayableNext(outs, errs, turns, i);
        ghost var sofar := Schedule(outs, errs, turns[..i]);
        if turns[i].Stdout? {
          Append(Stdout, outs[o]);
          CollectNext(cap, sofar, Read(Stdout, outs[o]));
          o := o + 1;
        } else {
          Append(Stderr, errs[e]);
          CollectNext(cap, sofar, Read(Stderr, errs[e]));
          e := e + 1;
        }
      }
      assert turns[..|turns|] == turns;
    }
  }

  /** How often stream `d` has had the lock. */
  function Turns(turns: seq<Stream>, d: Stream): nat {
    if turns == [] then 0
    else Turns(turns[..|turns| - 1], d) + if turns[|turns| - 1] == d then 1 else 0
  }

  /** No drain takes more turns than it has chunks. */
  predicate Playable(outs: seq<seq<bv8>>, errs: seq<seq<bv8>>, turns: seq<Stream>) {
    Turns(turns, Stdout) <= |outs| && Turns(turns, Stderr) <= |errs|
  }

  function Schedule(outs: seq<seq<bv8>>, errs: seq<seq<bv8>>, turns: seq<Stream>): seq<Read>
    requires Playable(outs, errs, turns)
  {
    if turns == [] then []
    else
      var n := |turns| - 1;
      var d := turns[n];
      Schedule(outs, errs, turns[..n]) + [Read(d, (if d.Stdout? then outs else errs)[Turns(turns[..n], d)])]
  }

  lemma {:induction false} TurnsGrow(turns: seq<Stream>, i: nat, d: Stream)
    requires i <= |turns|
    ensures Turns(turns[..i], d) <= Turns(turns, d)
  {
    if i == |turns| {
      assert turns[..i] == turns;
    } else {
      assert turns[..|turns| - 1][..i] == turns[..i];
      TurnsGrow(turns[..|turns| - 1], i, d);
    }
  }

  lemma {:induction false} PlayableNext(outs: seq<seq<bv8>>, errs: seq<seq<bv8>>, turns: seq<Stream>, i: nat)
    requires Playable(outs, errs, turns) && i < |turns|
    ensures Playable(outs, errs, turns[..i]) && Playable(outs, errs, turns[..i + 1])
    ensures var d := turns[i];
            var k := Turns(turns[..i], d);
            && (forall s :: Turns(turns[..i + 1], s) == Turns(turns[..i], s) + if s == d then 1 else 0)
            && k < |if d.Stdout? then outs else errs|
            && Schedule(outs, errs, turns[..i + 1])
               == Schedule(outs, errs, turns[..i]) + [Read(d, (if d.Stdout? then outs else errs)[k])]
  {
    assert turns[..i + 1][..i] == turns[..i];
    TurnsGrow(turns, i + 1, Stdout);
    TurnsGrow(turns, i + 1, Stderr);
  }

  lemma {:induction false} CollectNext(cap: nat, pieces: seq<Read>, r: Read)
    ensures Collect(cap, pieces + [r]) == Absorb(cap, Collect(cap, pieces), r.from, r.chunk)
  {
    assert (pieces + [r])[..|pieces|] == pieces;
  }

  /** A byte together with the stream it came from. */
  datatype Byte = Byte(from: Stream, value: bv8)

  function Tag(d: Stream, chunk: seq<bv8>): seq<Byte> {
    seq(|chunk|, i requires 0 <= i < |chunk| => Byte(d, chunk[i]))
  }

  /** Everything read so far, byte by byte, in the order the lock was taken. */
  function Interleaved(pieces: seq<Read>): seq<Byte> {
    if pieces == [] then []
    else
      var n := |pieces| - 1;
      Interleaved(pieces[..n]) + Tag(pieces[n].from, pieces[n].chunk)
  }

  /** The bytes of one stream. */
  function Only(d: Stream, bytes: seq<Byte>): seq<bv8> {
    if bytes == [] then []
    else
      var n := |bytes| - 1;
      Only(d, bytes[..n]) + (if bytes[n].from == d then [bytes[n].value] else [])
  }

  lemma {:induction false} OnlyConcat(d: Stream, a: seq<Byte>, b: seq<Byte>)
    ensures Only(d, a + b) == Only(d, a) + Only(d, b)
  {
    if b == [] {
      assert a + b == a;
    } else {
      var n := |b| - 1;
      assert (a + b)[..|a| + n] == a + b[..n];
      OnlyConcat(d, a, b[..n]);
    }
  }

  lemma {:induction false} OnlyTag(d: Stream, from: Stream, chunk: seq<bv8>)
    ensures Only(d, Tag(from, chunk)) == if d == from then chunk else []
  {
    if chunk != [] {
      var n := |chunk| - 1;
      assert Tag(from, chunk)[..n] == Tag(from, chunk[..n]);
      OnlyTag(d, from, chunk[..n]);
      assert chunk == chunk[..n] + [chunk[n]];
    }
  }

  lemma {:induction false} OnlyLengths(bytes: seq<Byte>)
    ensures |Only(Stdout, bytes)| + |Only(Stderr, bytes)| == |bytes|
  {
    if bytes != [] { OnlyLengths(bytes[..|bytes| - 1]); }
  }

  function Kept(cap: nat, bytes: seq<Byte>): seq<Byte> {
    if cap <= |bytes| then bytes[..cap] else bytes
  }

  function Fitting(room: nat, chunk: seq<bv8>): seq<bv8> {
    if room < |chunk| then chunk[..room] else chunk
  }

  lemma {:induction false} KeptAppend(cap: nat, all: seq<Byte>, from: Stream, chunk: seq<bv8>)
    ensures Kept(cap, all + Tag(from, chunk))
         == Kept(cap, all) + Tag(from, Fitting(Max(0, cap - |Kept(cap, all)|), chunk))
  {
  }

  lemma {:induction false} OnlyAppend(d: Stream, bytes: seq<Byte>, from: Stream, chunk: seq<bv8>)
    ensures Only(d, bytes + Tag(from, chunk)) == Only(d, bytes) + (if d == from then chunk else [])
  {
    OnlyConcat(d, bytes, Tag(from, chunk));
    OnlyTag(d, from, chunk);
  }

  /** The retained bytes are the first `cap` bytes of `all`, and `truncated` says whether more came. */
  predicate FirstBytes(cap: nat, b: Buffers, all: seq<Byte>) {
    && b.out == Only(Stdout, Kept(cap, all)) && b.err == Only(Stderr, Kept(cap, all))
    && (b.truncated <==> |all| > cap)
  }

  lemma {:induction false} AbsorbKeeps(cap: nat, b: Buffers, all: seq<Byte>, r: Read)
    requires FirstBytes(cap, b, all)
    ensures FirstBytes(cap, Absorb(cap, b, r.from, r.chunk), all + Tag(r.from, r.chunk))
  {
    var kept := Kept(cap, all);
    OnlyLengths(kept);
    KeptAppend(cap, all, r.from, r.chunk);
    var fit := Fitting(Max(0, cap - |kept|), r.chunk);
    OnlyAppend(Stdout, kept, r.from, fit);
    OnlyAppend(Stderr, kept, r.from, fit);
    var after := Absorb(cap, b, r.from, r.chunk);
    assert after.out == b.out + (if Stdout == r.from then fit else []);
    assert after.err == b.err + (if Stderr == r.from then fit else []);
  }

  /** For every interleaving of the two drains, what is retained is exactly the first `cap` bytes in
      lock order, sorted into the two buffers, and `truncated` says whether more were read. */
  lemma {:induction false} CollectorKeepsFirstBytes(cap: nat, pieces: seq<Read>)
    ensures FirstBytes(cap, Collect(cap, pieces), Interleaved(pieces))
  {
    if pieces != [] {
      var n := |pieces| - 1;
      CollectorKeepsFirstBytes(cap, pieces[..n]);
      AbsorbKeeps(cap, Collect(cap, pieces[..n]), Interleaved(pieces[..n]), pieces[n]);
    }
  }

  /** Hence the retained total is min(cap, bytes read) and each buffer is a prefix of its stream. */
  lemma {:induction false} CollectorBounds(cap: nat, pieces: seq<Read>)
    ensures var b, all := Collect(cap, pieces), Interleaved(pieces);
            && |b.out| + |b.err| == Min(cap, |all|)
            && b.out <= Only(Stdout, all) && b.err <= Only(Stderr, all)
  {
    var all := Interleaved(pieces);
    var kept := Kept(cap, all);
    CollectorKeepsFirstBytes(cap, pieces);
    OnlyLengths(kept);
    var rest := all[|kept|..];
    assert all == kept + rest;
    OnlyConcat(Stdout, kept, rest);
    OnlyConcat(Stderr, kept, rest);
  }

  /** Everything on one stream. */
  function Joined(chunks: seq<seq<bv8>>): seq<bv8> {
    if chunks == [] then [] else Joined(chunks[..|chunks| - 1]) + chunks[|chunks| - 1]
  }

  lemma {:induction false} JoinedNext(chunks: seq<seq<bv8>>, k: nat)
    requires k < |chunks|
    ensures Joined(chunks[..k + 1]) == Joined(chunks[..k]) + chunks[k]
  {
    assert chunks[..k + 1][..k] == chunks[..k];
  }

  lemma {:induction false} InterleavedNext(pieces: seq<Read>, r: Read, d: Stream)
    ensures Only(d, Interleaved(pieces + [r])) == Only(d, Interleaved(pieces)) + (if d == r.from then r.chunk else [])
  {
    assert (pieces + [r])[..|pieces|] == pieces;
    OnlyAppend(d, Interleaved(pieces), r.from, r.chunk);
  }

  function Chunks(outs: seq<seq<bv8>>, errs: seq<seq<bv8>>, d: Stream): seq<seq<bv8>> {
    if d.Stdout? then outs else errs
  }

  lemma {:induction false} ReadsStep(pieces: seq<Read>, r: Read, d: Stream, mine: seq<seq<bv8>>, k: nat)
    requires k <= |mine| && Only(d, Interleaved(pieces)) == Joined(mine[..k])
    requires r.from == d ==> k < |mine| && r.chunk == mine[k]
    ensures Only(d, Interleaved(pieces + [r])) == Joined(mine[..if r.from == d then k + 1 else k])
  {
    InterleavedNext(pieces, r, d);
    if r.from == d { JoinedNext(mine, k); }
  }

  /** After `pieces`, stream `d` has had `k` turns and its first `k` chunks were read. */
  ghost predicate ReadSoFar(pieces: seq<Read>, d: Stream, mine: seq<seq<bv8>>, k: nat) {
    k <= |mine| && Only(d, Interleaved(pieces)) == Joined(mine[..k])
  }

  lemma {:induction false} ReadsUpTo(outs: seq<seq<bv8>>, errs: seq<seq<bv8>>, turns: seq<Stream>, d: Stream, i: nat)
    requires Playable(outs, errs, turns) && i <= |turns|
    ensures Playable(outs, errs, turns[..i])
    ensures ReadSoFar(Schedule(outs, errs, turns[..i]), d, Chunks(outs, errs, d), Turns(turns[..i], d))
  {
    if i == 0 {
      assert turns[..0] == [] && Chunks(outs, errs, d)[..0] == [];
    } else {
      ReadsUpTo(outs, errs, turns, d, i - 1);
      NextRead(outs, errs, turns, d, i - 1);
    }
  }

  lemma {:induction false} NextRead(outs: seq<seq<bv8>>, errs: seq<seq<bv8>>, turns: seq<Stream>, d: Stream, i: nat)
    requires Playable(outs, errs, turns) && i < |turns| && Playable(outs, errs, turns[..i])
    requires ReadSoFar(Schedule(outs, errs, turns[..i]), d, Chunks(outs, errs, d), Turns(turns[..i], d))
    ensures Playable(outs, errs, turns[..i + 1])
    ensures ReadSoFar(Schedule(outs, errs, turns[..i + 1]), d, Chunks(outs, errs, d), Turns(turns[..i + 1], d))
  {
    var e, before := turns[i], Schedule(outs, errs, turns[..i]);
    PlayableNext(outs, errs, turns, i);
    var r := Read(e, Chunks(outs, errs, e)[Turns(turns[..i], e)]);
    assert Schedule(outs, errs, turns[..i + 1]) == before + [r];
    ReadsStep(before, r, d, Chunks(outs, errs, d), Turns(turns[..i], d));
  }

  /** A schedule reads each stream's chunks in order. */
  lemma {:induction false} ScheduleReads(outs: seq<seq<bv8>>, errs: seq<seq<bv8>>, turns: seq<Stream>, d: Stream)
    requires Playable(outs, errs, turns)
    ensures Only(d, Interleaved(Schedule(outs, errs, turns))) == Joined(Chunks(outs, errs, d)[..Turns(turns, d)])
  {
    assert turns[..|turns|] == turns;
    ReadsUpTo(outs, errs, turns, d, |turns|);
  }

  /** Once both drains have reached the end of their streams, in whatever order they took the lock:
      each buffer is a prefix of its whole stream, together they hold min(cap, total) bytes, and
      `truncated` holds exactly when the streams were longer than that. */
  lemma {:induction false} DrainedExactly(cap: nat, outs: seq<seq<bv8>>, errs: seq<seq<bv8>>, turns: seq<Stream>)
    requires Turns(turns, Stdout) == |outs| && Turns(turns, Stderr) == |errs|
    ensures var b, total := Collect(cap, Schedule(outs, errs, turns)), |Joined(outs)| + |Joined(errs)|;
            && b.out <= Joined(outs) && b.err <= Joined(errs)
            && |b.out| + |b.err| == Min(cap, total)
            && (b.truncated <==> total > cap)
  {
    var pieces := Schedule(outs, errs, turns);
    ScheduleReads(outs, errs, turns, Stdout);
    ScheduleReads(outs, errs, turns, Stderr);
    assert outs[..|outs|] == outs && errs[..|errs|] == errs;
    OnlyLengths(Interleaved(pieces));
    CollectorKeepsFirstBytes(cap, pieces);
    CollectorBounds(cap, pieces);
  }
}
