/** The theory of sched/plan.py's repair loop, over layer counts.

    Position `i` is the i-th node id in sorted order; `c[i]` is how many layers it
    holds, `caps[i]` how many its memory can hold, `speeds[i]` its measured speed. */
module Repair {
  import opened Numbers

  ghost predicate Counts(c: seq<int>, caps: seq<nat>) {
    |c| == |caps| && forall i :: 0 <= i < |c| ==> 0 <= c[i]
  }

  ghost predicate Within(c: seq<int>, caps: seq<nat>)
    requires |c| == |caps|
  {
    forall i :: 0 <= i < |c| ==> c[i] <= caps[i]
  }

  /** `overflowing[0]`: the first node holding more than its memory allows. */
  ghost predicate FirstOver(c: seq<int>, caps: seq<nat>, i: int)
    requires |c| == |caps|
  {
    0 <= i < |c| && c[i] > caps[i] && forall j :: 0 <= j < i ==> c[j] <= caps[j]
  }

  ghost predicate CanTake(c: seq<int>, caps: seq<nat>, from: int, j: int)
    requires |c| == |caps|
  {
    0 <= j < |c| && j != from && c[j] < caps[j]
  }

  /** The fastest node with room for one more layer, the largest id among equals. */
  ghost predicate FastestDonor(c: seq<int>, caps: seq<nat>, speeds: seq<real>, from: int, j: int)
    requires |c| == |caps| == |speeds|
  {
    && CanTake(c, caps, from, j)
    && forall k :: CanTake(c, caps, from, k) ==>
         speeds[k] < speeds[j] || (speeds[k] == speeds[j] && k <= j)
  }

  function Moved(c: seq<int>, i: int, j: int): seq<int>
    requires 0 <= i < |c| && 0 <= j < |c| && i != j
  {
    c[i := c[i] - 1][j := c[j] + 1]
  }

  ghost predicate MoveAt(c: seq<int>, d: seq<int>, caps: seq<nat>, speeds: seq<real>, i: int, j: int)
    requires |c| == |caps| == |speeds|
  {
    && FirstOver(c, caps, i) && c[i] > 1
    && FastestDonor(c, caps, speeds, i, j)
    && d == Moved(c, i, j)
  }

  /** One useful iteration of the loop. */
  ghost predicate Move(c: seq<int>, d: seq<int>, caps: seq<nat>, speeds: seq<real>) {
    |c| == |caps| == |speeds| && exists i, j :: MoveAt(c, d, caps, speeds, i, j)
  }

  /** The loop can do nothing more: the first overflowing node is down to one layer,
      or nobody has room. */
  ghost predicate Stuck(c: seq<int>, caps: seq<nat>)
    requires |c| == |caps|
  {
    exists i :: FirstOver(c, caps, i) && (c[i] <= 1 || forall j :: !CanTake(c, caps, i, j))
  }

  ghost predicate Final(c: seq<int>, caps: seq<nat>)
    requires |c| == |caps|
  {
    Within(c, caps) || Stuck(c, caps)
  }

  /** Layers that could still be peeled off overflowing nodes: a node keeps at least
      its capacity, and never gives up its last layer. */
  function Peels(c: seq<int>, caps: seq<nat>): seq<int>
    requires |c| == |caps|
  {
    seq(|c|, i requires 0 <= i < |c| => Max(0, c[i] - Max(caps[i], 1)))
  }

  /** Layers held by overflowing nodes. */
  function OverLayers(c: seq<int>, caps: seq<nat>): seq<int>
    requires |c| == |caps|
  {
    seq(|c|, i requires 0 <= i < |c| => if c[i] > caps[i] then c[i] else 0)
  }

  lemma {:induction false} MovedSum(c: seq<int>, i: int, j: int)
    requires 0 <= i < |c| && 0 <= j < |c| && i != j
    ensures Sum(Moved(c, i, j)) == Sum(c)
  {
    SumUpdate(c, i, c[i] - 1);
    SumUpdate(c[i := c[i] - 1], j, c[j] + 1);
  }

  lemma {:induction false} MovedPeels(c: seq<int>, caps: seq<nat>, i: int, j: int)
    requires |c| == |caps| && FirstOver(c, caps, i) && c[i] > 1 && CanTake(c, caps, i, j)
    ensures Sum(Peels(Moved(c, i, j), caps)) == Sum(Peels(c, caps)) - 1
  {
    var p := Peels(c, caps);
    assert Peels(Moved(c, i, j), caps) == p[i := p[i] - 1];
    SumUpdate(p, i, p[i] - 1);
  }

  lemma {:induction false} MovedOver(c: seq<int>, caps: seq<nat>, i: int, j: int)
    requires Counts(c, caps) && FirstOver(c, caps, i) && CanTake(c, caps, i, j)
    ensures Sum(OverLayers(Moved(c, i, j), caps)) < Sum(OverLayers(c, caps))
  {
    var before, after := OverLayers(c, caps), OverLayers(Moved(c, i, j), caps);
    assert after[i] < before[i];
    SumMonotone(after, before);
  }

  /** What every move keeps and what it strictly lowers. */
  lemma {:induction false} MoveProgress(c: seq<int>, d: seq<int>, caps: seq<nat>, speeds: seq<real>)
    requires Counts(c, caps) && Move(c, d, caps, speeds)
    ensures Counts(d, caps) && Sum(d) == Sum(c)
    ensures Sum(Peels(d, caps)) == Sum(Peels(c, caps)) - 1
    ensures Sum(OverLayers(d, caps)) < Sum(OverLayers(c, caps))
    ensures forall k :: 0 <= k < |c| && d[k] > caps[k] ==> c[k] > caps[k]
    ensures forall k :: 0 <= k < |c| && caps[k] == 0 ==> (d[k] == 0 <==> c[k] == 0)
  {
    var i, j :| MoveAt(c, d, caps, speeds, i, j);
    MovedSum(c, i, j);
    MovedPeels(c, caps, i, j);
    MovedOver(c, caps, i, j);
  }

  /** The choice of node and donor is forced. */
  lemma {:induction false} MoveDeterministic(c: seq<int>, d: seq<int>, e: seq<int>, caps: seq<nat>, speeds: seq<real>)
    requires Move(c, d, caps, speeds) && Move(c, e, caps, speeds)
    ensures d == e
  {
    var i, j :| MoveAt(c, d, caps, speeds, i, j);
    var k, l :| MoveAt(c, e, caps, speeds, k, l);
    assert i == k;
    assert CanTake(c, caps, i, j) && CanTake(c, caps, i, l);
  }

  /** A move is possible exactly when the loop is not finished. */
  lemma {:induction false} MoveUnlessFinal(c: seq<int>, caps: seq<nat>, speeds: seq<real>)
    requires |c| == |caps| == |speeds|
    ensures Final(c, caps) <==> !exists d :: Move(c, d, caps, speeds)
  {
    if d :| Move(c, d, caps, speeds) {
      var i, j :| MoveAt(c, d, caps, speeds, i, j);
      assert CanTake(c, caps, i, j);
      assert forall k :: FirstOver(c, caps, k) ==> k == i;
    }
    if !Final(c, caps) {
      var i := FindFirstOver(c, caps, 0);
      var k :| CanTake(c, caps, i, k);
      var j := FindFastest(c, caps, speeds, i, |c|);
      var d := Moved(c, i, j);
      assert MoveAt(c, d, caps, speeds, i, j);
      assert Move(c, d, caps, speeds);
    }
  }

  lemma {:induction false} FindFirstOver(c: seq<int>, caps: seq<nat>, from: nat) returns (i: int)
    requires |c| == |caps| && !Within(c, caps)
    requires from <= |c| && forall j :: 0 <= j < from ==> c[j] <= caps[j]
    ensures FirstOver(c, caps, i)
    decreases |c| - from
  {
    if c[from] > caps[from] { return from; }
    i := FindFirstOver(c, caps, from + 1);
  }

  lemma {:induction false} FindFastest(c: seq<int>, caps: seq<nat>, speeds: seq<real>, from: int, upto: nat) returns (j: int)
    requires |c| == |caps| == |speeds| && upto <= |c|
    requires exists k :: CanTake(c, caps, from, k) && k < upto
    ensures CanTake(c, caps, from, j) && j < upto
    ensures forall k :: CanTake(c, caps, from, k) && k < upto ==>
              speeds[k] < speeds[j] || (speeds[k] == speeds[j] && k <= j)
  {
    var last := upto - 1;
    if exists k :: CanTake(c, caps, from, k) && k < last {
      j := FindFastest(c, caps, speeds, from, last);
      if CanTake(c, caps, from, last) && speeds[j] <= speeds[last] { j := last; }
    } else {
      j :| CanTake(c, caps, from, j) && j < upto;
    }
  }

  /** The states the loop passes through, one entry per move made. */
  ghost predicate Trace(t: seq<seq<int>>, caps: seq<nat>, speeds: seq<real>) {
    && t != [] && |caps| == |speeds|
    && (forall k :: 0 <= k < |t| ==> |t[k]| == |caps|)
    && forall k :: 0 <= k < |t| - 1 ==> Move(t[k], t[k + 1], caps, speeds)
  }

  lemma {:induction false} TraceExtend(t: seq<seq<int>>, d: seq<int>, caps: seq<nat>, speeds: seq<real>, i: int, j: int)
    requires Trace(t, caps, speeds) && MoveAt(t[|t| - 1], d, caps, speeds, i, j)
    ensures Trace(t + [d], caps, speeds)
    ensures !Final(t[|t| - 1], caps)
  {
    var c := t[|t| - 1];
    assert CanTake(c, caps, i, j);
    assert forall k :: FirstOver(c, caps, k) ==> k == i;
    var u := t + [d];
    forall k | 0 <= k < |u| - 1 ensures Move(u[k], u[k + 1], caps, speeds) {
      if k == |t| - 1 { assert MoveAt(u[k], u[k + 1], caps, speeds, i, j); }
    }
  }

  /** What the whole run keeps, and how many moves it made. */
  lemma {:induction false} TraceKeeps(t: seq<seq<int>>, caps: seq<nat>, speeds: seq<real>)
    requires Trace(t, caps, speeds) && Counts(t[0], caps)
    ensures Counts(t[|t| - 1], caps) && Sum(t[|t| - 1]) == Sum(t[0])
    ensures Sum(Peels(t[|t| - 1], caps)) + |t| - 1 == Sum(Peels(t[0], caps))
    ensures forall k :: 0 <= k < |caps| && caps[k] == 0 ==> (t[|t| - 1][k] == 0 <==> t[0][k] == 0)
    ensures forall k :: 0 <= k < |caps| && t[|t| - 1][k] > caps[k] ==> t[0][k] > caps[k]
  {
    if |t| > 1 {
      MoveProgress(t[0], t[1], caps, speeds);
      TraceKeeps(t[1..], caps, speeds);
    }
  }

  /** One layer of every overflowing node always stays, so fewer than `L` can move. */
  lemma {:induction false} PeelsBound(c: seq<int>, caps: seq<nat>)
    requires Counts(c, caps)
    ensures 0 <= Sum(Peels(c, caps)) <= Sum(c)
    ensures Sum(c) > 0 ==> Sum(Peels(c, caps)) <= Sum(c) - 1
  {
    if c != [] {
      PeelsBound(c[1..], caps[1..]);
      assert Peels(c, caps)[1..] == Peels(c[1..], caps[1..]);
    }
  }

  /** At most L - 1 moves, so the loop's hard stop of L * n iterations is never reached
      while there is still something to do. */
  lemma {:induction false} MovesBounded(t: seq<seq<int>>, caps: seq<nat>, speeds: seq<real>)
    requires Trace(t, caps, speeds) && Counts(t[0], caps) && Sum(t[0]) > 0
    ensures |t| - 1 <= Sum(t[0]) - 1 < Sum(t[0]) * |caps|
  {
    TraceKeeps(t, caps, speeds);
    PeelsBound(t[0], caps);
    PeelsBound(t[|t| - 1], caps);
    AtLeastOnce(Sum(t[0]), |caps|);
  }

  lemma {:induction false} AtLeastOnce(a: int, n: int)
    requires 0 <= a && 1 <= n
    ensures a <= a * n
  {
  }

  /** Where the loop stops, the counts themselves say whether the model can fit. */
  lemma {:induction false} FinalDecides(c: seq<int>, caps: seq<nat>)
    requires Counts(c, caps) && Final(c, caps)
    ensures Within(c, caps) <==>
            Sum(c) <= Sum(caps) && forall i :: 0 <= i < |caps| && caps[i] == 0 ==> c[i] == 0
  {
    if Within(c, caps) {
      SumMonotone(c, caps);
    } else {
      var i :| FirstOver(c, caps, i) && (c[i] <= 1 || forall j :: !CanTake(c, caps, i, j));
      if c[i] > 1 {
        forall j | 0 <= j < |c| ensures caps[j] <= c[j] { assert !CanTake(c, caps, i, j); }
        SumMonotone(caps, c);
      }
    }
  }

  /** Exactness. A finished repair fits if and only if the pool can hold the model and
      the speed split put no layer on a node that cannot hold even one. */
  lemma {:induction false} RepairExact(t: seq<seq<int>>, caps: seq<nat>, speeds: seq<real>)
    requires Trace(t, caps, speeds) && Counts(t[0], caps) && Final(t[|t| - 1], caps)
    ensures Within(t[|t| - 1], caps) <==>
            Sum(t[0]) <= Sum(caps) && forall i :: 0 <= i < |caps| && caps[i] == 0 ==> t[0][i] == 0
  {
    TraceKeeps(t, caps, speeds);
    FinalDecides(t[|t| - 1], caps);
  }

  /** A fitting split of `total` layers exists exactly when the floor capacities add up to it. */
  lemma {:induction false} FittingSplitExists(caps: seq<nat>, total: nat)
    ensures total <= Sum(caps) <==> exists d :: Counts(d, caps) && Sum(d) == total && Within(d, caps)
  {
    if total <= Sum(caps) {
      FillSpec(caps, total);
    }
    if d :| Counts(d, caps) && Sum(d) == total && Within(d, caps) {
      SumMonotone(d, caps);
    }
  }

  function Fill(caps: seq<nat>, total: nat): seq<int> {
    if caps == [] then [] else
    var here := Min(caps[0], total);
    [here] + Fill(caps[1..], total - here)
  }

  lemma {:induction false} FillSpec(caps: seq<nat>, total: nat)
    requires total <= Sum(caps)
    ensures Counts(Fill(caps, total), caps) && Within(Fill(caps, total), caps)
    ensures Sum(Fill(caps, total)) == total
  {
    if caps != [] {
      var here := Min(caps[0], total);
      SumNonNegative(caps[1..]);
      FillSpec(caps[1..], total - here);
    }
  }
}
