/** Python's `str` order, `sorted`, and facts about lists without repetitions. */
module Ordering {

  /** Strict lexicographic order by code point: `a < b` on Python strings. */
  predicate StrLess(a: string, b: string) {
    b != [] && (a == [] || a[0] < b[0] || (a[0] == b[0] && StrLess(a[1..], b[1..])))
  }

  predicate StrLeq(a: string, b: string) {
    a == b || StrLess(a, b)
  }

  ghost predicate TotalOrder<T(!new)>(leq: (T, T) -> bool) {
    && (forall x, y :: leq(x, y) || leq(y, x))
    && (forall x, y :: leq(x, y) && leq(y, x) ==> x == y)
    && (forall x, y, z :: leq(x, y) && leq(y, z) ==> leq(x, z))
  }

  /** `a` is a proper beginning of `b`, or the first character in which they differ is smaller. */
  ghost predicate SmallerAt(a: string, b: string, k: nat) {
    k <= |a| && k < |b| && a[..k] == b[..k] && (k == |a| || a[k] < b[k])
  }

  lemma {:induction false} StrLessExact(a: string, b: string)
    ensures StrLess(a, b) <==> exists k: nat :: SmallerAt(a, b, k)
  {
    if a == [] || b == [] || a[0] != b[0] {
      if StrLess(a, b) { assert SmallerAt(a, b, 0); }
    } else {
      StrLessExact(a[1..], b[1..]);
      if k: nat :| SmallerAt(a[1..], b[1..], k) { TailSmaller(a, b, k); }
      if k: nat :| SmallerAt(a, b, k) { HeadSmaller(a, b, k); }
    }
  }

  lemma {:induction false} TailSmaller(a: string, b: string, k: nat)
    requires a != [] && b != [] && a[0] == b[0] && SmallerAt(a[1..], b[1..], k)
    ensures SmallerAt(a, b, k + 1)
  {
    assert a[..k + 1] == [a[0]] + a[1..][..k] && b[..k + 1] == [b[0]] + b[1..][..k];
  }

  lemma {:induction false} HeadSmaller(a: string, b: string, k: nat)
    requires a != [] && b != [] && a[0] == b[0] && SmallerAt(a, b, k)
    ensures k > 0 && SmallerAt(a[1..], b[1..], k - 1)
  {
    assert k > 0;
    assert a[1..][..k - 1] == a[..k][1..] && b[1..][..k - 1] == b[..k][1..];
  }

  lemma {:induction false} StrConnected(a: string, b: string)
    ensures StrLess(a, b) || a == b || StrLess(b, a)
  {
    if a != [] && b != [] && a[0] == b[0] {
      StrConnected(a[1..], b[1..]);
      assert a == [a[0]] + a[1..] && b == [b[0]] + b[1..];
    }
  }

  lemma {:induction false} StrIrreflexive(a: string)
    ensures !StrLess(a, a)
  {
    if a != [] { StrIrreflexive(a[1..]); }
  }

  lemma {:induction false} StrTransitive(a: string, b: string, c: string)
    requires StrLess(a, b) && StrLess(b, c)
    ensures StrLess(a, c)
  {
    if a != [] && a[0] == b[0] == c[0] { StrTransitive(a[1..], b[1..], c[1..]); }
  }

  lemma {:induction false} StrOrder()
    ensures TotalOrder(StrLeq)
    ensures forall a, b :: StrLess(a, b) <==> StrLeq(a, b) && a != b
  {
    forall a, b ensures StrLeq(a, b) || StrLeq(b, a) { StrConnected(a, b); }
    forall a, b, c | StrLeq(a, b) && StrLeq(b, c) ensures StrLeq(a, c) {
      if a != b && b != c { StrTransitive(a, b, c); }
    }
    forall a, b | StrLess(a, b) ensures a != b { StrIrreflexive(a); }
    forall a, b | StrLeq(a, b) && StrLeq(b, a) ensures a == b {
      if a != b { StrTransitive(a, b, a); }
    }
  }

  lemma {:induction false} Regroup<T>(a: seq<T>, b: seq<T>, c: seq<T>)
    ensures a + (b + c) == (a + b) + c
  {
  }

  ghost predicate Sorted<T>(leq: (T, T) -> bool, s: seq<T>) {
    forall i, j :: 0 <= i < j < |s| ==> leq(s[i], s[j])
  }

  ghost predicate Distinct<T>(s: seq<T>) {
    forall i, j :: 0 <= i < j < |s| ==> s[i] != s[j]
  }

  /** Strictly increasing ids: the key order of every dict the planner builds. */
  ghost predicate Increasing(s: seq<string>) {
    forall i, j :: 0 <= i < j < |s| ==> StrLess(s[i], s[j])
  }

  function Insert<T>(leq: (T, T) -> bool, x: T, s: seq<T>): seq<T> {
    if s == [] || leq(x, s[0]) then [x] + s else [s[0]] + Insert(leq, x, s[1..])
  }

  /** `sorted(s, key=...)` for a key order that is total on the elements. */
  function Sort<T>(leq: (T, T) -> bool, s: seq<T>): seq<T> {
    if s == [] then [] else Insert(leq, s[0], Sort(leq, s[1..]))
  }

  lemma {:induction false} InsertMembers<T>(leq: (T, T) -> bool, x: T, s: seq<T>)
    ensures multiset(Insert(leq, x, s)) == multiset(s) + multiset{x}
  {
    if s != [] && !leq(x, s[0]) {
      InsertMembers(leq, x, s[1..]);
      assert s == [s[0]] + s[1..];
    }
  }

  lemma {:induction false} PrependSorted<T>(leq: (T, T) -> bool, x: T, s: seq<T>)
    requires Sorted(leq, s) && forall y :: y in s ==> leq(x, y)
    ensures Sorted(leq, [x] + s)
  {
    var r := [x] + s;
    forall i, j | 0 <= i < j < |r| ensures leq(r[i], r[j]) {
      assert r[j] == s[j - 1];
      if i > 0 { assert r[i] == s[i - 1]; }
    }
  }

  lemma {:induction false} InsertSpec<T(!new)>(leq: (T, T) -> bool, x: T, s: seq<T>)
    requires TotalOrder(leq) && Sorted(leq, s)
    ensures multiset(Insert(leq, x, s)) == multiset(s) + multiset{x}
    ensures Sorted(leq, Insert(leq, x, s))
  {
    InsertMembers(leq, x, s);
    if s == [] {
    } else if leq(x, s[0]) {
      forall y | y in s ensures leq(x, y) {
        var i :| 0 <= i < |s| && s[i] == y;
        assert i == 0 || leq(s[0], s[i]);
      }
      PrependSorted(leq, x, s);
    } else {
      var rest := Insert(leq, x, s[1..]);
      InsertSpec(leq, x, s[1..]);
      forall y | y in rest ensures leq(s[0], y) {
        assert y in multiset(rest);
        assert y == x || y in s[1..];
      }
      PrependSorted(leq, s[0], rest);
    }
  }

  lemma {:induction false} SortSpec<T(!new)>(leq: (T, T) -> bool, s: seq<T>)
    requires TotalOrder(leq)
    ensures multiset(Sort(leq, s)) == multiset(s)
    ensures Sorted(leq, Sort(leq, s))
    ensures |Sort(leq, s)| == |s|
  {
    if s != [] {
      SortSpec(leq, s[1..]);
      InsertSpec(leq, s[0], Sort(leq, s[1..]));
      assert s == [s[0]] + s[1..];
    }
    assert |multiset(Sort(leq, s))| == |multiset(s)|;
  }

  lemma {:induction false} SortedHead<T(!new)>(leq: (T, T) -> bool, a: seq<T>, b: seq<T>)
    requires Sorted(leq, a) && multiset(a) == multiset(b) && a != [] && b != [] && leq(a[0], a[0])
    ensures leq(a[0], b[0])
  {
    assert b[0] in multiset(a);
    var j :| 0 <= j < |a| && a[j] == b[0];
  }

  lemma {:induction false} SameTails<T>(a: seq<T>, b: seq<T>)
    requires a != [] && b != [] && a[0] == b[0] && multiset(a) == multiset(b)
    ensures multiset(a[1..]) == multiset(b[1..])
  {
    assert a == [a[0]] + a[1..] && b == [b[0]] + b[1..];
    assert multiset(a[1..]) == multiset(a) - multiset{a[0]};
    assert multiset(b[1..]) == multiset(b) - multiset{b[0]};
  }

  /** Under a total order a collection has exactly one sorted arrangement. */
  lemma {:induction false} SortedUnique<T(!new)>(leq: (T, T) -> bool, a: seq<T>, b: seq<T>)
    requires TotalOrder(leq) && Sorted(leq, a) && Sorted(leq, b)
    requires multiset(a) == multiset(b)
    ensures a == b
  {
    assert |multiset(a)| == |multiset(b)|;
    if a != [] {
      SortedHead(leq, a, b);
      SortedHead(leq, b, a);
      SameTails(a, b);
      SortedUnique(leq, a[1..], b[1..]);
      assert a == [a[0]] + a[1..] && b == [b[0]] + b[1..];
    }
  }

  /** Removing one occurrence of the same element from two permutations leaves permutations. */
  lemma {:induction false} PermutationTail<T>(a: seq<T>, b: seq<T>, j: nat)
    requires multiset(a) == multiset(b) && a != [] && j < |b| && b[j] == a[0]
    ensures multiset(a[1..]) == multiset(b[..j] + b[j + 1..])
    ensures b == b[..j] + [b[j]] + b[j + 1..]
  {
    assert a == [a[0]] + a[1..];
    assert b == b[..j] + [b[j]] + b[j + 1..];
    assert multiset(a[1..]) == multiset(a) - multiset{a[0]};
    assert multiset(b[..j] + b[j + 1..]) == multiset(b) - multiset{b[j]};
  }

  /** Sorting distinct ids lists each of them once, in strictly increasing order. */
  lemma {:induction false} SortIds(ids: seq<string>)
    requires Distinct(ids)
    ensures Increasing(Sort(StrLeq, ids))
    ensures Distinct(Sort(StrLeq, ids))
    ensures |Sort(StrLeq, ids)| == |ids|
    ensures forall x :: x in Sort(StrLeq, ids) <==> x in ids
  {
    StrOrder();
    SortSpec(StrLeq, ids);
    var r := Sort(StrLeq, ids);
    assert forall x :: x in r <==> x in multiset(r);
    assert forall x :: x in ids <==> x in multiset(ids);
    DistinctByMultiset(ids, r);
  }

  lemma {:induction false} DistinctByMultiset<T>(a: seq<T>, b: seq<T>)
    requires Distinct(a) && multiset(a) == multiset(b)
    ensures Distinct(b)
  {
    forall x | x in a ensures multiset(a)[x] == 1 { DistinctCount(a, x); }
    forall i, j | 0 <= i < j < |b| ensures b[i] != b[j] {
      assert b == b[..j] + b[j..];
      assert b[i] in multiset(b[..j]) && b[j] in multiset(b[j..]);
      assert multiset(b) == multiset(b[..j]) + multiset(b[j..]);
      assert b[i] in multiset(a);
    }
  }

  lemma {:induction false} DistinctCount<T>(a: seq<T>, x: T)
    requires Distinct(a)
    ensures multiset(a)[x] == if x in a then 1 else 0
  {
    if a != [] {
      DistinctCount(a[1..], x);
      assert a == [a[0]] + a[1..];
    }
  }

  /** An already increasing key list is its own `sorted` result. */
  lemma {:induction false} SortIncreasing(ids: seq<string>)
    requires Increasing(ids)
    ensures Sort(StrLeq, ids) == ids
  {
    StrOrder();
    SortSpec(StrLeq, ids);
    SortedUnique(StrLeq, Sort(StrLeq, ids), ids);
  }

  lemma {:induction false} DistinctCons<T>(s: seq<T>)
    requires s != [] && s[0] !in s[1..] && Distinct(s[1..])
    ensures Distinct(s)
  {
    forall i, j | 0 <= i < j < |s| ensures s[i] != s[j] {
      assert s[j] == s[1..][j - 1];
      if i > 0 { assert s[i] == s[1..][i - 1]; }
    }
  }

  /** A sequence with as many members in its element set as positions repeats nothing. */
  lemma {:induction false} DistinctByCardinality<T>(s: seq<T>)
    ensures |set x | x in s| <= |s|
    ensures |set x | x in s| == |s| ==> Distinct(s)
  {
    if s != [] {
      DistinctByCardinality(s[1..]);
      var all, rest := set x | x in s, set x | x in s[1..];
      assert s == [s[0]] + s[1..];
      assert all == rest + {s[0]};
      if s[0] in rest { assert all == rest; }
      if |all| == |s| { DistinctCons(s); }
    }
  }

  lemma {:induction false} DistinctCardinality<T>(s: seq<T>)
    requires Distinct(s)
    ensures |set x | x in s| == |s|
  {
    if s != [] {
      DistinctCardinality(s[1..]);
      assert s == [s[0]] + s[1..];
      assert (set x | x in s) == (set x | x in s[1..]) + {s[0]};
      assert s[0] !in s[1..];
    }
  }

  /** A listing of a finite id set; which one does not matter, it is sorted next. */
  ghost predicate Lists(ids: set<string>, s: seq<string>) {
    Distinct(s) && forall x :: x in s <==> x in ids
  }

  method Enumerate(ids: set<string>) returns (s: seq<string>)
    ensures Lists(ids, s)
  {
    s := [];
    var left := ids;
    while left != {}
      invariant left <= ids && Lists(ids - left, s)
      decreases left
    {
      var x :| x in left;
      s := s + [x];
      left := left - {x};
    }
  }
}
