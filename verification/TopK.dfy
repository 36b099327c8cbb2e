/** Cutting ranked lists early loses nothing: the first `k` of a union only depend on the first
    `k` of each part. */
module TopK {
  import opened Ordering

  function Top<T>(leq: (T, T) -> bool, s: seq<T>, k: nat): seq<T> {
    var r := Sort(leq, s);
    if k <= |r| then r[..k] else r
  }

  lemma {:induction false} CutLeavesLater<T(!new)>(leq: (T, T) -> bool, all: seq<T>, k: nat, i: nat, y: T)
    requires Sorted(leq, all) && i < k <= |all| && y in all[k..]
    ensures leq(all[i], y)
  {
    var j :| 0 <= j < |all[k..]| && all[k..][j] == y;
    assert leq(all[i], all[k + j]);
  }

  lemma {:induction false} LeftOut<T>(s: seq<T>, all: seq<T>, k: nat)
    requires multiset(all) == multiset(s) && k <= |all|
    ensures multiset(all[..k]) <= multiset(s) && multiset(s) - multiset(all[..k]) == multiset(all[k..])
  {
    assert all == all[..k] + all[k..];
  }

  /** The first `k`: that many, in order, and nothing left out ranks before any of them. */
  lemma {:induction false} TopSpec<T(!new)>(leq: (T, T) -> bool, s: seq<T>, k: nat)
    requires TotalOrder(leq)
    ensures var r := Top(leq, s, k);
            && |r| == (if k <= |s| then k else |s|) && multiset(r) <= multiset(s) && Sorted(leq, r)
            && forall i, y :: 0 <= i < |r| && y in multiset(s) - multiset(r) ==> leq(r[i], y)
  {
    var all, r := Sort(leq, s), Top(leq, s, k);
    SortSpec(leq, s);
    if k <= |all| {
      LeftOut(s, all, k);
      forall i, y | 0 <= i < |r| && y in multiset(s) - multiset(r) ensures leq(r[i], y) {
        assert y in all[k..];
        CutLeavesLater(leq, all, k, i, y);
      }
    }
  }

  /** `sorted` forgets the order its input came in. */
  lemma {:induction false} SortOfPermutation<T(!new)>(leq: (T, T) -> bool, a: seq<T>, b: seq<T>)
    requires TotalOrder(leq) && multiset(a) == multiset(b)
    ensures Sort(leq, a) == Sort(leq, b)
  {
    SortSpec(leq, a);
    SortSpec(leq, b);
    SortedUnique(leq, Sort(leq, a), Sort(leq, b));
  }

  /** If `k` members of a sorted list are at or before `x`, so is its k-th entry. */
  lemma {:induction false} KthBefore<T(!new)>(leq: (T, T) -> bool, s: seq<T>, high: multiset<T>, x: T)
    requires TotalOrder(leq) && Sorted(leq, s) && high <= multiset(s) && |high| > 0
    requires forall h :: h in high ==> leq(h, x)
    ensures |high| <= |s| && leq(s[|high| - 1], x)
    decreases |s|
  {
    var rest := WithoutHead(s, high);
    if s[0] in high {
      if |rest| > 0 { KthBefore(leq, s[1..], rest, x); }
    } else {
      KthBefore(leq, s[1..], high, x);
    }
  }

  lemma {:induction false} WithoutHead<T>(s: seq<T>, high: multiset<T>) returns (rest: multiset<T>)
    requires high <= multiset(s) && |high| > 0
    ensures |high| <= |s|
    ensures rest <= multiset(s[1..]) && forall h :: h in rest ==> h in high
    ensures if s[0] in high then |rest| == |high| - 1 else rest == high
  {
    SubsetSize(high, multiset(s));
    assert s == [s[0]] + s[1..];
    rest := high - multiset{s[0]};
    if s[0] in high { assert high == rest + multiset{s[0]}; } else { assert rest == high; }
  }

  lemma {:induction false} SubsetSize<T>(a: multiset<T>, b: multiset<T>)
    requires a <= b
    ensures |a| <= |b|
  {
    assert b == a + (b - a);
  }

  /** Inserting at or after position `k` leaves the first `k` entries alone. */
  lemma {:induction false} InsertBeyond<T(!new)>(leq: (T, T) -> bool, x: T, s: seq<T>, k: nat)
    requires TotalOrder(leq) && Sorted(leq, s) && k <= |s| && (k > 0 ==> leq(s[k - 1], x))
    ensures |Insert(leq, x, s)| == |s| + 1
    ensures Insert(leq, x, s)[..k] == s[..k]
  {
    InsertLength(leq, x, s);
    if k > 0 {
      if leq(x, s[0]) {
        InsertFront(leq, x, s, k);
      } else {
        InsertBeyond(leq, x, s[1..], k - 1);
        assert Insert(leq, x, s)[..k] == [s[0]] + Insert(leq, x, s[1..])[..k - 1];
        assert s[..k] == [s[0]] + s[1..][..k - 1];
      }
    }
  }

  lemma {:induction false} InsertLength<T>(leq: (T, T) -> bool, x: T, s: seq<T>)
    ensures |Insert(leq, x, s)| == |s| + 1
  {
    if s != [] && !leq(x, s[0]) { InsertLength(leq, x, s[1..]); }
  }

  /** If `x` goes to the front of a list whose first `k` are at or before it, those equal `x`. */
  lemma {:induction false} InsertFront<T(!new)>(leq: (T, T) -> bool, x: T, s: seq<T>, k: nat)
    requires TotalOrder(leq) && Sorted(leq, s) && 0 < k <= |s| && leq(s[k - 1], x) && leq(x, s[0])
    ensures Insert(leq, x, s)[..k] == s[..k]
  {
    forall j | 0 <= j < k ensures s[j] == x {
      assert j == 0 || leq(s[0], s[j]);
      assert j == k - 1 || leq(s[j], s[k - 1]);
    }
    assert Insert(leq, x, s) == [x] + s;
  }

  /** Elements that rank after `|high|` members of `c` do not reach its first `|high|` entries. */
  lemma {:induction false} DropLow<T(!new)>(leq: (T, T) -> bool, low: seq<T>, c: seq<T>, high: seq<T>)
    requires TotalOrder(leq) && multiset(high) <= multiset(c)
    requires forall h, l :: h in high && l in low ==> leq(h, l)
    ensures Top(leq, low + c, |high|) == Top(leq, c, |high|)
  {
    if low == [] {
      assert low + c == c;
    } else {
      var rest := low[1..] + c;
      assert low + c == [low[0]] + rest && (low + c)[1..] == rest;
      DropLow(leq, low[1..], c, high);
      SortSpec(leq, c);
      SubsetSize(multiset(high), multiset(c));
      assert multiset(high) <= multiset(rest);
      InsertLow(leq, low[0], rest, high);
    }
  }

  lemma {:induction false} InsertLow<T(!new)>(leq: (T, T) -> bool, x: T, rest: seq<T>, high: seq<T>)
    requires TotalOrder(leq) && multiset(high) <= multiset(rest)
    requires forall h :: h in high ==> leq(h, x)
    ensures Top(leq, [x] + rest, |high|) == Top(leq, rest, |high|)
  {
    SortSpec(leq, rest);
    InsertLowSorted(leq, x, Sort(leq, rest), multiset(high));
    assert ([x] + rest)[1..] == rest;
  }

  lemma {:induction false} InsertLowSorted<T(!new)>(leq: (T, T) -> bool, x: T, s: seq<T>, high: multiset<T>)
    requires TotalOrder(leq) && Sorted(leq, s) && high <= multiset(s)
    requires forall h :: h in high ==> leq(h, x)
    ensures |high| <= |s| && |Insert(leq, x, s)| == |s| + 1
    ensures Insert(leq, x, s)[..|high|] == s[..|high|]
  {
    if |high| > 0 { KthBefore(leq, s, high, x); }
    InsertBeyond(leq, x, s, |high|);
  }

  /** One part may be cut to its own first `k` before the union is ranked. */
  lemma {:induction false} TopAbsorb<T(!new)>(leq: (T, T) -> bool, a: seq<T>, b: seq<T>, k: nat)
    requires TotalOrder(leq)
    ensures Top(leq, a + b, k) == Top(leq, Top(leq, a, k) + b, k)
  {
    var r := Sort(leq, a);
    SortSpec(leq, a);
    SortOfPermutation(leq, a + b, r + b);
    if k < |r| {
      CutSorted(leq, r, b, k);
    } else {
      assert Top(leq, a, k) == r;
    }
  }

  lemma {:induction false} CutSorted<T(!new)>(leq: (T, T) -> bool, r: seq<T>, b: seq<T>, k: nat)
    requires TotalOrder(leq) && Sorted(leq, r) && k < |r|
    ensures Top(leq, r + b, k) == Top(leq, r[..k] + b, k)
  {
    var high, low := r[..k], r[k..];
    assert r == high + low;
    assert multiset(low + (high + b)) == multiset(r + b);
    SortOfPermutation(leq, r + b, low + (high + b));
    assert multiset(high) <= multiset(high + b);
    DropLow(leq, low, high + b, high);
  }

  function Flatten<T>(parts: seq<seq<T>>): seq<T> {
    if parts == [] then [] else parts[0] + Flatten(parts[1..])
  }

  function Tops<T>(leq: (T, T) -> bool, parts: seq<seq<T>>, k: nat): seq<seq<T>> {
    seq(|parts|, i requires 0 <= i < |parts| => Top(leq, parts[i], k))
  }

  lemma {:induction false} TopSwap<T(!new)>(leq: (T, T) -> bool, a: seq<T>, b: seq<T>, k: nat)
    requires TotalOrder(leq)
    ensures Top(leq, a + b, k) == Top(leq, b + a, k)
  {
    SortOfPermutation(leq, a + b, b + a);
  }

  /** A union's first `k` depend on one part only through that part's first `k`. */
  lemma {:induction false} TopAgree<T(!new)>(leq: (T, T) -> bool, a: seq<T>, b: seq<T>, c: seq<T>, k: nat)
    requires TotalOrder(leq) && Top(leq, a, k) == Top(leq, b, k)
    ensures Top(leq, a + c, k) == Top(leq, b + c, k)
  {
    TopAbsorb(leq, a, c, k);
    TopAbsorb(leq, b, c, k);
  }

  /** The first `k` of the union of the parts' first `k` are the first `k` of the whole union. */
  lemma {:induction false} TopOfTops<T(!new)>(leq: (T, T) -> bool, parts: seq<seq<T>>, k: nat)
    requires TotalOrder(leq)
    ensures Top(leq, Flatten(Tops(leq, parts, k)), k) == Top(leq, Flatten(parts), k)
  {
    if parts != [] {
      var p, rest := parts[0], parts[1..];
      var q, cut, all := Top(leq, p, k), Flatten(Tops(leq, rest, k)), Flatten(rest);
      TopOfTops(leq, rest, k);
      assert Tops(leq, parts, k)[1..] == Tops(leq, rest, k);
      TopAbsorb(leq, p, all, k);
      TopSwap(leq, q, all, k);
      TopAgree(leq, all, cut, q, k);
      TopSwap(leq, cut, q, k);
    }
  }

  /** The members of `s` that rank at or before `x`. */
  function AtOrBefore<T>(leq: (T, T) -> bool, s: seq<T>, x: T): seq<T> {
    if s == [] then []
    else (if leq(s[0], x) then [s[0]] else []) + AtOrBefore(leq, s[1..], x)
  }

  lemma {:induction false} AtOrBeforeCount<T>(leq: (T, T) -> bool, s: seq<T>, x: T, y: T)
    ensures multiset(AtOrBefore(leq, s, x))[y] == if leq(y, x) then multiset(s)[y] else 0
  {
    if s != [] {
      AtOrBeforeCount(leq, s[1..], x, y);
      assert s == [s[0]] + s[1..];
    }
  }

  lemma {:induction false} AtOrBeforeLargest<T>(leq: (T, T) -> bool, s: seq<T>, x: T, m: multiset<T>)
    requires m <= multiset(s) && forall y :: y in m ==> leq(y, x)
    ensures |m| <= |AtOrBefore(leq, s, x)|
  {
    forall y ensures m[y] <= multiset(AtOrBefore(leq, s, x))[y] { AtOrBeforeCount(leq, s, x, y); }
    SubsetSize(m, multiset(AtOrBefore(leq, s, x)));
  }

  lemma {:induction false} AtOrBeforePart<T>(leq: (T, T) -> bool, s: seq<T>, x: T)
    ensures multiset(AtOrBefore(leq, s, x)) <= multiset(s)
    ensures forall y :: y in multiset(AtOrBefore(leq, s, x)) ==> leq(y, x)
  {
    if s != [] {
      AtOrBeforePart(leq, s[1..], x);
      assert s == [s[0]] + s[1..];
    }
  }

  lemma {:induction false} KthOfMany<T(!new)>(leq: (T, T) -> bool, r: seq<T>, m: multiset<T>, x: T, k: nat)
    requires TotalOrder(leq) && Sorted(leq, r) && m <= multiset(r) && |m| >= k > 0
    requires forall h :: h in m ==> leq(h, x)
    ensures k <= |r| && leq(r[k - 1], x)
  {
    KthBefore(leq, r, m, x);
    assert k == |m| || leq(r[k - 1], r[|m| - 1]);
  }

  lemma {:induction false} EnoughBefore<T(!new)>(leq: (T, T) -> bool, a: seq<T>, x: T, k: nat)
    requires TotalOrder(leq) && |AtOrBefore(leq, a, x)| >= k > 0
    ensures k <= |Sort(leq, a)| && leq(Sort(leq, a)[k - 1], x)
  {
    SortSpec(leq, a);
    AtOrBeforePart(leq, a, x);
    KthOfMany(leq, Sort(leq, a), multiset(AtOrBefore(leq, a, x)), x, k);
  }

  lemma {:induction false} SortedFront<T(!new)>(leq: (T, T) -> bool, r: seq<T>, k: nat, x: T)
    requires TotalOrder(leq) && Sorted(leq, r) && 0 < k <= |r| && leq(r[k - 1], x)
    ensures forall h :: h in r[..k] ==> leq(h, x)
  {
    forall h | h in r[..k] ensures leq(h, x) {
      var j :| 0 <= j < k && r[j] == h;
      assert j == k - 1 || leq(r[j], r[k - 1]);
    }
  }

  /** Past the members at or before `x`, a sorted list is strictly after it. */
  lemma {:induction false} NoneBefore<T(!new)>(leq: (T, T) -> bool, a: seq<T>, x: T)
    requires TotalOrder(leq)
    ensures var q, r := |AtOrBefore(leq, a, x)|, Sort(leq, a); q < |r| ==> !leq(r[q], x)
  {
    var q, r := |AtOrBefore(leq, a, x)|, Sort(leq, a);
    SortSpec(leq, a);
    if q < |r| && leq(r[q], x) {
      var front := r[..q + 1];
      assert r == front + r[q + 1..];
      forall y | y in multiset(front) ensures leq(y, x) {
        var j :| 0 <= j < |front| && front[j] == y;
        assert j == q || leq(r[j], r[q]);
      }
      AtOrBeforeLargest(leq, a, x, multiset(front));
    }
  }

  lemma {:induction false} NewcomerPlace<T(!new)>(leq: (T, T) -> bool, a: seq<T>, extra: seq<T>, x: T)
    requires TotalOrder(leq) && x in extra
    ensures var q, s := |AtOrBefore(leq, a, x)|, Sort(leq, a + extra); q < |s| && leq(s[q], x)
  {
    var m := multiset(AtOrBefore(leq, a, x)) + multiset{x};
    SortSpec(leq, a + extra);
    WithNewcomer(leq, a, extra, x);
    KthBefore(leq, Sort(leq, a + extra), m, x);
  }

  lemma {:induction false} WithNewcomer<T>(leq: (T, T) -> bool, a: seq<T>, extra: seq<T>, x: T)
    requires x in extra && leq(x, x)
    ensures var m := multiset(AtOrBefore(leq, a, x)) + multiset{x};
            && m <= multiset(a + extra) && |m| == |AtOrBefore(leq, a, x)| + 1
            && forall y :: y in m ==> leq(y, x)
  {
    AtOrBeforePart(leq, a, x);
    assert multiset{x} <= multiset(extra);
  }

  /** A newcomer with fewer than `k` members at or before it shows up in the first `k`. */
  lemma {:induction false} NewcomerShows<T(!new)>(leq: (T, T) -> bool, a: seq<T>, extra: seq<T>, k: nat, x: T)
    requires TotalOrder(leq) && x in extra && |AtOrBefore(leq, a, x)| < k
    ensures Top(leq, a + extra, k) != Top(leq, a, k)
  {
    var q := |AtOrBefore(leq, a, x)|;
    NoneBefore(leq, a, x);
    NewcomerPlace(leq, a, extra, x);
    assert Top(leq, a + extra, k)[q] == Sort(leq, a + extra)[q];
  }

  lemma {:induction false} ExtrasStayOut<T(!new)>(leq: (T, T) -> bool, a: seq<T>, extra: seq<T>, k: nat)
    requires TotalOrder(leq) && k > 0 && extra != []
    requires forall x :: x in extra ==> |AtOrBefore(leq, a, x)| >= k
    ensures Top(leq, a + extra, k) == Top(leq, a, k)
  {
    var r := Sort(leq, a);
    EnoughBefore(leq, a, extra[0], k);
    SortSpec(leq, a);
    var high := r[..k];
    forall h, x | h in high && x in extra ensures leq(h, x) {
      EnoughBefore(leq, a, x, k);
      SortedFront(leq, r, k, x);
    }
    assert r == high + r[k..];
    DropLow(leq, extra, a, high);
    SortOfPermutation(leq, a + extra, extra + a);
  }

  /** Adding `extra` leaves the first `k` alone exactly when every added element already has `k`
      members at or before it. */
  lemma {:induction false} ExtrasHidden<T(!new)>(leq: (T, T) -> bool, a: seq<T>, extra: seq<T>, k: nat)
    requires TotalOrder(leq)
    ensures Top(leq, a + extra, k) == Top(leq, a, k) <==>
            forall x :: x in extra ==> |AtOrBefore(leq, a, x)| >= k
  {
    if x :| x in extra && |AtOrBefore(leq, a, x)| < k {
      NewcomerShows(leq, a, extra, k, x);
    } else if extra == [] {
      assert a + extra == a;
    } else if k > 0 {
      ExtrasStayOut(leq, a, extra, k);
    }
  }
}
