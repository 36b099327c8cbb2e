/** Sums over sequences and Python's `round`, over exact integers and reals. */
module Numbers {

  function Sum(s: seq<int>): int {
    if s == [] then 0 else s[0] + Sum(s[1..])
  }

  lemma {:induction false} SumUpdate(s: seq<int>, i: nat, x: int)
    requires i < |s|
    ensures Sum(s[i := x]) == Sum(s) - s[i] + x
  {
    if i == 0 {
      assert s[i := x][1..] == s[1..];
    } else {
      SumUpdate(s[1..], i - 1, x);
      assert s[i := x][1..] == s[1..][i - 1 := x];
    }
  }

  lemma {:induction false} SumAppend(s: seq<int>, x: int)
    ensures Sum(s + [x]) == Sum(s) + x
  {
    if s != [] {
      assert (s + [x])[1..] == s[1..] + [x];
      SumAppend(s[1..], x);
    }
  }

  lemma {:induction false} SumTake(s: seq<int>, k: nat)
    requires k < |s|
    ensures Sum(s[..k + 1]) == Sum(s[..k]) + s[k]
  {
    assert s[..k + 1] == s[..k] + [s[k]];
    SumAppend(s[..k], s[k]);
  }

  /** Pointwise domination carries over to sums, strictly if it is strict somewhere. */
  lemma {:induction false} SumMonotone(a: seq<int>, b: seq<int>)
    requires |a| == |b| && forall i :: 0 <= i < |a| ==> a[i] <= b[i]
    ensures Sum(a) <= Sum(b)
    ensures (exists i :: 0 <= i < |a| && a[i] < b[i]) ==> Sum(a) < Sum(b)
  {
    if a != [] {
      SumMonotone(a[1..], b[1..]);
      if i :| 0 <= i < |a| && a[i] < b[i] {
        if i > 0 { assert a[1..][i - 1] < b[1..][i - 1]; }
      }
    }
  }

  lemma {:induction false} SumNonNegative(s: seq<int>)
    requires forall i :: 0 <= i < |s| ==> 0 <= s[i]
    ensures 0 <= Sum(s)
    ensures forall i :: 0 <= i < |s| ==> s[i] <= Sum(s)
  {
    if s != [] {
      SumNonNegative(s[1..]);
      forall i | 0 <= i < |s| ensures s[i] <= Sum(s) {
        if i > 0 { assert s[i] == s[1..][i - 1]; }
      }
    }
  }

  function RealSum(s: seq<real>): real {
    if s == [] then 0.0 else s[0] + RealSum(s[1..])
  }

  lemma {:induction false} RealSumAppend(s: seq<real>, x: real)
    ensures RealSum(s + [x]) == RealSum(s) + x
  {
    if s != [] {
      assert (s + [x])[1..] == s[1..] + [x];
      RealSumAppend(s[1..], x);
    }
  }

  lemma {:induction false} RealSumMonotone(a: seq<real>, b: seq<real>)
    requires |a| == |b| && forall i :: 0 <= i < |a| ==> a[i] <= b[i]
    ensures RealSum(a) <= RealSum(b)
  {
    if a != [] { RealSumMonotone(a[1..], b[1..]); }
  }

  lemma {:induction false} Distribute(m: int, n: int, f: real)
    ensures (m + n) as real * f == m as real * f + n as real * f
  {
    var x, y := m as real, n as real;
    assert (m + n) as real == x + y;
    assert (x + y) * f == x * f + y * f;
  }

  /** A common factor of integer weights comes out of the sum. */
  lemma {:induction false} RealSumScale(s: seq<int>, f: real, t: seq<real>)
    requires |t| == |s| && forall i :: 0 <= i < |s| ==> t[i] == s[i] as real * f
    ensures RealSum(t) == Sum(s) as real * f
  {
    if s != [] {
      RealSumScale(s[1..], f, t[1..]);
      Distribute(s[0], Sum(s[1..]), f);
    }
  }

  /** Terms that are each within `e` of another sequence's sum to within `n * e` of it. */
  lemma {:induction false} RealSumWithin(a: seq<real>, b: seq<real>, e: real)
    requires |a| == |b| && forall i :: 0 <= i < |a| ==> b[i] - e <= a[i] <= b[i] + e
    ensures RealSum(b) - |a| as real * e <= RealSum(a) <= RealSum(b) + |a| as real * e
  {
    if a != [] {
      var n := |a| - 1;
      RealSumWithin(a[1..], b[1..], e);
      Distribute(1, n, e);
      assert |a| as real * e == e + n as real * e by {
        assert 1 + n == |a| && 1 as real * e == e;
      }
    }
  }

  /** Python's `round(x)`: nearest integer, ties to even. */
  function Round(x: real): (r: int)
    ensures -0.5 <= r as real - x <= 0.5
    ensures x - x.Floor as real == 0.5 ==> r % 2 == 0
  {
    var f := x.Floor;
    var d := x - f as real;
    if d < 0.5 then f
    else if d > 0.5 then f + 1
    else if f % 2 == 0 then f else f + 1
  }

  /** Python's `round(x, 4)`. */
  function Round4(x: real): (r: real)
    ensures -0.00005 <= r - x <= 0.00005
    ensures r * 10000.0 == Round(x * 10000.0) as real
  {
    var n := Round(x * 10000.0);
    n as real / 10000.0
  }

  lemma {:induction false} NonNegativeProduct(a: int, b: int)
    requires 0 <= a && 0 <= b
    ensures 0 <= a * b
  {
  }

  function Max(a: int, b: int): int { if a < b then b else a }

  function Min(a: int, b: int): int { if a < b then a else b }

  function MaxReal(a: real, b: real): real { if a < b then b else a }
}
