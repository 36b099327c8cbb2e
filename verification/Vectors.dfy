/** Embedding vectors and their inner product, node/index.py `cosine_similarity`. */
module Vectors {

  type Vector = seq<real>

  /** `sum(a * b for a, b in zip(left, right))`: the cosine similarity of unit vectors. */
  function Dot(a: Vector, b: Vector): real
    requires |a| == |b|
  {
    if a == [] then 0.0 else a[0] * b[0] + Dot(a[1..], b[1..])
  }

  /** Squared length. */
  function Squares(a: Vector): real {
    if a == [] then 0.0 else Square(a[0]) + Squares(a[1..])
  }

  function Square(x: real): (r: real)
    ensures r >= 0.0
  {
    x * x
  }

  predicate Unit(a: Vector) { Squares(a) == 1.0 }

  function Plus(a: Vector, b: Vector): Vector
    requires |a| == |b|
  {
    seq(|a|, i requires 0 <= i < |a| => a[i] + b[i])
  }

  function Times(k: real, a: Vector): Vector {
    seq(|a|, i requires 0 <= i < |a| => k * a[i])
  }

  lemma {:induction false} DotSymmetric(a: Vector, b: Vector)
    requires |a| == |b|
    ensures Dot(a, b) == Dot(b, a)
  {
    if a != [] { DotSymmetric(a[1..], b[1..]); }
  }

  lemma {:induction false} TermPlus(x: real, y: real, z: real)
    ensures (x + y) * z == x * z + y * z
  {
  }

  lemma {:induction false} DotPlus(a: Vector, b: Vector, c: Vector)
    requires |a| == |b| == |c|
    ensures Dot(Plus(a, b), c) == Dot(a, c) + Dot(b, c)
  {
    if a != [] {
      assert Plus(a, b)[1..] == Plus(a[1..], b[1..]);
      DotPlus(a[1..], b[1..], c[1..]);
      TermPlus(a[0], b[0], c[0]);
    }
  }

  lemma {:induction false} TermTimes(k: real, x: real, y: real, rest: real)
    ensures (k * x) * y + k * rest == k * (x * y + rest)
  {
  }

  lemma {:induction false} TimesTail(k: real, a: Vector)
    requires a != []
    ensures Times(k, a)[1..] == Times(k, a[1..])
  {
    forall i | 0 <= i < |a| - 1 ensures Times(k, a)[1..][i] == Times(k, a[1..])[i] {
      assert a[1..][i] == a[i + 1];
    }
  }

  lemma {:induction false} DotTimes(k: real, a: Vector, b: Vector)
    requires |a| == |b|
    ensures Dot(Times(k, a), b) == k * Dot(a, b)
  {
    if a != [] {
      TimesTail(k, a);
      DotTimes(k, a[1..], b[1..]);
      TermTimes(k, a[0], b[0], Dot(a[1..], b[1..]));
    }
  }

  lemma {:induction false} DotSelf(a: Vector)
    ensures Dot(a, a) == Squares(a)
  {
    if a != [] { DotSelf(a[1..]); }
  }

  ghost predicate AllZero(a: Vector) { forall i :: 0 <= i < |a| ==> a[i] == 0.0 }

  lemma {:induction false} ZeroTail(a: Vector)
    requires a != []
    ensures AllZero(a) <==> a[0] == 0.0 && AllZero(a[1..])
  {
    if a[0] == 0.0 && AllZero(a[1..]) {
      forall i | 0 <= i < |a| ensures a[i] == 0.0 {
        if i > 0 { assert a[i] == a[1..][i - 1]; }
      }
    }
  }

  lemma {:induction false} ZeroProduct(x: real, y: real)
    requires x * y == 0.0
    ensures x == 0.0 || y == 0.0
  {
  }

  lemma {:induction false} SquareZero(x: real)
    ensures Square(x) == 0.0 <==> x == 0.0
  {
    if Square(x) == 0.0 { ZeroProduct(x, x); }
    if x == 0.0 { assert x * x == 0.0 * x; }
  }

  /** Only the zero vector has length zero. */
  lemma {:induction false} SquaresNonNegative(a: Vector)
    ensures 0.0 <= Squares(a) && (Squares(a) == 0.0 <==> AllZero(a))
  {
    if a != [] {
      SquaresNonNegative(a[1..]);
      ZeroTail(a);
      SquareZero(a[0]);
    }
  }

  /** The inner product is linear on the right as well. */
  lemma {:induction false} DotRight(k: real, a: Vector, b: Vector, c: Vector)
    requires |a| == |b| == |c|
    ensures Dot(c, Plus(a, b)) == Dot(c, a) + Dot(c, b)
    ensures Dot(c, Times(k, a)) == k * Dot(c, a)
  {
    DotSymmetric(c, Plus(a, b));
    DotSymmetric(c, Times(k, a));
    DotSymmetric(c, a);
    DotSymmetric(c, b);
    DotPlus(a, b, c);
    DotTimes(k, a, c);
  }

  /** |a + kb|^2 for k = 1 and k = -1, from linearity. */
  lemma {:induction false} SquaresOfSum(k: real, a: Vector, b: Vector)
    requires |a| == |b| && (k == 1.0 || k == -1.0)
    ensures Squares(Plus(a, Times(k, b))) == Squares(a) + 2.0 * k * Dot(a, b) + Squares(b)
  {
    var kb := Times(k, b);
    var v := Plus(a, kb);
    DotSelf(v);
    DotPlus(a, kb, v);
    DotTimes(k, b, v);
    DotRight(k, a, kb, a);
    DotRight(k, b, kb, a);
    DotRight(k, a, kb, b);
    DotRight(k, b, kb, b);
    DotSymmetric(a, b);
    DotSelf(a);
    DotSelf(b);
  }

  /** Similarity of unit vectors lies between -1 and 1, and is 1 only for the same vector. */
  lemma {:induction false} UnitSimilarity(a: Vector, b: Vector)
    requires |a| == |b| && Unit(a) && Unit(b)
    ensures -1.0 <= Dot(a, b) <= 1.0
    ensures Dot(a, b) == 1.0 <==> a == b
  {
    var sum, difference := Plus(a, Times(1.0, b)), Plus(a, Times(-1.0, b));
    SquaresOfSum(1.0, a, b);
    SquaresOfSum(-1.0, a, b);
    SquaresNonNegative(sum);
    SquaresNonNegative(difference);
    if Dot(a, b) == 1.0 {
      forall i | 0 <= i < |a| ensures a[i] == b[i] {
        assert difference[i] == a[i] + Times(-1.0, b)[i] == a[i] + (-1.0) * b[i];
      }
      assert a == b;
    }
    if a == b { DotSelf(a); }
  }
}
