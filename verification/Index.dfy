/** node/index.py `LocalFileIndex.refresh`: one scan, its caps and its embeddings. */
module Index {
  import opened Contracts
  import opened Ordering
  import opened Vectors

  datatype Doc = Doc(path: string, text: string, size: nat)
  datatype Caps = Caps(maxFiles: nat, maxBytes: nat) {
    predicate Valid() { maxFiles > 0 && maxBytes > 0 }
  }

  /** The sorted directory listing: `None` is a path `_read_document` skips. */
  type Files = seq<Option<Doc>>

  /** The embedding model: `None` is a raised error. */
  type Embedder = seq<Doc> -> Option<seq<Vector>>

  datatype Published = Published(docs: seq<Doc>, vectors: seq<Vector>, bytes: nat, dimensions: nat)

  datatype Error = EmbeddingUnavailable

  lemma {:induction false} ReadableOne(files: Files, f: Option<Doc>)
    ensures Readable(files + [f]) == Readable(files) + (match f case None => [] case Some(d) => [d])
  {
    assert (files + [f])[..|files|] == files;
  }

  lemma {:induction false} LastJoined<T>(a: seq<T>, b: seq<T>)
    requires b != []
    ensures var n := |b| - 1; b == b[..n] + [b[n]] && a + b == (a + b[..n]) + [b[n]]
  {
  }

  /** A listing's readable documents are those of its parts, in order. */
  lemma {:induction false} ReadableExact(a: Files, b: Files)
    ensures Readable(a + b) == Readable(a) + Readable(b)
  {
    if b == [] {
      assert a + b == a;
    } else {
      var n := |b| - 1;
      ReadableExact(a, b[..n]);
      ReadableOne(a + b[..n], b[n]);
      ReadableOne(b[..n], b[n]);
      LastJoined(a, b);
      Regroup(Readable(a), Readable(b[..n]), match b[n] case None => [] case Some(d) => [d]);
    }
  }

  function Readable(files: Files): seq<Doc> {
    if files == [] then []
    else Readable(files[..|files| - 1]) + (match files[|files| - 1] case None => [] case Some(d) => [d])
  }

  function Bytes(docs: seq<Doc>): nat {
    if docs == [] then 0 else Bytes(docs[..|docs| - 1]) + docs[|docs| - 1].size
  }

  predicate Within(caps: Caps, docs: seq<Doc>) {
    |docs| <= caps.maxFiles && Bytes(docs) <= caps.maxBytes
  }

  /** `docs` is the longest prefix of the readable files within both caps. */
  ghost predicate LongestPrefix(caps: Caps, files: Files, docs: seq<Doc>) {
    var all := Readable(files);
    docs <= all && forall n :: 0 <= n <= |all| ==> (Within(caps, all[..n]) <==> n <= |docs|)
  }

  lemma {:induction false} LongestPrefixUnique(caps: Caps, files: Files, a: seq<Doc>, b: seq<Doc>)
    requires LongestPrefix(caps, files, a) && LongestPrefix(caps, files, b)
    ensures a == b
  {
    var all := Readable(files);
    assert a == all[..|a|] && b == all[..|b|];
  }

  lemma {:induction false} BytesMonotone(docs: seq<Doc>, n: nat)
    requires n <= |docs|
    ensures Bytes(docs[..n]) <= Bytes(docs)
  {
    if n == |docs| {
      assert docs[..n] == docs;
    } else {
      assert docs[..|docs| - 1][..n] == docs[..n];
      BytesMonotone(docs[..|docs| - 1], n);
    }
  }

  lemma {:induction false} ReadablePrefix(files: Files, i: nat)
    requires i <= |files|
    ensures Readable(files[..i]) <= Readable(files)
  {
    if i == |files| {
      assert files[..i] == files;
    } else {
      assert files[..|files| - 1][..i] == files[..i];
      ReadablePrefix(files[..|files| - 1], i);
    }
  }

  lemma {:induction false} ReadableNext(files: Files, i: nat)
    requires i < |files|
    ensures Readable(files[..i + 1]) == Readable(files[..i]) + (match files[i] case None => [] case Some(d) => [d])
  {
    assert files[..i + 1][..i] == files[..i];
  }

  lemma {:induction false} BytesAppend(docs: seq<Doc>, d: Doc)
    ensures Bytes(docs + [d]) == Bytes(docs) + d.size
  {
    assert (docs + [d])[..|docs|] == docs;
  }

  /** Once one more document would break a cap, every longer prefix breaks it too. */
  lemma {:induction false} CutIsLongest(caps: Caps, files: Files, docs: seq<Doc>)
    requires docs <= Readable(files) && Within(caps, docs)
    requires |docs| < |Readable(files)| ==> !Within(caps, Readable(files)[..|docs| + 1])
    ensures LongestPrefix(caps, files, docs)
  {
    var all := Readable(files);
    assert docs == all[..|docs|];
    forall n | 0 <= n <= |all| ensures Within(caps, all[..n]) <==> n <= |docs| {
      if n <= |docs| {
        assert docs[..n] == all[..n];
        BytesMonotone(docs, n);
      } else {
        assert all[..n][..|docs| + 1] == all[..|docs| + 1];
        BytesMonotone(all[..n], |docs| + 1);
      }
    }
  }

  /** `docs` are the readable documents among the first `i` files, all within the caps. */
  ghost predicate Scanned(caps: Caps, files: Files, i: nat, docs: seq<Doc>, bytes: nat) {
    i <= |files| && docs == Readable(files[..i]) && bytes == Bytes(docs) && Within(caps, docs)
  }

  lemma {:induction false} FullIsLongest(caps: Caps, files: Files, i: nat, docs: seq<Doc>, bytes: nat)
    requires Scanned(caps, files, i, docs, bytes) && |docs| >= caps.maxFiles
    ensures LongestPrefix(caps, files, docs) && bytes == Bytes(docs)
  {
    ReadablePrefix(files, i);
    CutIsLongest(caps, files, docs);
  }

  lemma {:induction false} HeavyIsLongest(caps: Caps, files: Files, i: nat, docs: seq<Doc>, bytes: nat)
    requires Scanned(caps, files, i, docs, bytes) && i < |files| && files[i].Some?
    requires bytes + files[i].value.size > caps.maxBytes
    ensures LongestPrefix(caps, files, docs) && bytes == Bytes(docs)
  {
    ReadableNext(files, i);
    BytesAppend(docs, files[i].value);
    ReadablePrefix(files, i + 1);
    assert Readable(files)[..|docs| + 1] == docs + [files[i].value];
    CutIsLongest(caps, files, docs);
  }

  lemma {:induction false} AllIsLongest(caps: Caps, files: Files, docs: seq<Doc>, bytes: nat)
    requires Scanned(caps, files, |files|, docs, bytes)
    ensures LongestPrefix(caps, files, docs) && bytes == Bytes(docs)
  {
    assert files[..|files|] == files;
    CutIsLongest(caps, files, docs);
  }

  lemma {:induction false} ScanStep(caps: Caps, files: Files, i: nat, docs: seq<Doc>, bytes: nat)
    requires Scanned(caps, files, i, docs, bytes) && i < |files|
    ensures files[i].None? ==> Scanned(caps, files, i + 1, docs, bytes)
    ensures files[i].Some? && |docs| < caps.maxFiles && bytes + files[i].value.size <= caps.maxBytes ==>
              Scanned(caps, files, i + 1, docs + [files[i].value], bytes + files[i].value.size)
  {
    ReadableNext(files, i);
    if files[i].Some? { BytesAppend(docs, files[i].value); }
  }

  method Scan(caps: Caps, files: Files) returns (docs: seq<Doc>, bytes: nat)
    requires caps.Valid()
    ensures LongestPrefix(caps, files, docs) && bytes == Bytes(docs)
  {
    docs, bytes := [], 0;
    for i := 0 to |files|
      invariant Scanned(caps, files, i, docs, bytes)
    {
      if |docs| >= caps.maxFiles {
        FullIsLongest(caps, files, i, docs, bytes);
        return;
      }
      ScanStep(caps, files, i, docs, bytes);
      if files[i].None? {
        continue;
      }
      if bytes + files[i].value.size > caps.maxBytes {
        HeavyIsLongest(caps, files, i, docs, bytes);
        return;
      }
      docs, bytes := docs + [files[i].value], bytes + files[i].value.size;
    }
    AllIsLongest(caps, files, docs, bytes);
  }

  predicate Zero(v: Vector) { forall x :: x in v ==> x == 0.0 }

  /** One vector per document, all of one positive dimension, none zero. */
  predicate Usable(docs: seq<Doc>, vectors: seq<Vector>, dimensions: nat) {
    && |vectors| == |docs| && (docs == [] <==> dimensions == 0)
    && forall v :: v in vectors ==> |v| == dimensions && !Zero(v)
  }

  predicate Embeds(embed: Embedder, docs: seq<Doc>, p: Published) {
    && p.docs == docs && p.bytes == Bytes(docs) && Usable(docs, p.vectors, p.dimensions)
    && (docs != [] ==> embed(docs) == Some(p.vectors))
  }

  ghost predicate Unusable(embed: Embedder, docs: seq<Doc>) {
    docs != [] && (embed(docs).None? || forall d: nat :: !Usable(docs, embed(docs).value, d))
  }

  /** What one scan of `files` leads to: the documents are the longest prefix within the caps with
      one dimension throughout, and it fails exactly when the embedder's answer is unusable. */
  ghost predicate Outcome(caps: Caps, embed: Embedder, files: Files, r: Result<Published, Error>) {
    exists docs :: LongestPrefix(caps, files, docs)
                && (if r.Ok? then Embeds(embed, docs, r.value) else Unusable(embed, docs))
  }

  /** The work `refresh` does under its refresh lock. Vectors are kept before scaling to unit length. */
  method Build(caps: Caps, embed: Embedder, files: Files) returns (r: Result<Published, Error>)
    requires caps.Valid()
    ensures Outcome(caps, embed, files, r)
  {
    var docs, bytes := Scan(caps, files);
    if docs == [] {
      return Ok(Published([], [], bytes, 0));
    }
    var answer := embed(docs);
    if answer.None? || |answer.value| != |docs| {
      return Err(EmbeddingUnavailable);
    }
    var vectors := answer.value;
    var dimensions := |vectors[0]|;
    assert vectors[0] in vectors;
    if dimensions == 0 || exists v :: v in vectors && |v| != dimensions {
      return Err(EmbeddingUnavailable);
    }
    if exists v :: v in vectors && Zero(v) {
      return Err(EmbeddingUnavailable);
    }
    return Ok(Published(docs, vectors, bytes, dimensions));
  }

  /** The caps and the embedder decide what is published: a scan has one outcome. */
  lemma {:induction false} OutcomeUnique(caps: Caps, embed: Embedder, files: Files, r: Result<Published, Error>, q: Result<Published, Error>)
    requires Outcome(caps, embed, files, r) && Outcome(caps, embed, files, q)
    ensures r == q
  {
    var a :| LongestPrefix(caps, files, a) && (if r.Ok? then Embeds(embed, a, r.value) else Unusable(embed, a));
    var b :| LongestPrefix(caps, files, b) && (if q.Ok? then Embeds(embed, b, q.value) else Unusable(embed, b));
    LongestPrefixUnique(caps, files, a, b);
    if r.Ok? && q.Ok? {
      assert r.value.vectors == q.value.vectors;
      if a != [] { assert r.value.vectors[0] in r.value.vectors; }
    }
    assert r.Err? && q.Err? ==> r.error == q.error;
  }

  /** Whatever is published can be scaled to unit length and compared: as many vectors as documents,
      all of one positive dimension, none of length zero. */
  lemma {:induction false} PublishedComparable(caps: Caps, embed: Embedder, files: Files, p: Published, i: nat, j: nat)
    requires Outcome(caps, embed, files, Ok(p)) && i < |p.vectors| && j < |p.vectors|
    ensures |p.vectors| == |p.docs| && |p.vectors[i]| == |p.vectors[j]| == p.dimensions > 0
    ensures Squares(p.vectors[i]) > 0.0
  {
    var v := p.vectors[i];
    assert v in p.vectors && p.vectors[j] in p.vectors;
    SquaresNonNegative(v);
    var x :| x in v && x != 0.0;
    var k :| 0 <= k < |v| && v[k] == x;
  }

  /** And a scan fails only for such a cause: no answer, a vector too many or too few, lengths that
      differ or are zero, or a vector that cannot be scaled. */
  lemma {:induction false} RefusedForCause(caps: Caps, embed: Embedder, files: Files, docs: seq<Doc>)
    requires Outcome(caps, embed, files, Err(EmbeddingUnavailable)) && LongestPrefix(caps, files, docs)
    ensures docs != []
    ensures embed(docs).Some? ==>
              var v := embed(docs).value;
              || |v| != |docs|
              || exists i :: 0 <= i < |v| && (|v[i]| == 0 || |v[i]| != |v[0]| || Squares(v[i]) == 0.0)
  {
    var other :| LongestPrefix(caps, files, other) && Unusable(embed, other);
    LongestPrefixUnique(caps, files, docs, other);
    if embed(docs).Some? && |embed(docs).value| == |docs| {
      BadVector(docs, embed(docs).value);
    }
  }

  lemma {:induction false} BadVector(docs: seq<Doc>, v: seq<Vector>)
    requires docs != [] && |v| == |docs| && forall d: nat :: !Usable(docs, v, d)
    ensures exists i :: 0 <= i < |v| && (|v[i]| == 0 || |v[i]| != |v[0]| || Squares(v[i]) == 0.0)
  {
    assert !Usable(docs, v, |v[0]|);
    if |v[0]| > 0 {
      var x :| x in v && !(|x| == |v[0]| && !Zero(x));
      var i :| 0 <= i < |v| && v[i] == x;
      SquaresNonNegative(v[i]);
      if Zero(x) {
        forall k | 0 <= k < |x| ensures x[k] == 0.0 { assert x[k] in x; }
      }
    }
  }

  class LocalFileIndex {
    const caps: Caps
    var published: Option<Published>
    var generation: nat

    constructor (caps: Caps)
      requires caps.Valid()
      ensures this.caps == caps && published == None && generation == 0
    {
      this.caps := caps;
      published, generation := None, 0;
    }

    /** `refresh` from the point where the refresh lock is held, for a call that read `observed`. */
    method RefreshLocked(observed: nat, embed: Embedder, files: Files) returns (r: Result<Published, Error>)
      requires caps.Valid() && (generation > 0 <==> published.Some?) && observed <= generation
      modifies this
      ensures generation > 0 <==> published.Some?
      ensures old(generation) != observed ==>
                generation == old(generation) && published == old(published) && r.Ok? && Some(r.value) == published
      ensures old(generation) == observed ==> Outcome(caps, embed, files, r)
      ensures old(generation) == observed && r.Ok? ==> generation == observed + 1 && published == Some(r.value)
      ensures r.Err? ==> generation == old(generation) && published == old(published)
    {
      if generation != observed {
        return Ok(published.value);
      }
      r := Build(caps, embed, files);
      if r.Ok? {
        published := Some(r.value);
        generation := generation + 1;
      }
    }
  }
}
