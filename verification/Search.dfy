/** Distributed search: node/index.py ranks locally, ctl/queue.py merges. */
module Search {
  import opened Contracts
  import opened Numbers
  import opened Ordering
  import opened TopK
  import opened Vectors

  const DEFAULT_LIMIT: nat := 5
  const MAX_RESULT_LIMIT: nat := 20

  /** An indexed document with its (rounded) similarity to the query. */
  datatype Doc = Doc(path: string, score: real)

  /** A hit as the controller lists it, qualified by its node. */
  datatype Hit = Hit(score: real, node: string, path: string)

  /** key=(-score, path) */
  predicate DocLeq(a: Doc, b: Doc) {
    a.score > b.score || (a.score == b.score && StrLeq(a.path, b.path))
  }

  /** key=(-score, node_id, path) */
  predicate HitLeq(a: Hit, b: Hit) {
    || a.score > b.score
    || (a.score == b.score && (StrLess(a.node, b.node) || (a.node == b.node && StrLeq(a.path, b.path))))
  }

  lemma {:induction false} DocOrder()
    ensures TotalOrder(DocLeq)
  {
    StrOrder();
  }

  lemma {:induction false} HitOrder()
    ensures TotalOrder(HitLeq)
  {
    StrOrder();
    assert forall a, b :: StrLess(a, b) <==> StrLeq(a, b) && a != b;
  }

  datatype SearchError = BlankQuery | BadLimit | NotReady | EmbeddingUnavailable

  /** A published document with its unit-length embedding. */
  datatype Embedded = Embedded(path: string, embedding: seq<real>)

  ghost predicate Uniform(docs: seq<Embedded>, dimensions: nat) {
    forall i :: 0 <= i < |docs| ==> |docs[i].embedding| == dimensions
  }

  function Scored(docs: seq<Embedded>, query: seq<real>): seq<Doc>
    requires Uniform(docs, |query|)
  {
    seq(|docs|, i requires 0 <= i < |docs| => Doc(docs[i].path, Round4(Dot(docs[i].embedding, query))))
  }

  /** `LocalFileIndex.search`: the node's best `limit` documents. `index` is None before the first
      refresh; `vector` is the query's unit embedding, None if the model fails or returns zero. */
  method LocalSearch(query: string, index: Option<seq<Embedded>>, vector: Option<seq<real>>, limit: int)
    returns (r: Result<seq<Doc>, SearchError>)
    requires index.Some? && index.value != [] ==> Uniform(index.value, |index.value[0].embedding|)
    ensures r == Err(BlankQuery) <==> Blank(query)
    ensures r == Err(BadLimit) <==> !Blank(query) && !(1 <= limit <= MAX_RESULT_LIMIT)
    ensures !Blank(query) && 1 <= limit <= MAX_RESULT_LIMIT ==>
              && (r == Err(NotReady) <==> index.None?)
              && (r == Err(EmbeddingUnavailable) <==>
                    && index.Some? && index.value != []
                    && (vector.None? || |vector.value| != |index.value[0].embedding|))
    ensures r.Ok? && index.value == [] ==> r.value == []
    ensures r.Ok? && index.value != [] ==>
              && vector.Some? && Uniform(index.value, |vector.value|)
              && r.value == Top(DocLeq, Scored(index.value, vector.value), limit)
              && BestDocs(r.value, Scored(index.value, vector.value), limit)
    ensures r.Ok? && index.value != [] && Unit(vector.value) && (forall d :: d in index.value ==> Unit(d.embedding)) ==>
              && (forall d :: d in r.value ==> -1.0 <= d.score <= 1.0)
              && ((exists d :: d in index.value && d.embedding == vector.value) ==> r.value != [] && r.value[0].score == 1.0)
  {
    if Blank(query) {
      return Err(BlankQuery);
    }
    if !(1 <= limit <= MAX_RESULT_LIMIT) {
      return Err(BadLimit);
    }
    if index.None? {
      return Err(NotReady);
    }
    var docs := index.value;
    if docs == [] {
      return Ok([]);
    }
    if vector.None? || |vector.value| != |docs[0].embedding| {
      return Err(EmbeddingUnavailable);
    }
    var ranked: seq<Doc> := [];
    for i := 0 to |docs|
      invariant ranked == Scored(docs[..i], vector.value)
    {
      ranked := ranked + [Doc(docs[i].path, Round4(Dot(docs[i].embedding, vector.value)))];
    }
    assert docs[..|docs|] == docs;
    TopDocs(ranked, limit);
    SameVectorFirst(docs, vector.value, limit);
    ranked := Sort(DocLeq, ranked);
    return Ok(if limit <= |ranked| then ranked[..limit] else ranked);
  }

  /** `r` is what a caller expects of the best `k` of `all`: higher scores first, equal scores by path,
      and nothing left out that should precede anything in it. */
  ghost predicate BestDocs(r: seq<Doc>, all: seq<Doc>, k: nat) {
    && |r| == Min(k, |all|) && multiset(r) <= multiset(all)
    && (forall i, j :: 0 <= i < j < |r| ==>
          r[i].score > r[j].score || (r[i].score == r[j].score && StrLeq(r[i].path, r[j].path)))
    && (forall i, d :: 0 <= i < |r| && d in multiset(all) - multiset(r) ==>
          r[i].score > d.score || (r[i].score == d.score && StrLeq(r[i].path, d.path)))
  }

  lemma {:induction false} TopDocs(all: seq<Doc>, k: nat)
    ensures BestDocs(Top(DocLeq, all, k), all, k)
  {
    DocOrder();
    TopSpec(DocLeq, all, k);
  }

  /** As `BestDocs`, with equal scores by node and then by path. */
  ghost predicate BestHits(r: seq<Hit>, all: seq<Hit>, k: nat) {
    && |r| == Min(k, |all|) && multiset(r) <= multiset(all)
    && (forall i, j :: 0 <= i < j < |r| ==>
          r[i].score > r[j].score || (r[i].score == r[j].score && FirstByName(r[i], r[j])))
    && (forall i, h :: 0 <= i < |r| && h in multiset(all) - multiset(r) ==>
          r[i].score > h.score || (r[i].score == h.score && FirstByName(r[i], h)))
  }

  predicate FirstByName(a: Hit, b: Hit) {
    if a.node == b.node then StrLeq(a.path, b.path) else StrLess(a.node, b.node)
  }

  lemma {:induction false} HitLeqMeans(a: Hit, b: Hit)
    requires HitLeq(a, b)
    ensures a.score > b.score || (a.score == b.score && FirstByName(a, b))
  {
    StrOrder();
  }

  lemma {:induction false} TopHits(all: seq<Hit>, k: nat)
    ensures BestHits(Top(HitLeq, all, k), all, k)
  {
    HitOrder();
    TopSpec(HitLeq, all, k);
    var r := Top(HitLeq, all, k);
    forall i, j | 0 <= i < j < |r|
      ensures r[i].score > r[j].score || (r[i].score == r[j].score && FirstByName(r[i], r[j]))
    {
      HitLeqMeans(r[i], r[j]);
    }
    forall i, h | 0 <= i < |r| && h in multiset(all) - multiset(r)
      ensures r[i].score > h.score || (r[i].score == h.score && FirstByName(r[i], h))
    {
      HitLeqMeans(r[i], h);
    }
  }

  lemma {:induction false} ScoreRange(x: real)
    ensures -1.0 <= x <= 1.0 ==> -1.0 <= Round4(x) <= 1.0
    ensures Round4(1.0) == 1.0
  {
  }

  lemma {:induction false} UnitScore(d: Embedded, query: Vector)
    requires |d.embedding| == |query| && Unit(d.embedding) && Unit(query)
    ensures -1.0 <= Round4(Dot(d.embedding, query)) <= 1.0
    ensures d.embedding == query ==> Round4(Dot(d.embedding, query)) == 1.0
  {
    UnitSimilarity(d.embedding, query);
    ScoreRange(Dot(d.embedding, query));
  }

  /** Among unit embeddings no score leaves -1..1, and a document that says what the query says heads
      the list with score 1. */
  lemma {:induction false} SameVectorFirst(docs: seq<Embedded>, query: Vector, k: nat)
    requires Uniform(docs, |query|) && k > 0
    ensures Unit(query) && (forall d :: d in docs ==> Unit(d.embedding)) ==>
              var r := Top(DocLeq, Scored(docs, query), k);
              && (forall d :: d in r ==> -1.0 <= d.score <= 1.0)
              && ((exists d :: d in docs && d.embedding == query) ==> r != [] && r[0].score == 1.0)
  {
    if Unit(query) && forall d :: d in docs ==> Unit(d.embedding) {
      var all := Scored(docs, query);
      forall i | 0 <= i < |docs|
        ensures -1.0 <= all[i].score <= 1.0 && (docs[i].embedding == query ==> all[i].score == 1.0)
      {
        UnitScore(docs[i], query);
      }
      UnitScoresRanked(all, k, exists d :: d in docs && d.embedding == query);
    }
  }

  lemma {:induction false} UnitScoresRanked(all: seq<Doc>, k: nat, perfect: bool)
    requires k > 0 && forall i :: 0 <= i < |all| ==> -1.0 <= all[i].score <= 1.0
    requires perfect ==> exists i :: 0 <= i < |all| && all[i].score == 1.0
    ensures var r := Top(DocLeq, all, k);
            && (forall d :: d in r ==> -1.0 <= d.score <= 1.0)
            && (perfect ==> r != [] && r[0].score == 1.0)
  {
    var r := Top(DocLeq, all, k);
    TopDocs(all, k);
    forall d | d in r ensures d in all { assert d in multiset(r); }
    if perfect {
      var i :| 0 <= i < |all| && all[i].score == 1.0;
      assert all[i] in multiset(all) && r[0] in r;
      if all[i] in r {
        var j :| 0 <= j < |r| && r[j] == all[i];
      }
    }
  }

  function Tag(node: string, docs: seq<Doc>): seq<Hit> {
    seq(|docs|, i requires 0 <= i < |docs| => Hit(docs[i].score, node, docs[i].path))
  }

  lemma {:induction false} SortedDocs(docs: seq<Doc>)
    ensures Sorted(DocLeq, Sort(DocLeq, docs)) && multiset(Sort(DocLeq, docs)) == multiset(docs)
  {
    DocOrder();
    SortSpec(DocLeq, docs);
  }

  lemma {:induction false} SortedHits(hits: seq<Hit>, r: seq<Hit>)
    requires Sorted(HitLeq, r) && multiset(r) == multiset(hits)
    ensures Sort(HitLeq, hits) == r
  {
    HitOrder();
    SortSpec(HitLeq, hits);
    SortedUnique(HitLeq, Sort(HitLeq, hits), r);
  }

  lemma {:induction false} TagSorted(node: string, docs: seq<Doc>)
    requires Sorted(DocLeq, docs)
    ensures Sorted(HitLeq, Tag(node, docs))
  {
  }

  /** Tagging with the node commutes with ranking, so a node's cut is the controller's cut. */
  lemma {:induction false} TagTop(node: string, docs: seq<Doc>, k: nat)
    ensures Tag(node, Top(DocLeq, docs, k)) == Top(HitLeq, Tag(node, docs), k)
  {
    var r := Sort(DocLeq, docs);
    SortedDocs(docs);
    TagSorted(node, r);
    TagPermutation(node, r, docs);
    SortedHits(Tag(node, docs), Tag(node, r));
  }

  lemma {:induction false} TagPermutation(node: string, a: seq<Doc>, b: seq<Doc>)
    requires multiset(a) == multiset(b)
    ensures multiset(Tag(node, a)) == multiset(Tag(node, b))
  {
    if a == [] {
      assert |multiset(b)| == 0;
    } else {
      assert a[0] in multiset(b);
      var j :| 0 <= j < |b| && b[j] == a[0];
      PermutationTail(a, b, j);
      var rest := b[..j] + b[j + 1..];
      TagPermutation(node, a[1..], rest);
      assert Tag(node, a) == Tag(node, [a[0]]) + Tag(node, a[1..]);
      assert Tag(node, b) == Tag(node, b[..j]) + Tag(node, [b[j]]) + Tag(node, b[j + 1..]);
      assert Tag(node, rest) == Tag(node, b[..j]) + Tag(node, b[j + 1..]);
    }
  }

  /** What one shard of a search job came back with; a malformed hit is None. */
  datatype Reply = Reply(node: string, model: Option<string>, hits: seq<Option<Doc>>)

  datatype Merged = Merged(hits: seq<Hit>, nodesSearched: seq<string>, model: Option<string>)

  datatype MergeError = ModelsDiffer

  /** The hits that have a path and a score. */
  function WellFormed(hits: seq<Option<Doc>>): seq<Doc> {
    if hits == [] then []
    else
      var n := |hits| - 1;
      WellFormed(hits[..n]) + Carried(hits[n])
  }

  function Carried(hit: Option<Doc>): seq<Doc> {
    match hit case None => [] case Some(d) => [d]
  }

  lemma {:induction false} InLast<T>(s: seq<T>, x: T)
    requires s != []
    ensures x in s <==> x in s[..|s| - 1] || x == s[|s| - 1]
  {
    assert s == s[..|s| - 1] + [s[|s| - 1]];
  }

  /** No well-formed hit is lost or invented. */
  lemma {:induction false} WellFormedExact(hits: seq<Option<Doc>>, d: Doc)
    ensures d in WellFormed(hits) <==> Some(d) in hits
    ensures |WellFormed(hits)| <= |hits| && (None !in hits ==> |WellFormed(hits)| == |hits|)
  {
    if hits != [] {
      WellFormedExact(hits[..|hits| - 1], d);
      InLast(hits, Some(d));
      InLast(hits, None);
    }
  }

  /** The merged hits are exactly those some reply carries, under that reply's node. */
  lemma {:induction false} AllHitsExact(replies: seq<Reply>, h: Hit)
    ensures h in AllHits(replies) <==>
            exists r :: r in replies && r.node == h.node && Some(Doc(h.path, h.score)) in r.hits
  {
    if replies != [] {
      var n := |replies| - 1;
      AllHitsExact(replies[..n], h);
      assert replies == replies[..n] + [replies[n]];
      TaggedExact(replies[n], h);
    }
  }

  lemma {:induction false} TaggedExact(reply: Reply, h: Hit)
    ensures h in Tag(reply.node, WellFormed(reply.hits)) <==>
            reply.node == h.node && Some(Doc(h.path, h.score)) in reply.hits
  {
    var d, docs := Doc(h.path, h.score), WellFormed(reply.hits);
    WellFormedExact(reply.hits, d);
    if h in Tag(reply.node, docs) {
      var i :| 0 <= i < |docs| && Tag(reply.node, docs)[i] == h;
      assert docs[i] == d;
    }
    if d in docs && reply.node == h.node {
      var i :| 0 <= i < |docs| && docs[i] == d;
      assert Tag(reply.node, docs)[i] == h;
    }
  }

  ghost function AllHits(replies: seq<Reply>): seq<Hit> {
    if replies == [] then []
    else
      var n := |replies| - 1;
      AllHits(replies[..n]) + Tag(replies[n].node, WellFormed(replies[n].hits))
  }

  function Limit(requested: Option<int>): nat {
    if requested.Some? && requested.value > 0 then requested.value else DEFAULT_LIMIT
  }

  ghost function Models(replies: seq<Reply>): set<string> {
    set r | r in replies && r.model.Some? && r.model.value != "" :: r.model.value
  }

  ghost function Nodes(replies: seq<Reply>): set<string> {
    set r | r in replies :: r.node
  }

  lemma {:induction false} MergeStep(replies: seq<Reply>, reply: Reply)
    ensures AllHits(replies + [reply]) == AllHits(replies) + Tag(reply.node, WellFormed(reply.hits))
    ensures Nodes(replies + [reply]) == Nodes(replies) + {reply.node}
    ensures Models(replies + [reply])
         == Models(replies) + if reply.model.Some? && reply.model.value != "" then {reply.model.value} else {}
  {
    assert (replies + [reply])[..|replies|] == replies;
  }

  /** The inner loop over one reply's hits. */
  method TagReply(reply: Reply) returns (tagged: seq<Hit>)
    ensures tagged == Tag(reply.node, WellFormed(reply.hits))
  {
    tagged := [];
    for i := 0 to |reply.hits|
      invariant tagged == Tag(reply.node, WellFormed(reply.hits[..i]))
    {
      assert reply.hits[..i + 1][..i] == reply.hits[..i];
      if reply.hits[i].None? {
        continue;
      }
      var d := reply.hits[i].value;
      tagged := tagged + [Hit(d.score, reply.node, d.path)];
    }
    assert reply.hits[..|reply.hits|] == reply.hits;
  }

  /** The loop over the replies: all hits, the nodes and the models. */
  method Collect(replies: seq<Reply>) returns (merged: seq<Hit>, nodes: set<string>, models: set<string>)
    ensures merged == AllHits(replies) && nodes == Nodes(replies) && models == Models(replies)
  {
    merged, nodes, models := [], {}, {};
    for i := 0 to |replies|
      invariant merged == AllHits(replies[..i]) && nodes == Nodes(replies[..i]) && models == Models(replies[..i])
    {
      var reply := replies[i];
      assert replies[..i + 1] == replies[..i] + [reply];
      MergeStep(replies[..i], reply);
      nodes := nodes + {reply.node};
      if reply.model.Some? && reply.model.value != "" {
        models := models + {reply.model.value};
      }
      var tagged := TagReply(reply);
      merged := merged + tagged;
    }
    assert replies[..|replies|] == replies;
  }

  /** `_merge_search_results`. */
  method MergeSearchResults(replies: seq<Reply>, requested: Option<int>) returns (r: Result<Merged, MergeError>)
    ensures r.Err? <==> |Models(replies)| > 1
    ensures r.Ok? ==>
              && r.value.hits == Top(HitLeq, AllHits(replies), Limit(requested))
              && BestHits(r.value.hits, AllHits(replies), if requested.Some? && requested.value > 0 then requested.value else 5)
              && Increasing(r.value.nodesSearched) && Lists(Nodes(replies), r.value.nodesSearched)
              && (if r.value.model.Some? then Models(replies) == {r.value.model.value} else Models(replies) == {})
  {
    var merged, nodes, models := Collect(replies);
    var ranked := Sort(HitLeq, merged);
    var limit := Limit(requested);
    if |models| > 1 {
      return Err(ModelsDiffer);
    }
    var hits := if limit <= |ranked| then ranked[..limit] else ranked;
    TopHits(merged, limit);
    var listed := Enumerate(nodes);
    SortIds(listed);
    var searched := Sort(StrLeq, listed);
    if models == {} {
      return Ok(Merged(hits, searched, None));
    }
    var model :| model in models;
    assert models == {model} by {
      assert |models - {model}| == 0;
    }
    return Ok(Merged(hits, searched, Some(model)));
  }

  type Corpora = map<string, seq<Doc>>

  function Holdings(corpora: Corpora, nodes: seq<string>): seq<seq<Hit>>
    requires forall i :: 0 <= i < |nodes| ==> nodes[i] in corpora
  {
    seq(|nodes|, i requires 0 <= i < |nodes| => Tag(nodes[i], corpora[nodes[i]]))
  }

  /** Central search over every document of `nodes`, ranked together. */
  function CentralSearch(corpora: Corpora, nodes: seq<string>, limit: nat): seq<Hit>
    requires forall i :: 0 <= i < |nodes| ==> nodes[i] in corpora
  {
    Top(HitLeq, Flatten(Holdings(corpora, nodes)), limit)
  }

  /** The replies of shards that finished on `nodes`, each holding the node's own best `limit`. */
  ghost predicate AnswersFrom(corpora: Corpora, nodes: seq<string>, replies: seq<Reply>, limit: nat) {
    && |replies| == |nodes|
    && (forall i :: 0 <= i < |nodes| ==> nodes[i] in corpora)
    && forall i :: 0 <= i < |nodes| ==>
         replies[i].node == nodes[i] && WellFormed(replies[i].hits) == Top(DocLeq, corpora[nodes[i]], limit)
  }

  lemma {:induction false} FlattenLast<T>(parts: seq<seq<T>>, p: seq<T>)
    ensures Flatten(parts + [p]) == Flatten(parts) + p
  {
    if parts != [] {
      FlattenLast(parts[1..], p);
      assert (parts + [p])[1..] == parts[1..] + [p];
    }
  }

  lemma {:induction false} TopsLast(corpora: Corpora, nodes: seq<string>, limit: nat)
    requires nodes != [] && forall i :: 0 <= i < |nodes| ==> nodes[i] in corpora
    ensures var n := |nodes| - 1;
            Flatten(Tops(HitLeq, Holdings(corpora, nodes), limit))
            == Flatten(Tops(HitLeq, Holdings(corpora, nodes[..n]), limit)) + Top(HitLeq, Tag(nodes[n], corpora[nodes[n]]), limit)
  {
    var n := |nodes| - 1;
    var tops, last := Tops(HitLeq, Holdings(corpora, nodes[..n]), limit), Top(HitLeq, Tag(nodes[n], corpora[nodes[n]]), limit);
    assert Tops(HitLeq, Holdings(corpora, nodes), limit) == tops + [last];
    FlattenLast(tops, last);
  }

  lemma {:induction false} AnswersAreTops(corpora: Corpora, nodes: seq<string>, replies: seq<Reply>, limit: nat)
    requires AnswersFrom(corpora, nodes, replies, limit)
    ensures AllHits(replies) == Flatten(Tops(HitLeq, Holdings(corpora, nodes), limit))
  {
    if replies != [] {
      var n := |replies| - 1;
      AnswersAreTops(corpora, nodes[..n], replies[..n], limit);
      TagTop(nodes[n], corpora[nodes[n]], limit);
      TopsLast(corpora, nodes, limit);
    }
  }

  /** Distributed search refines central search: merging each shard's local best `limit` gives the
      central result over the list of nodes the shards finished on. */
  lemma {:induction false} DistributedIsCentral(corpora: Corpora, nodes: seq<string>, replies: seq<Reply>, limit: nat)
    requires AnswersFrom(corpora, nodes, replies, limit)
    ensures Top(HitLeq, AllHits(replies), limit) == CentralSearch(corpora, nodes, limit)
  {
    HitOrder();
    AnswersAreTops(corpora, nodes, replies, limit);
    TopOfTops(HitLeq, Holdings(corpora, nodes), limit);
  }

  /** The central result depends only on which nodes were searched, and how often. */
  lemma {:induction false} CentralUnordered(corpora: Corpora, a: seq<string>, b: seq<string>, limit: nat)
    requires forall i :: 0 <= i < |a| ==> a[i] in corpora
    requires multiset(a) == multiset(b)
    ensures forall i :: 0 <= i < |b| ==> b[i] in corpora
    ensures CentralSearch(corpora, a, limit) == CentralSearch(corpora, b, limit)
  {
    forall i | 0 <= i < |b| ensures b[i] in corpora { assert b[i] in multiset(a); }
    HitOrder();
    HoldingsPermutation(corpora, a, b);
    SortOfPermutation(HitLeq, Flatten(Holdings(corpora, a)), Flatten(Holdings(corpora, b)));
  }

  lemma {:induction false} FlattenInsert<T>(x: seq<seq<T>>, p: seq<T>, y: seq<seq<T>>)
    ensures multiset(Flatten(x + [p] + y)) == multiset(p) + multiset(Flatten(x + y))
  {
    FlattenConcat(x + [p], y);
    FlattenLast(x, p);
    FlattenConcat(x, y);
  }

  lemma {:induction false} HoldingsWithout(corpora: Corpora, b: seq<string>, j: nat)
    requires j < |b| && forall i :: 0 <= i < |b| ==> b[i] in corpora
    ensures var rest := b[..j] + b[j + 1..];
            && (forall i :: 0 <= i < |rest| ==> rest[i] in corpora)
            && multiset(Flatten(Holdings(corpora, b)))
               == multiset(Tag(b[j], corpora[b[j]])) + multiset(Flatten(Holdings(corpora, rest)))
  {
    var h := Holdings(corpora, b);
    assert h == h[..j] + [h[j]] + h[j + 1..];
    assert Holdings(corpora, b[..j] + b[j + 1..]) == h[..j] + h[j + 1..];
    FlattenInsert(h[..j], h[j], h[j + 1..]);
  }

  lemma {:induction false} HoldingsTail(corpora: Corpora, a: seq<string>)
    requires a != [] && forall i :: 0 <= i < |a| ==> a[i] in corpora
    ensures forall i :: 0 <= i < |a[1..]| ==> a[1..][i] in corpora
    ensures Flatten(Holdings(corpora, a)) == Tag(a[0], corpora[a[0]]) + Flatten(Holdings(corpora, a[1..]))
  {
    assert Holdings(corpora, a)[1..] == Holdings(corpora, a[1..]);
  }

  lemma {:induction false} HoldingsPermutation(corpora: Corpora, a: seq<string>, b: seq<string>)
    requires forall i :: 0 <= i < |a| ==> a[i] in corpora
    requires forall i :: 0 <= i < |b| ==> b[i] in corpora
    requires multiset(a) == multiset(b)
    ensures multiset(Flatten(Holdings(corpora, a))) == multiset(Flatten(Holdings(corpora, b)))
  {
    if a == [] {
      assert |multiset(b)| == 0;
    } else {
      assert a[0] in multiset(b);
      var j :| 0 <= j < |b| && b[j] == a[0];
      PermutationTail(a, b, j);
      HoldingsWithout(corpora, b, j);
      HoldingsTail(corpora, a);
      HoldingsPermutation(corpora, a[1..], b[..j] + b[j + 1..]);
    }
  }

  lemma {:induction false} FlattenConcat<T>(x: seq<seq<T>>, y: seq<seq<T>>)
    ensures Flatten(x + y) == Flatten(x) + Flatten(y)
  {
    if x == [] {
      assert x + y == y;
    } else {
      FlattenConcat(x[1..], y);
      assert (x + y)[1..] == x[1..] + y;
      Regroup(x[0], Flatten(x[1..]), Flatten(y));
    }
  }

  /** Shards may end on a node another shard already searched, which then reports its documents
      again. The cut result is unharmed exactly when each repeated hit already has `limit` hits of
      the distinct nodes at or before it. */
  lemma {:induction false} RepeatsHarmless(corpora: Corpora, nodes: seq<string>, again: seq<string>, limit: nat)
    requires forall i :: 0 <= i < |nodes| ==> nodes[i] in corpora
    requires forall i :: 0 <= i < |again| ==> again[i] in nodes
    ensures forall i :: 0 <= i < |again| ==> again[i] in corpora
    ensures CentralSearch(corpora, nodes + again, limit) == CentralSearch(corpora, nodes, limit) <==>
            forall h :: h in Flatten(Holdings(corpora, again)) ==>
              |AtOrBefore(HitLeq, Flatten(Holdings(corpora, nodes)), h)| >= limit
  {
    HitOrder();
    assert Holdings(corpora, nodes + again) == Holdings(corpora, nodes) + Holdings(corpora, again);
    FlattenConcat(Holdings(corpora, nodes), Holdings(corpora, again));
    ExtrasHidden(HitLeq, Flatten(Holdings(corpora, nodes)), Flatten(Holdings(corpora, again)), limit);
  }
}
