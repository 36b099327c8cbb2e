/** Search jobs of the queue: what their merged hits are, and when a node is searched twice. */
module SearchJobs {
  import opened Contracts
  import opened Ordering
  import opened Queue
  import opened QueueRuns
  import opened Search
  import opened TopK
  import QueueExamples

  /** Job `j` at the end of a run is a search job that is done, and its shards' replies are `replies`:
      each node's own best `cut` documents. */
  ghost predicate Answered(s: State, j: nat, corpora: Corpora, replies: seq<Reply>, cut: nat) {
    && j < |s.jobs| && s.jobs[j].status == Done && s.jobs[j].kind == Kind.Search
    && AnswersFrom(corpora, ResultNodes(s.jobs[j]), replies, cut)
  }

  /** Over every run, the merged hits of a done search job are the central search of the nodes its
      results came from. If none of its shards was reassigned, those are exactly the nodes it was
      given, each searched once. */
  lemma {:induction false} SearchJobIsCentral(limit: nat, acts: seq<Action>, j: nat,
                                              corpora: Corpora, replies: seq<Reply>, cut: nat)
    requires Runnable(Init(limit), acts) && Answered(Run(Init(limit), acts), j, corpora, replies, cut)
    ensures var s := Run(Init(limit), acts);
            && Top(HitLeq, AllHits(replies), cut) == CentralSearch(corpora, ResultNodes(s.jobs[j]), cut)
            && (s.jobs[j].pinned.None? && NeverMoved(s, j) ==>
                  Distinct(s.jobs[j].selected) && ResultNodes(s.jobs[j]) == s.jobs[j].selected)
  {
    var s := Run(Init(limit), acts);
    DistributedIsCentral(corpora, ResultNodes(s.jobs[j]), replies, cut);
    if s.jobs[j].pinned.None? { GivenNodesUnlessReassigned(limit, acts, j); }
  }

  /** The nodes of a list, each at its first place. */
  function Firsts(nodes: seq<string>): seq<string> {
    if nodes == [] then []
    else
      var n := |nodes| - 1;
      var rest := Firsts(nodes[..n]);
      if nodes[n] in rest then rest else rest + [nodes[n]]
  }

  /** What is left of a list without those: the places where a node comes up again. */
  function Repeats(nodes: seq<string>): seq<string> {
    if nodes == [] then []
    else
      var n := |nodes| - 1;
      var rest := Repeats(nodes[..n]);
      if nodes[n] in Firsts(nodes[..n]) then rest + [nodes[n]] else rest
  }

  lemma {:induction false} FirstsDistinct(nodes: seq<string>)
    ensures Distinct(Firsts(nodes)) && forall x :: x in Firsts(nodes) <==> x in nodes
  {
    if nodes != [] {
      var n := |nodes| - 1;
      FirstsDistinct(nodes[..n]);
      assert nodes == nodes[..n] + [nodes[n]];
    }
  }

  lemma {:induction false} FirstsAndRepeats(nodes: seq<string>)
    ensures forall i :: 0 <= i < |Repeats(nodes)| ==> Repeats(nodes)[i] in Firsts(nodes)
    ensures multiset(nodes) == multiset(Firsts(nodes) + Repeats(nodes))
  {
    if nodes != [] {
      var n := |nodes| - 1;
      FirstsAndRepeats(nodes[..n]);
      assert nodes == nodes[..n] + [nodes[n]];
    }
  }

  /** Exactly when the merged hits of a done search job are the central search of its result nodes, each
      searched once: every hit of a node that answered again already has `cut` hits at or before it. */
  lemma {:induction false} SearchJobExact(limit: nat, acts: seq<Action>, j: nat,
                                          corpora: Corpora, replies: seq<Reply>, cut: nat)
    requires Runnable(Init(limit), acts) && Answered(Run(Init(limit), acts), j, corpora, replies, cut)
    ensures var nodes := ResultNodes(Run(Init(limit), acts).jobs[j]);
            var once, again := Firsts(nodes), Repeats(nodes);
            && Distinct(once) && (forall x :: x in once <==> x in nodes)
            && Held(corpora, once) && Held(corpora, again)
            && (Top(HitLeq, AllHits(replies), cut) == CentralSearch(corpora, once, cut) <==>
                forall h :: h in Flatten(Holdings(corpora, again)) ==>
                  |AtOrBefore(HitLeq, Flatten(Holdings(corpora, once)), h)| >= cut)
  {
    var nodes := ResultNodes(Run(Init(limit), acts).jobs[j]);
    DistributedIsCentral(corpora, nodes, replies, cut);
    RepeatsExact(corpora, nodes, cut);
  }

  ghost predicate Held(corpora: Corpora, nodes: seq<string>) {
    forall i :: 0 <= i < |nodes| ==> nodes[i] in corpora
  }

  lemma {:induction false} RepeatsExact(corpora: Corpora, nodes: seq<string>, cut: nat)
    requires Held(corpora, nodes)
    ensures var once, again := Firsts(nodes), Repeats(nodes);
            && Distinct(once) && (forall x :: x in once <==> x in nodes)
            && Held(corpora, once) && Held(corpora, again)
            && (CentralSearch(corpora, nodes, cut) == CentralSearch(corpora, once, cut) <==>
                forall h :: h in Flatten(Holdings(corpora, again)) ==>
                  |AtOrBefore(HitLeq, Flatten(Holdings(corpora, once)), h)| >= cut)
  {
    var once, again := Firsts(nodes), Repeats(nodes);
    FirstsDistinct(nodes);
    FirstsAndRepeats(nodes);
    forall i | 0 <= i < |once| ensures once[i] in corpora {
      assert once[i] in nodes;
      var k :| 0 <= k < |nodes| && nodes[k] == once[i];
    }
    CentralUnordered(corpora, nodes, once + again, cut);
    RepeatsHarmless(corpora, once, again, cut);
  }

  /** A run in which it is not so: both shards of a search job end on node `a`, whose one document is
      then listed twice, although a central search of the two nodes lists it once. */
  lemma {:induction false} SearchJobMayListTwice(a: string, b: string, doc: Doc, cut: nat)
    returns (acts: seq<Action>, replies: seq<Reply>)
    requires StrLess(a, b) && cut >= 2
    ensures var corpora: Corpora, hit := map[a := [doc], b := []], Hit(doc.score, a, doc.path);
            && Runnable(Init(1), acts) && Answered(Run(Init(1), acts), 0, corpora, replies, cut)
            && Top(HitLeq, AllHits(replies), cut) == [hit, hit]
            && Run(Init(1), acts).jobs[0].selected == [a, b]
            && CentralSearch(corpora, [a, b], cut) == [hit]
  {
    StrIrreflexive(a);
    acts := QueueExamples.SearchMayRepeatNode(a, b);
    var corpora: Corpora, hit := map[a := [doc], b := []], Hit(doc.score, a, doc.path);
    var reply := Reply(a, None, [Some(doc)]);
    replies := [reply, reply];
    OneDoc(doc, cut);
    TwiceMerged(a, doc, cut);
    assert AnswersFrom(corpora, [a, a], replies, cut);
    OnceCentral(a, b, doc, cut);
  }

  lemma {:induction false} OneDoc(doc: Doc, cut: nat)
    requires cut >= 1
    ensures WellFormed([Some(doc)]) == [doc] && Top(DocLeq, [doc], cut) == [doc]
  {
    assert [Some(doc)][..0] == [];
    assert Sort(DocLeq, [doc]) == [doc];
  }

  lemma {:induction false} TwiceMerged(a: string, doc: Doc, cut: nat)
    requires cut >= 2
    ensures var reply, hit := Reply(a, None, [Some(doc)]), Hit(doc.score, a, doc.path);
            Top(HitLeq, AllHits([reply, reply]), cut) == [hit, hit]
  {
    TwoReplies(a, doc, cut);
    SortTwo(Hit(doc.score, a, doc.path));
  }

  lemma {:induction false} HitsOfNone()
    ensures AllHits([]) == []
  {
  }

  lemma {:induction false} MergeTagged(replies: seq<Reply>, reply: Reply, tagged: seq<Hit>)
    requires Tag(reply.node, WellFormed(reply.hits)) == tagged
    ensures AllHits(replies + [reply]) == AllHits(replies) + tagged
  {
    MergeStep(replies, reply);
  }

  lemma {:induction false} HitsOfTwo(x: Reply, tagged: seq<Hit>)
    requires Tag(x.node, WellFormed(x.hits)) == tagged
    ensures AllHits([] + [x] + [x]) == tagged + tagged
  {
    MergeTagged([], x, tagged);
    MergeTagged([] + [x], x, tagged);
    HitsOfNone();
    assert [] + tagged == tagged;
  }

  lemma {:induction false} TagOne(node: string, doc: Doc)
    ensures Tag(node, [doc]) == [Hit(doc.score, node, doc.path)]
  {
  }

  lemma {:induction false} TwoReplies(a: string, doc: Doc, cut: nat)
    requires cut >= 2
    ensures var reply, hit := Reply(a, None, [Some(doc)]), Hit(doc.score, a, doc.path);
            AllHits([reply, reply]) == [hit, hit]
  {
    var reply, hit := Reply(a, None, [Some(doc)]), Hit(doc.score, a, doc.path);
    OneDoc(doc, cut);
    TagOne(a, doc);
    HitsOfTwo(reply, [hit]);
    assert [] + [reply] + [reply] == [reply, reply] && [hit] + [hit] == [hit, hit];
  }

  lemma {:induction false} SortTwo(hit: Hit)
    ensures Sort(HitLeq, [hit, hit]) == [hit, hit]
  {
    assert [hit, hit][1..] == [hit] && [hit][1..] == [];
    assert Sort(HitLeq, [hit]) == [hit];
  }

  lemma {:induction false} OnceCentral(a: string, b: string, doc: Doc, cut: nat)
    requires a != b && cut >= 1
    ensures var corpora: Corpora := map[a := [doc], b := []];
            CentralSearch(corpora, [a, b], cut) == [Hit(doc.score, a, doc.path)]
  {
    var corpora: Corpora, hit := map[a := [doc], b := []], Hit(doc.score, a, doc.path);
    assert Tag(a, [doc]) == [hit] && Tag(b, []) == [];
    assert Holdings(corpora, [a, b]) == [[hit], []];
    assert Flatten([[hit], []]) == [hit] + Flatten([[]]) && Flatten([[]]) == [] + Flatten<Hit>([]);
    assert Sort(HitLeq, [hit]) == [hit];
  }
}
