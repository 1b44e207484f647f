/** The in-memory vector store: upsert and delete by id, search by cosine similarity. */
module VectorStore {
  import opened Cosine
  import opened CosineMeaning
  import opened Maybe
  import opened StableSort

  datatype VectorDocument = VectorDocument(id: string, source: string, content: string, embedding: Vector)

  datatype Scored = Scored(score: real, doc: VectorDocument)

  /** sort(key=score, reverse=True) keeps equal scores in their order. */
  predicate Ahead(a: Scored, b: Scored) {
    a.score >= b.score
  }

  /** An empty source does not filter. */
  predicate Passes(d: VectorDocument, source: Option<string>) {
    source.None? || source.value == "" || d.source == source.value
  }

  function Candidates(docs: seq<VectorDocument>, source: Option<string>): (r: seq<VectorDocument>) {
    if docs == [] then []
    else (if Passes(docs[0], source) then [docs[0]] else []) + Candidates(docs[1..], source)
  }

  function Score(query: Vector, docs: seq<VectorDocument>, root: real -> real): (r: seq<Scored>)
    ensures |r| == |docs|
    ensures forall i :: 0 <= i < |docs| ==> r[i] == Scored(Similarity(query, docs[i].embedding, root), docs[i])
  {
    seq(|docs|, i requires 0 <= i < |docs| => Scored(Similarity(query, docs[i].embedding, root), docs[i]))
  }

  function Ranked(query: Vector, docs: seq<VectorDocument>, source: Option<string>, root: real -> real): seq<Scored> {
    Sort(Ahead, Score(query, Candidates(docs, source), root))
  }

  function Min(a: int, b: int): int {
    if a < b then a else b
  }

  function Max(a: int, b: int): int {
    if a > b then a else b
  }

  /** scored[:k]: a negative k drops from the end. */
  function FirstOf<T>(s: seq<T>, k: int): (r: seq<T>)
    ensures r <= s && |r| == Min(|s|, Max(0, if k < 0 then |s| + k else k))
  {
    if k >= 0 then (if k <= |s| then s[..k] else s)
    else if -k <= |s| then s[..|s| + k]
    else []
  }

  function Docs(s: seq<Scored>): (r: seq<VectorDocument>)
    ensures |r| == |s| && forall i :: 0 <= i < |s| ==> r[i] == s[i].doc
  {
    seq(|s|, i requires 0 <= i < |s| => s[i].doc)
  }

  function Position(docs: seq<VectorDocument>, id: string): (i: nat)
    ensures i <= |docs|
    ensures i < |docs| ==> docs[i].id == id
    ensures forall j :: 0 <= j < i ==> docs[j].id != id
  {
    if docs == [] || docs[0].id == id then 0 else 1 + Position(docs[1..], id)
  }

  predicate DistinctIds(docs: seq<VectorDocument>) {
    forall i, j :: 0 <= i < j < |docs| ==> docs[i].id != docs[j].id
  }

  class InMemoryVectorStore {
    /** The dict by insertion order; an update keeps its place. */
    var docs: seq<VectorDocument>

    constructor ()
      ensures docs == []
    {
      docs := [];
    }

    method Upsert(doc: VectorDocument) returns (id: string)
      requires DistinctIds(docs)
      modifies this
      ensures DistinctIds(docs) && id == doc.id
      ensures var i := Position(old(docs), doc.id);
        docs == if i < |old(docs)| then old(docs)[i := doc] else old(docs) + [doc]
    {
      var i := Position(docs, doc.id);
      docs := if i < |docs| then docs[i := doc] else docs + [doc];
      return doc.id;
    }

    method Delete(id: string)
      requires DistinctIds(docs)
      modifies this
      ensures DistinctIds(docs)
      ensures var i := Position(old(docs), id);
        docs == if i < |old(docs)| then old(docs)[..i] + old(docs)[i + 1..] else old(docs)
      ensures forall d :: d in docs <==> d in old(docs) && d.id != id
    {
      var i := Position(docs, id);
      if i < |docs| {
        ghost var before := docs;
        docs := docs[..i] + docs[i + 1..];
        forall d ensures d in docs <==> d in before && d.id != id {
          if d in before && d.id != id {
            var j :| 0 <= j < |before| && before[j] == d;
            assert docs[if j < i then j else j - 1] == d;
          }
        }
      }
    }

    method Search(query: Vector, k: int, source: Option<string>, root: real -> real) returns (found: seq<VectorDocument>)
      ensures found == Docs(FirstOf(Ranked(query, docs, source, root), k))
    {
      var scored := Score(query, Candidates(docs, source), root);
      scored := Sort(Ahead, scored);
      found := Docs(FirstOf(scored, k));
    }
  }

  lemma AheadIsTotal()
    ensures TotalPreorder(Ahead)
  {
  }

  lemma {:induction false} CandidatesMatch(docs: seq<VectorDocument>, source: Option<string>, d: VectorDocument)
    ensures d in Candidates(docs, source)
       <==> d in docs && (source.None? || source.value == "" || d.source == source.value)
  {
    if docs != [] {
      CandidatesMatch(docs[1..], source, d);
    }
  }

  /** The positions of the documents that pass, one after the other. */
  predicate Increasing(at: seq<nat>, bound: nat) {
    (forall i :: 0 <= i < |at| ==> at[i] < bound) && forall i, j :: 0 <= i < j < |at| ==> at[i] < at[j]
  }

  lemma {:induction false} FirstCandidate(docs: seq<VectorDocument>, source: Option<string>)
    requires docs != []
    ensures Candidates(docs, source) == (if Passes(docs[0], source) then [docs[0]] else []) + Candidates(docs[1..], source)
  {
  }

  lemma {:induction false} OneMoreCandidate(docs: seq<VectorDocument>, d: VectorDocument, source: Option<string>)
    ensures Candidates(docs + [d], source) == Candidates(docs, source) + (if Passes(d, source) then [d] else [])
  {
    hide Passes;
    if docs == [] {
      assert [] + [d] == [d];
      assert [d][1..] == [];
    } else {
      var more := docs + [d];
      assert more[0] == docs[0] && more[1..] == docs[1..] + [d];
      OneMoreCandidate(docs[1..], d, source);
      FirstCandidate(docs, source);
      FirstCandidate(more, source);
      hide Candidates;
    }
  }

  lemma OneMorePosition(at: seq<nat>, n: nat)
    requires Increasing(at, n)
    ensures Increasing(at + [n], n + 1) && Increasing(at, n + 1)
    ensures forall j: nat :: j in at + [n] <==> j in at || j == n
    ensures n !in at
  {
  }

  /** The positions are those of the documents that pass. */
  ghost predicate PassingAt(docs: seq<VectorDocument>, source: Option<string>, at: seq<nat>) {
    forall j: nat :: j < |docs| ==> (j in at <==> Passes(docs[j], source))
  }

  lemma OneMorePasses(docs: seq<VectorDocument>, d: VectorDocument, source: Option<string>, at: seq<nat>, more: seq<nat>)
    requires Increasing(at, |docs|) && PassingAt(docs, source, at)
    requires more == if Passes(d, source) then at + [|docs|] else at
    ensures Increasing(more, |docs| + 1) && PassingAt(docs + [d], source, more)
  {
    hide Passes;
    OneMorePosition(at, |docs|);
    hide Increasing;
  }

  /** The candidates are the documents at these positions. */
  ghost predicate CandidatesAt(docs: seq<VectorDocument>, source: Option<string>, at: seq<nat>) {
    && |at| == |Candidates(docs, source)|
    && forall i :: 0 <= i < |at| ==> at[i] < |docs| && Candidates(docs, source)[i] == docs[at[i]]
  }

  lemma OneMoreFound(docs: seq<VectorDocument>, d: VectorDocument, source: Option<string>, at: seq<nat>, more: seq<nat>)
    requires CandidatesAt(docs, source, at)
    requires more == if Passes(d, source) then at + [|docs|] else at
    ensures CandidatesAt(docs + [d], source, more)
  {
    hide Passes;
    OneMoreCandidate(docs, d, source);
    hide Candidates;
  }

  /** The candidates are the documents that pass the filter, each once and in order of insertion. */
  lemma {:induction false} CandidatesInOrder(docs: seq<VectorDocument>, source: Option<string>) returns (at: seq<nat>)
    ensures Increasing(at, |docs|) && PassingAt(docs, source, at) && CandidatesAt(docs, source, at)
  {
    hide Passes;
    if docs == [] {
      at := [];
    } else {
      hide Increasing, PassingAt, CandidatesAt;
      var before, last := docs[..|docs| - 1], docs[|docs| - 1];
      assert docs == before + [last];
      var sooner := CandidatesInOrder(before, source);
      at := if Passes(last, source) then sooner + [|before|] else sooner;
      OneMorePasses(before, last, source, sooner, at);
      OneMoreFound(before, last, source, sooner, at);
    }
  }

  /** The ranking holds every candidate with its score, best first, equal scores in order of insertion. */
  lemma RankedMeaning(query: Vector, docs: seq<VectorDocument>, source: Option<string>, root: real -> real)
    ensures var r, c := Ranked(query, docs, source, root), Candidates(docs, source);
      && multiset(r) == multiset(Score(query, c, root))
      && |r| == |c|
      && Ordered(Ahead, r)
      && (forall s :: s in r ==> s.doc in c && s.score == Similarity(query, s.doc.embedding, root))
      && (forall s :: Ties(Ahead, r, s) == Ties(Ahead, Score(query, c, root), s))
  {
    var scored := Score(query, Candidates(docs, source), root);
    AheadIsTotal();
    SortIsStable(Ahead, scored);
    SameElements(scored, Sort(Ahead, scored));
  }

  /**
   For k >= 0: min(k, matches) documents, each passing the filter, by falling similarity, and none of
   the documents left out is more similar than one returned.
   */
  lemma SearchIsTopK(query: Vector, docs: seq<VectorDocument>, source: Option<string>, root: real -> real, k: nat)
    ensures var r, c := Ranked(query, docs, source, root), Candidates(docs, source);
      var found, rest := FirstOf(r, k), r[|FirstOf(r, k)|..];
      && |found| == (if k < |c| then k else |c|)
      && multiset(found) + multiset(rest) == multiset(Score(query, c, root))
      && (forall s :: s in found ==> s.doc in c && s.score == Similarity(query, s.doc.embedding, root))
      && Ordered(Ahead, found)
      && (forall s, o :: s in found && o in rest ==> o.score <= s.score)
  {
    RankedMeaning(query, docs, source, root);
    var r := Ranked(query, docs, source, root);
    hide Ranked, Ties, Similarity, Candidates, Score;
    var found := FirstOf(r, k);
    assert r == found + r[|found|..];
    assert forall s :: s in found ==> s in r;
  }

  lemma ScoresOf(query: Vector, docs: seq<VectorDocument>, source: Option<string>, root: real -> real, k: nat, s: Scored)
    requires var r := Ranked(query, docs, source, root); s in FirstOf(r, k) || s in r[|FirstOf(r, k)|..]
    ensures s.doc in docs && s.doc in Candidates(docs, source) && s.score == Similarity(query, s.doc.embedding, root)
  {
    var r := Ranked(query, docs, source, root);
    RankedMeaning(query, docs, source, root);
    assert s in r;
    CandidatesMatch(docs, source, s.doc);
    hide Ranked, Ties, Similarity, Candidates, Score;
  }

  /** Over documents of one norm, none left out has a larger dot product with the query than one returned. */
  lemma SearchPrefersAligned(query: Vector, docs: seq<VectorDocument>, source: Option<string>, root: real -> real, k: nat,
                             returned: Scored, left: Scored)
    requires forall d :: d in docs ==> |d.embedding| == |query|
    requires forall d, e :: d in docs && e in docs ==> Dot(d.embedding, d.embedding) == Dot(e.embedding, e.embedding)
    requires var r := Ranked(query, docs, source, root); returned in FirstOf(r, k) && left in r[|FirstOf(r, k)|..]
    ensures returned.doc in docs && left.doc in docs
    ensures Dot(query, left.doc.embedding) <= Dot(query, returned.doc.embedding)
  {
    SearchIsTopK(query, docs, source, root, k);
    ScoresOf(query, docs, source, root, k, returned);
    ScoresOf(query, docs, source, root, k, left);
    hide Ranked, Ties, Similarity, Candidates, Score, Dot, FirstOf;
    EqualNormOrder(query, left.doc.embedding, returned.doc.embedding, root);
  }

  /** A document that points the query's way scores 1, and no other document scores more. */
  lemma AlignedIsBest(query: Vector, docs: seq<VectorDocument>, source: Option<string>, root: real -> real, k: nat, s: Scored, o: Scored)
    requires IsRoot(root)
    requires var r := Ranked(query, docs, source, root); s in r && o in r && SameWay(query, s.doc.embedding)
    ensures s.score == 1.0 >= o.score && (o.score == 1.0 ==> SameWay(query, o.doc.embedding))
  {
    RankedMeaning(query, docs, source, root);
    hide Ranked, Ties, Similarity, Candidates, Score;
    OneExactly(query, s.doc.embedding, root);
    OneExactly(query, o.doc.embedding, root);
    SimilarityBounded(query, o.doc.embedding, root);
  }
}
