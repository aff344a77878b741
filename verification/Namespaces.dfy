// One root namespace over its whole life: any history of writes and index builds, and the queries
// against it. Concurrent steps are the business of the protocol modules; here each call is whole.

module Namespaces {
  import opened Types
  import opened KMeans
  import opened Epoch
  import opened IndexBuild
  import opened CentroidTree
  import opened Filters
  import opened AttributeIndex
  import opened Ranking
  import opened Query
  import Bm25
  import T = TextQueries

  type Segment = seq<Document>

  // The operations of a run of segments, in log order.
  function Ops(segs: seq<Segment>): seq<Document>
    decreases |segs|
  {
    if segs == [] then [] else Ops(segs[..|segs| - 1]) + segs[|segs| - 1]
  }

  lemma {:induction false} OpsSplit(segs: seq<Segment>, n: nat)
    requires n <= |segs|
    ensures Ops(segs) == Ops(segs[..n]) + Ops(segs[n..])
    decreases |segs| - n
  {
    if n == |segs| {
      assert segs[..n] == segs && segs[n..] == [];
    } else {
      var p := segs[..|segs| - 1];
      OpsSplit(p, n);
      assert p[..n] == segs[..n] && p[n..] == segs[n..][..|segs| - n - 1];
      assert segs[n..][|segs| - n - 1] == segs[|segs| - 1];
    }
  }

  // Folds the segments [from, upTo) in order, last writer wins.
  method MaterializeLiveAndDeleted(segs: seq<Segment>, from: nat, upTo: nat) returns (live: Live, deleted: set<string>)
    requires from <= upTo <= |segs|
    ensures View(live, deleted) == Fold(EmptyView, Ops(segs[from..upTo]))
  {
    live, deleted := map[], {};
    var n := from;
    while n < upTo
      invariant from <= n <= upTo && View(live, deleted) == Fold(EmptyView, Ops(segs[from..n]))
    {
      live, deleted := FoldSegment(segs[n], live, deleted);
      assert segs[from..n + 1][..n - from] == segs[from..n];
      FoldAppend(EmptyView, Ops(segs[from..n]), segs[n]);
      n := n + 1;
    }
  }

  method FoldSegment(ops: Segment, live0: Live, deleted0: set<string>) returns (live: Live, deleted: set<string>)
    ensures View(live, deleted) == Fold(View(live0, deleted0), ops)
  {
    live, deleted := live0, deleted0;
    var i := 0;
    while i < |ops|
      invariant i <= |ops| && View(live, deleted) == Fold(View(live0, deleted0), ops[..i])
    {
      var op := ops[i];
      assert ops[..i + 1] == ops[..i] + [op];
      FoldAppend(View(live0, deleted0), ops[..i], [op]);
      assert [op][1..] == [];
      if op.deleted {
        live := live - {op.id};
        deleted := deleted + {op.id};
      } else {
        live := live[op.id := op];
        deleted := deleted - {op.id};
      }
      i := i + 1;
    }
    assert ops[..|ops|] == ops;
  }

  predicate ValidDocs(dim: nat, docs: Segment) {
    forall i | 0 <= i < |docs| :: docs[i].vector.Some? ==> |docs[i].vector.value| == dim
  }

  class Namespace {
    const dist: Dist
    const fmt: Format
    const dimension: nat
    const textField: string
    const tok: Bm25.Analyzer
    const ln: Bm25.Log
    var segments: seq<Segment>
    var indexedUpTo: nat
    var index: Option<IndexEpoch>
    var clusterOf: map<string, nat>
    var bm25: Option<Bm25.Bm25File>
    var docs: map<string, Attrs>

    // What the index covers, and what is live now.
    ghost function Base(): Live
      reads this
      requires indexedUpTo <= |segments|
    {
      Fold(EmptyView, Ops(segments[..indexedUpTo])).live
    }

    ghost function LiveNow(): Live
      reads this
    {
      Fold(EmptyView, Ops(segments)).live
    }

    function Where(): Setting
      reads this
    {
      Setting(fmt, textField, clusterOf)
    }

    ghost predicate Valid()
      reads this
    {
      && NonNegative(dist) && Injective(fmt) && Bm25.PositiveAboveOne(ln)
      && indexedUpTo <= |segments|
      && (if index.None? then indexedUpTo == 0 else IndexOk(Where(), index.value, Base()) && Complete(dist, index.value))
      && TextIndexOk()
    }

    // A namespace with a text field has a text index and stored attributes over the same documents
    // as the vector index.
    ghost predicate TextIndexOk()
      reads this
      requires indexedUpTo <= |segments|
    {
      && (index.None? ==> bm25.None?)
      && (index.Some? && textField != "" ==> bm25.Some? && Bm25.Indexes(tok, Bm25.TextsOf(Base(), textField), bm25.value) && docs == T.AttrsOf(Base()))
    }

    constructor (dist: Dist, fmt: Format, dimension: nat, textField: string, tok: Bm25.Analyzer, ln: Bm25.Log)
      requires NonNegative(dist) && Injective(fmt) && Bm25.PositiveAboveOne(ln)
      ensures Valid() && segments == [] && index.None? && this.dimension == dimension && this.dist == dist
    {
      this.dist, this.fmt, this.dimension, this.textField := dist, fmt, dimension, textField;
      this.tok, this.ln := tok, ln;
      segments, indexedUpTo, index, clusterOf, bm25, docs := [], 0, None, map[], None, map[];
    }

    // Appends the batch as one segment, unless it is empty or holds a vector of the wrong length.
    method Upsert(docs: Segment) returns (ok: bool)
      requires Valid()
      modifies this`segments
      ensures Valid() && Base() == old(Base())
      ensures ok <==> docs == [] || ValidDocs(dimension, docs)
      ensures segments == if ok && docs != [] then old(segments) + [docs] else old(segments)
    {
      hide IndexOk, Complete, NonNegative, Injective, Fold, Bm25.Indexes, Bm25.PositiveAboveOne;
      if |docs| == 0 {
        return true;
      }
      var i := 0;
      while i < |docs|
        invariant i <= |docs| && segments == old(segments)
        invariant forall j | 0 <= j < i :: docs[j].vector.Some? ==> |docs[j].vector.value| == dimension
      {
        if docs[i].vector.Some? && |docs[i].vector.value| != dimension {
          return false;
        }
        i := i + 1;
      }
      segments := segments + [docs];
      assert segments[..indexedUpTo] == old(segments)[..indexedUpTo];
      ok := true;
    }

    // Folds the whole log and publishes a fresh epoch, carrying the previous one forward.
    method BuildIndex()
      requires Valid()
      modifies this`indexedUpTo, this`index, this`clusterOf, this`bm25, this`docs
      ensures Valid() && index.Some? && indexedUpTo == |segments| && Base() == LiveNow()
      ensures ClustersFrom(dist, if old(index).Some? then Some(old(index).value.clusters) else None, LiveNow(), index.value.clusters)
    {
      hide IndexOk, Complete, ClustersFrom, NonNegative, Injective, Fold, Bm25.Indexes, Bm25.PositiveAboveOne;
      var walUpTo := |segments|;
      assert segments[0..walUpTo] == segments && segments[..walUpTo] == segments;
      var live, _ := MaterializeLiveAndDeleted(segments, 0, walUpTo);
      var prev: Option<seq<Clustered>> := None;
      if index.Some? {
        PrevUnique(Where(), index.value, Base());
        prev := Some(index.value.clusters);
      }
      var ix, places := BuildEpoch(dist, fmt, textField, prev, live);
      if textField != "" {
        var idx := Bm25.BuildBM25(tok, Bm25.TextsOf(live, textField));
        bm25 := Some(idx);
      } else {
        bm25 := None;
      }
      docs := T.AttrsOf(live);
      index, indexedUpTo, clusterOf := Some(ix), walUpTo, places;
    }

    // Any query, after any history. The hits ranked are the matches live now that were written since
    // the last build or picked from the index; when the answer must be exact they are all matches.
    method RunQuery(q: Vector, f: Filter, nProbe: int, topK: int, score: Prefilter)
      returns (ok: bool, results: seq<Hit>, ghost considered: set<Hit>, ghost picked: set<string>)
      requires Valid() && nProbe < 0x8000_0000_0000_0000 && topK < 0x8000_0000_0000_0000
      ensures ok <==> |q| == dimension && !(index.Some? && Panics(Where(), f, EffectiveTopK(topK), index.value, Base()))
      ensures ok ==> IsTopK(results, considered, EffectiveTopK(topK)) && considered <= Matching(dist, q, f, LiveNow())
      ensures ok ==> forall h | h in Matching(dist, q, f, LiveNow()) ::
                h in considered <==> WrittenIn(segments[indexedUpTo..], h.id) || h.id in picked
      ensures ok ==> if index.None? then picked == {}
                     else Picked(dist, q, Where(), f, index.value, Base(), EffectiveNProbe(nProbe), EffectiveTopK(topK), score, picked)
      ensures ok && Exact(Where(), f, EffectiveNProbe(nProbe), EffectiveTopK(topK), index, Base()) ==>
                considered == Matching(dist, q, f, LiveNow())
      ensures index.Some? && SelectiveFilter(textField, f, Base()) ==>
                (ok <==> |q| == dimension) && (ok ==> considered == Matching(dist, q, f, LiveNow()))
    {
      hide Picked, SelectiveFilter, Complete, IndexOk, NonNegative, Injective, Exact, Panics, Matching, IsTopK, Bm25.Indexes, Bm25.PositiveAboveOne;
      var live, deleted := MaterializeLiveAndDeleted(segments, indexedUpTo, |segments|);
      var tail := View(live, deleted);
      assert segments[indexedUpTo..|segments|] == segments[indexedUpTo..];
      TailFold(segments, indexedUpTo);
      ghost var base := Base();
      if index.None? { assert segments[..0] == []; }
      ok, results, considered, picked := RunVectorQuery(dist, q, dimension, Where(), f, index, base, tail, nProbe, topK, score);
      if index.Some? && SelectiveFilter(textField, f, base) {
        SelectiveIsExact(dist, Where(), f, EffectiveNProbe(nProbe), EffectiveTopK(topK), index.value, base);
      }
      assert Overlay(base, tail) == LiveNow();
      TailHas(segments, indexedUpTo, tail);
      if ok {
        forall h | h in Matching(dist, q, f, LiveNow())
          ensures h in considered <==> WrittenIn(segments[indexedUpTo..], h.id) || h.id in picked
        {
          MatchingLive(dist, q, f, LiveNow(), h);
        }
      }
    }

    // A text query, after any history: the top matches among the live documents whose newest text
    // holds a query term, scored against the statistics of the index as it stands.
    method TextQuery(text: string, f: Filter, topK: int) returns (ok: bool, results: seq<Hit>)
      requires Valid()
      ensures ok <==> textField != ""
      ensures ok ==> IsTopK(results, T.TextMatching(T.Search(ln, tok, textField, tok(text)), T.StatsOf(bm25), f, LiveNow()), EffectiveTopK(topK))
    {
      hide IndexOk, Complete, NonNegative, Injective, IsTopK, Bm25.Indexes, Bm25.PositiveAboveOne, T.TextMatching;
      var live, deleted := MaterializeLiveAndDeleted(segments, indexedUpTo, |segments|);
      assert segments[indexedUpTo..|segments|] == segments[indexedUpTo..];
      TailFold(segments, indexedUpTo);
      if index.None? { assert segments[..0] == []; }
      ok, results := T.RunBM25Query(ln, tok, textField, bm25, docs, Base(), View(live, deleted), text, f, topK);
    }
  }

  // Some operation of these segments is on the id.
  ghost predicate WrittenIn(segs: seq<Segment>, id: string) {
    exists k :: 0 <= k < |Ops(segs)| && Ops(segs)[k].id == id
  }

  lemma {:induction false} MatchingLive(d: Dist, q: Vector, f: Filter, live: Live, h: Hit)
    requires h in Matching(d, q, f, live)
    ensures h.id in live
  {
  }

  // The index under the tail is the whole log.
  lemma {:induction false} TailFold(segs: seq<Segment>, n: nat)
    requires n <= |segs|
    ensures var tail := Fold(EmptyView, Ops(segs[n..]));
            ViewOk(tail) && Overlay(Fold(EmptyView, Ops(segs[..n])).live, tail) == Fold(EmptyView, Ops(segs)).live
  {
    var head := Fold(EmptyView, Ops(segs[..n]));
    FoldKeepsViewOk(EmptyView, Ops(segs[..n]));
    FoldKeepsViewOk(EmptyView, Ops(segs[n..]));
    OverlayIsFold(head.live, head, EmptyView, Ops(segs[n..]));
    OpsSplit(segs, n);
    FoldAppend(EmptyView, Ops(segs[..n]), Ops(segs[n..]));
  }

  // A live id is in the tail's documents if and only if it was written in the tail.
  lemma {:induction false} TailHas(segs: seq<Segment>, n: nat, tail: View)
    requires n <= |segs| && tail == Fold(EmptyView, Ops(segs[n..]))
    ensures forall id | id in Fold(EmptyView, Ops(segs)).live :: id in tail.live <==> WrittenIn(segs[n..], id)
  {
    hide Fold;
    TailFold(segs, n);
    forall id | id in Fold(EmptyView, Ops(segs)).live ensures id in tail.live <==> WrittenIn(segs[n..], id) {
      if WrittenIn(segs[n..], id) { WrittenFolds(EmptyView, Ops(segs[n..]), id); }
      if id in tail.live { FoldsWritten(EmptyView, Ops(segs[n..]), id); }
    }
  }

  lemma {:induction false} FoldsWritten(v: View, ops: seq<Document>, id: string)
    requires id in Fold(v, ops).live && id !in v.live
    ensures exists k :: 0 <= k < |ops| && ops[k].id == id
  {
    if forall k | 0 <= k < |ops| :: ops[k].id != id {
      FoldUntouched(v, ops, id);
    }
  }

  lemma {:induction false} WrittenFolds(v: View, ops: seq<Document>, id: string)
    requires exists k :: 0 <= k < |ops| && ops[k].id == id
    ensures id in Fold(v, ops).live || id in Fold(v, ops).deleted
  {
    var k := LastOn(ops, id);
    LastWriterWins(v, ops, k, id);
  }

  lemma {:induction false} LastOn(ops: seq<Document>, id: string) returns (k: nat)
    requires exists k :: 0 <= k < |ops| && ops[k].id == id
    ensures LastOp(ops, k, id)
    decreases |ops|
  {
    var n := |ops| - 1;
    if ops[n].id == id {
      k := n;
    } else {
      var j :| 0 <= j < |ops| && ops[j].id == id;
      assert ops[..n][j].id == id;
      k := LastOn(ops[..n], id);
      forall j | k < j < |ops| ensures ops[j].id != id {
        if j < n { assert ops[..n][j].id != id; }
      }
    }
  }

  lemma {:induction false} PrevUnique(s: Setting, ix: IndexEpoch, base: Live)
    requires IndexOk(s, ix, base)
    ensures UniqueMembers(ix.clusters)
  {
  }

  // The clusters of an epoch: none without vectors, and otherwise those clustering the live vectors
  // publishes, carried forward from the previous epoch's if there were any.
  ghost predicate ClustersFrom(d: Dist, prev: Option<seq<Clustered>>, live: Live, clusters: seq<Clustered>) {
    if forall id | id in live :: live[id].vector.None? then clusters == [] else PublishedFrom(d, prev, live, clusters)
  }

  // Builds every object of an epoch over a set of live documents.
  method BuildEpoch(d: Dist, fmt: Format, textField: string, prev: Option<seq<Clustered>>, live: Live)
    returns (ix: IndexEpoch, clusterOf: map<string, nat>)
    requires NonNegative(d) && Injective(fmt) && (prev.Some? ==> UniqueMembers(prev.value))
    ensures IndexOk(Setting(fmt, textField, clusterOf), ix, live) && Complete(d, ix)
    ensures ClustersFrom(d, prev, live, ix.clusters)
  {
    hide EpochOk, ClusterOfOk, AttrIndexOk, UniqueMembers, NonNegative, Injective, LeafBag, UpTo, PublishedFrom, Grown, MeanVec;
    var ids := AssignOrdinals(live);
    var clusters;
    clusters, clusterOf := BuildVectorIndex(d, prev, live);
    var centroids := CentroidsOf(clusters);
    var tree := BuildTree(d, centroids, TREE_FANOUT, TREE_LEAF_CAPACITY);
    var af := BuildAttributeIndex(fmt, textField, live, ids, clusterOf);
    ix := IndexEpoch(clusters, tree, Some(af));
  }
}
