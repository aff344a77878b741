// Vector queries: candidates from the index, the log tail laid over them, the filter, the ranking.

module Query {
  import opened Types
  import opened KMeans
  import opened Postings
  import opened Epoch
  import opened IndexBuild
  import opened CentroidTree
  import opened Filters
  import opened AttributeIndex
  import opened Planner
  import opened Ranking
  import opened Sorting
  import Bitmaps
  import Words

  const DEFAULT_NPROBE := 3
  const DEFAULT_TOPK := 10
  const SHORTLIST_MULTIPLIER := 4

  // The objects of one published epoch.
  datatype IndexEpoch = IndexEpoch(clusters: seq<Clustered>, tree: Option<Node>, attrs: Option<AttrsFile>)

  // Everything about the index besides the epoch's own objects that its correctness refers to.
  datatype Setting = Setting(fmt: Format, textField: string, clusterOf: map<string, nat>)

  ghost predicate IndexOk(s: Setting, ix: IndexEpoch, base: Live) {
    && Injective(s.fmt)
    && EpochOk(ix.clusters, base) && ClusterOfOk(ix.clusters, s.clusterOf)
    && (ix.tree.Some? ==> LeafBag(ix.tree.value) == UpTo(|ix.clusters|))
    && (ix.attrs.Some? ==> AttrIndexOk(s.fmt, s.textField, base, s.clusterOf, ix.attrs.value))
  }

  // What a build of this engine always publishes: an attribute index, and a tree over the clusters'
  // centroids exactly if there are two of them or more.
  ghost predicate Complete(d: Dist, ix: IndexEpoch) {
    && ix.attrs.Some?
    && (ix.tree.Some? <==> |ix.clusters| >= 2)
    && (ix.tree.Some? ==>
          && Grown(d, ItemsOf(Centroids(ix.clusters)), TREE_FANOUT, TREE_LEAF_CAPACITY, ix.tree.value)
          && ix.tree.value.centroid == MeanVec(Centroids(ix.clusters)))
  }

  ghost function Centroids(cs: seq<Clustered>): (centroids: seq<Vector>)
    ensures |centroids| == |cs| && forall i | 0 <= i < |cs| :: centroids[i] == cs[i].centroid
  {
    seq(|cs|, (i: int) requires 0 <= i < |cs| => cs[i].centroid)
  }

  // The filter is one the index is made for, and fewer than one document in twenty matches it.
  ghost predicate SelectiveFilter(textField: string, f: Filter, base: Live) {
    Indexable(textField, base, f) && 20 * |set id | id in base && Match(f, base[id].attrs)| < |base|
  }

  // Then the planner goes filter-first: no limit is met, and the answer is exact for every nProbe.
  lemma {:induction false} SelectiveIsExact(d: Dist, s: Setting, f: Filter, nProbe: int, topK: nat, ix: IndexEpoch, base: Live)
    requires IndexOk(s, ix, base) && Complete(d, ix) && SelectiveFilter(s.textField, f, base)
    ensures !Panics(s, f, topK, ix, base) && Exact(s, f, nProbe, topK, Some(ix), base)
  {
    CompilableIff(s.fmt, s.textField, base, s.clusterOf, ix.attrs.value, f);
    SelectiveIs(|MatchingIds(f, base)|, |base|);
    hide EpochOk, ClusterOfOk, AttrIndexOk, Injective, Grown, LeafBag, FullScan, Match, Selective;
    assert MatchingIds(f, base) == set id | id in base && Match(f, base[id].attrs);
    assert GoesFilterFirst(s, f, ix, base);
  }

  ghost function VectorIdSet(live: Live): set<string> {
    set id | id in live && live[id].vector.Some?
  }

  // ---------------------------------------------------------------- candidates

  // The two maps a query fills: candidate distances and their attributes.
  datatype Cands = Cands(dists: map<string, real>, attrs: map<string, Attrs>)

  // Every candidate is a live vector document with its exact distance and its attributes.
  ghost predicate CandsOf(d: Dist, q: Vector, live: Live, c: Cands) {
    && c.dists.Keys == c.attrs.Keys
    && forall id | id in c.dists ::
         id in live && live[id].vector.Some? && c.dists[id] == d(q, live[id].vector.value) && c.attrs[id] == live[id].attrs
  }

  // Every matching live vector document is a candidate.
  ghost predicate CandsAll(f: Filter, live: Live, c: Cands) {
    forall id | id in live && live[id].vector.Some? && Match(f, live[id].attrs) :: id in c.dists
  }

  function Put(d: Dist, q: Vector, c: Cands, e: Entry): Cands {
    Cands(c.dists[e.id := d(q, e.vector)], c.attrs[e.id := e.attrs])
  }

  lemma {:induction false} PutKeeps(d: Dist, q: Vector, live: Live, c: Cands, e: Entry)
    requires CandsOf(d, q, live, c) && FreshCopy(e, live)
    ensures CandsOf(d, q, live, Put(d, q, c, e))
  {
  }

  // ---------------------------------------------------------------- filter-first

  // wanted names, cluster by cluster, the matching documents that live there.
  ghost predicate WantedOk(wanted: map<nat, set<string>>, ords: seq<nat>, af: AttrsFile)
    requires |af.clusterOf| == |af.ords|
  {
    forall c: nat, id :: (c in wanted && id in wanted[c]) <==> Wants(ords, af, c, id)
  }

  ghost predicate Wants(ords: seq<nat>, af: AttrsFile, c: int, id: string)
    requires |af.clusterOf| == |af.ords|
  {
    exists o :: o in ords && 0 <= o < |af.ords| && af.ords[o] == id && af.clusterOf[o] == c
  }

  lemma {:induction false} WantsPush(ords: seq<nat>, af: AttrsFile, ord: nat, c: int, id: string)
    requires |af.clusterOf| == |af.ords|
    ensures Wants(ords + [ord], af, c, id) <==>
              Wants(ords, af, c, id) || (ord < |af.ords| && af.ords[ord] == id && af.clusterOf[ord] == c)
  {
    var more := ords + [ord];
    if Wants(ords, af, c, id) {
      var o :| o in ords && 0 <= o < |af.ords| && af.ords[o] == id && af.clusterOf[o] == c;
      assert o in more;
    }
    if ord < |af.ords| && af.ords[ord] == id && af.clusterOf[ord] == c { assert ord in more; }
  }

  method GroupByCluster(ords: seq<nat>, af: AttrsFile) returns (wanted: map<nat, set<string>>)
    requires |af.clusterOf| == |af.ords|
    ensures WantedOk(wanted, ords, af)
  {
    hide Wants;
    wanted := map[];
    NoneWanted(af);
    var i := 0;
    while i < |ords|
      invariant i <= |ords| && WantedOk(wanted, ords[..i], af)
    {
      var ord := ords[i];
      assert ords[..i + 1] == ords[..i] + [ord];
      WantedStep(wanted, ords[..i], af, ord);
      if ord < |af.clusterOf| {
        var c := af.clusterOf[ord];
        if c >= 0 {
          var ids := if c in wanted then wanted[c] else {};
          wanted := wanted[c := ids + {af.ords[ord]}];
        }
      }
      i := i + 1;
    }
    assert ords[..|ords|] == ords;
  }

  lemma {:induction false} WantedStep(wanted: map<nat, set<string>>, ords: seq<nat>, af: AttrsFile, ord: nat)
    requires |af.clusterOf| == |af.ords| && WantedOk(wanted, ords, af)
    ensures ord >= |af.ords| || af.clusterOf[ord] < 0 ==> WantedOk(wanted, ords + [ord], af)
    ensures ord < |af.ords| && af.clusterOf[ord] >= 0 ==>
              var c := af.clusterOf[ord];
              var ids := if c in wanted then wanted[c] else {};
              WantedOk(wanted[c := ids + {af.ords[ord]}], ords + [ord], af)
  {
    hide Wants;
    forall c, id
      ensures Wants(ords + [ord], af, c, id) <==>
                Wants(ords, af, c, id) || (ord < |af.ords| && af.ords[ord] == id && af.clusterOf[ord] == c)
    {
      WantsPush(ords, af, ord, c, id);
    }
  }

  lemma {:induction false} NoneWanted(af: AttrsFile)
    requires |af.clusterOf| == |af.ords|
    ensures forall c, id :: !Wants([], af, c, id)
  {
  }

  // Scores only the documents the bitmap selected, cluster by cluster, in any order.
  method FilterFirstCandidates(d: Dist, q: Vector, s: Setting, f: Filter, ix: IndexEpoch, ghost base: Live, cands: Bitmaps.Bitmap) returns (c: Cands)
    requires IndexOk(s, ix, base) && ix.attrs.Some? && cands.Valid() && Compiled(cands.Elems(), f, ix.attrs.value, base)
    ensures CandsOf(d, q, base, c) && CandsAll(f, base, c)
    ensures forall id | id in c.dists :: Match(f, base[id].attrs)
  {
    hide Match, Compiled, EpochOk, ClusterOfOk, Injective, CandsOf, CandsAll, FreshCopy, WantedOk, Bitmaps.Bitmap.Elems, Bitmaps.Bitmap.Valid;
    var af := ix.attrs.value;
    var ords := cands.Each();
    var wanted := GroupByCluster(ords, af);
    c := Cands(map[], map[]);
    NoCands(d, q, base);
    ghost var done: set<nat> := {};
    var todo := wanted.Keys;
    while todo != {}
      invariant todo <= wanted.Keys && CandsOf(d, q, base, c)
      invariant forall id | id in c.dists :: exists k: nat :: k in wanted && id in wanted[k]
      invariant forall k, e | k in wanted && k !in todo && k < |ix.clusters| && e in ix.clusters[k].members && e.id in wanted[k] :: e.id in c.dists
    {
      var k: nat :| k in todo;
      if k < |ix.clusters| {
        c := ScanWanted(d, q, ix, base, k, wanted[k], c);
      }
      todo := todo - {k};
    }
    FilterFirstComplete(s, f, ix, base, ords, wanted, c);
    FilterFirstSound(f, ix.attrs.value, base, ords, wanted, d, q, c);
  }

  // Only documents the bitmap selected are scored.
  lemma {:induction false} FilterFirstSound(f: Filter, af: AttrsFile, base: Live, ords: seq<nat>, wanted: map<nat, set<string>>, d: Dist, q: Vector, c: Cands)
    requires Compiled(ords, f, af, base) && |af.clusterOf| == |af.ords| && WantedOk(wanted, ords, af) && CandsOf(d, q, base, c)
    requires forall id | id in c.dists :: exists k: nat :: k in wanted && id in wanted[k]
    ensures forall id | id in c.dists :: Match(f, base[id].attrs)
  {
    forall id | id in c.dists ensures Match(f, base[id].attrs) {
      var k: nat :| k in wanted && id in wanted[k];
      assert Wants(ords, af, k, id);
      var o :| o in ords && 0 <= o < |af.ords| && af.ords[o] == id && af.clusterOf[o] == k;
      assert Matches(f, af, base, o);
    }
  }

  lemma {:induction false} NoCands(d: Dist, q: Vector, live: Live)
    ensures CandsOf(d, q, live, Cands(map[], map[]))
  {
  }

  method ScanWanted(d: Dist, q: Vector, ix: IndexEpoch, ghost base: Live, k: nat, ids: set<string>, c0: Cands) returns (c: Cands)
    requires EpochOk(ix.clusters, base) && k < |ix.clusters| && CandsOf(d, q, base, c0)
    ensures CandsOf(d, q, base, c) && c0.dists.Keys <= c.dists.Keys
    ensures forall e | e in ix.clusters[k].members && e.id in ids :: e.id in c.dists
    ensures forall id | id in c.dists :: id in c0.dists || id in ids
  {
    hide CandsOf, FreshCopy;
    c := c0;
    var members := ix.clusters[k].members;
    var i := 0;
    while i < |members|
      invariant i <= |members| && CandsOf(d, q, base, c) && c0.dists.Keys <= c.dists.Keys
      invariant forall id | id in c.dists :: id in c0.dists || id in ids
      invariant forall j | 0 <= j < i && members[j].id in ids :: members[j].id in c.dists
    {
      if members[i].id in ids {
        PutKeeps(d, q, base, c, members[i]);
        c := Put(d, q, c, members[i]);
      }
      i := i + 1;
    }
  }

  // Where a live vector document sits, and its ordinal's cluster.
  lemma {:induction false} Located(s: Setting, ix: IndexEpoch, base: Live, id: string) returns (c: nat, k: nat)
    requires IndexOk(s, ix, base) && id in base && base[id].vector.Some?
    ensures LiesAt(ix.clusters, c, k, id) && id in s.clusterOf && s.clusterOf[id] == c
  {
    c, k :| LiesAt(ix.clusters, c, k, id);
    assert ix.clusters[c].members[k] in ix.clusters[c].members;
  }

  lemma {:induction false} OrdinalOf(s: Setting, ix: IndexEpoch, base: Live, id: string) returns (o: nat)
    requires IndexOk(s, ix, base) && ix.attrs.Some? && id in base
    ensures o < |ix.attrs.value.ords| && ix.attrs.value.ords[o] == id && |ix.attrs.value.clusterOf| == |ix.attrs.value.ords|
    ensures id in s.clusterOf ==> ix.attrs.value.clusterOf[o] == s.clusterOf[id]
  {
    o :| 0 <= o < |ix.attrs.value.ords| && ix.attrs.value.ords[o] == id;
  }

  lemma {:induction false} FilterFirstComplete(s: Setting, f: Filter, ix: IndexEpoch, base: Live, ords: seq<nat>, wanted: map<nat, set<string>>, c: Cands)
    requires IndexOk(s, ix, base) && ix.attrs.Some? && Compiled(ords, f, ix.attrs.value, base)
    requires |ix.attrs.value.clusterOf| == |ix.attrs.value.ords| && WantedOk(wanted, ords, ix.attrs.value)
    requires forall k, e | k in wanted && k < |ix.clusters| && e in ix.clusters[k].members && e.id in wanted[k] :: e.id in c.dists
    ensures CandsAll(f, base, c)
  {
    hide IndexOk;
    forall id | id in base && base[id].vector.Some? && Match(f, base[id].attrs) ensures id in c.dists {
      var k, j := Located(s, ix, base, id);
      var o := OrdinalOf(s, ix, base, id);
      assert Matches(f, ix.attrs.value, base, o);
      assert o in ords;
      assert Wants(ords, ix.attrs.value, k, id);
      assert ix.clusters[k].members[j] in ix.clusters[k].members;
    }
  }

  // ---------------------------------------------------------------- search-first

  // A member with its prefilter score, lower first.
  datatype ScoredEntry = ScoredEntry(entry: Entry, score: real)

  predicate ScoreLess(a: ScoredEntry, b: ScoredEntry) {
    a.score < b.score || (a.score == b.score && StrLess(a.entry.id, b.entry.id))
  }

  // Any prefilter at all: an estimate of each member's distance, given its cluster.
  type Prefilter = (nat, Entry) -> real

  datatype Place = Place(c: nat, k: nat)

  // list holds members of the index, each from a place of its own.
  ghost predicate FromPlaces(cs: seq<Clustered>, list: seq<ScoredEntry>, places: seq<Place>) {
    && |list| == |places| && NoDup(places)
    && forall i | 0 <= i < |list| :: InPlace(cs, list[i].entry, places[i])
  }

  ghost predicate InPlace(cs: seq<Clustered>, e: Entry, p: Place) {
    p.c < |cs| && p.k < |cs[p.c].members| && cs[p.c].members[p.k] == e
  }

  // Each entry carries the score of its member in its cluster.
  ghost predicate Scored(list: seq<ScoredEntry>, places: seq<Place>, score: Prefilter) {
    |list| == |places| && forall i | 0 <= i < |list| :: list[i].score == score(places[i].c, list[i].entry)
  }

  // The first `limit` of the list by score.
  ghost predicate BestScored(list: seq<ScoredEntry>, kept: seq<ScoredEntry>, limit: nat) {
    exists rest :: BestBefore(list, kept, rest) && |kept| == if limit < |list| then limit else |list|
  }

  ghost predicate BestBefore(list: seq<ScoredEntry>, kept: seq<ScoredEntry>, rest: seq<ScoredEntry>) {
    && multiset(kept) + multiset(rest) == multiset(list)
    && forall i, j | 0 <= i < |kept| && 0 <= j < |rest| ::
         kept[i].score < rest[j].score || (kept[i].score == rest[j].score && !StrLess(rest[j].entry.id, kept[i].entry.id))
  }

  lemma {:induction false} CutIsBest(list: seq<ScoredEntry>, limit: nat)
    requires limit < |list|
    ensures BestScored(list, Sort(ScoreLess, list)[..limit], limit)
  {
    hide Sort;
    assert WeakOrder(ScoreLess) by { ScoreWeak(); }
    SortWeak(ScoreLess, list);
    var sorted := Sort(ScoreLess, list);
    assert sorted == sorted[..limit] + sorted[limit..];
    forall i, j | 0 <= i < limit && 0 <= j < |sorted| - limit
      ensures !ScoreLess(sorted[limit..][j], sorted[..limit][i])
    {
      assert !ScoreLess(sorted[limit + j], sorted[i]);
    }
    assert BestBefore(list, sorted[..limit], sorted[limit..]);
  }

  lemma {:induction false} ScoreWeak()
    ensures WeakOrder(ScoreLess)
  {
    forall a, b | ScoreLess(a, b) ensures !ScoreLess(b, a) { StrTotal(a.entry.id, b.entry.id); }
    forall a, b, c | !ScoreLess(a, b) && !ScoreLess(b, c) ensures !ScoreLess(a, c) {
      if a.score == b.score == c.score {
        StrTotal(a.entry.id, b.entry.id);
        StrTotal(b.entry.id, c.entry.id);
        StrTotal(a.entry.id, c.entry.id);
        if StrLess(b.entry.id, a.entry.id) && StrLess(c.entry.id, b.entry.id) {
          StrTransitive(c.entry.id, b.entry.id, a.entry.id);
        }
      }
    }
  }

  lemma {:induction false} AllAreBest(list: seq<ScoredEntry>, limit: nat)
    requires |list| <= limit
    ensures BestScored(list, list, limit)
  {
    assert BestBefore(list, list, []);
  }

  ghost predicate AllListed(cs: seq<Clustered>, list: seq<ScoredEntry>, c: nat) {
    c < |cs| && forall e | e in cs[c].members :: exists i :: 0 <= i < |list| && list[i].entry == e
  }

  // The members of the probed clusters the plan does not rule out.
  method Shortlist(ix: IndexEpoch, probes: seq<nat>, plan: VectorPlan, score: Prefilter)
    returns (list: seq<ScoredEntry>, ghost places: seq<Place>)
    requires NoDup(probes) && forall c | c in probes :: c < |ix.clusters|
    ensures FromPlaces(ix.clusters, list, places)
    ensures forall c | c in probes && (plan.NoPlan? || c in plan.clusters) :: AllListed(ix.clusters, list, c)
    ensures Scored(list, places, score)
    ensures forall i | 0 <= i < |places| :: places[i].c in probes && (plan.NoPlan? || places[i].c in plan.clusters)
  {
    hide AllListed;
    list, places := [], [];
    var p := 0;
    while p < |probes|
      invariant p <= |probes| && FromPlaces(ix.clusters, list, places)
      invariant forall i | 0 <= i < |places| :: places[i].c in probes[..p] && (plan.NoPlan? || places[i].c in plan.clusters)
      invariant Scored(list, places, score)
      invariant forall j | 0 <= j < p && (plan.NoPlan? || probes[j] in plan.clusters) :: AllListed(ix.clusters, list, probes[j])
    {
      var c := probes[p];
      assert c in probes && c !in probes[..p];
      assert probes[..p + 1] == probes[..p] + [c];
      if plan.NoPlan? || c in plan.clusters {
        ghost var was := list;
        list, places := ShortlistCluster(ix, c, score, list, places);
        forall j | 0 <= j < p && (plan.NoPlan? || probes[j] in plan.clusters) ensures AllListed(ix.clusters, list, probes[j]) {
          StillListed(ix.clusters, was, list, probes[j]);
        }
      }
      p := p + 1;
    }
  }

  lemma {:induction false} StillListed(cs: seq<Clustered>, a: seq<ScoredEntry>, b: seq<ScoredEntry>, c: nat)
    requires AllListed(cs, a, c) && a <= b
    ensures AllListed(cs, b, c)
  {
    forall e | e in cs[c].members ensures exists i :: 0 <= i < |b| && b[i].entry == e {
      var i :| 0 <= i < |a| && a[i].entry == e;
      assert b[i].entry == e;
    }
  }

  method ShortlistCluster(ix: IndexEpoch, c: nat, score: Prefilter, list0: seq<ScoredEntry>, ghost places0: seq<Place>)
    returns (list: seq<ScoredEntry>, ghost places: seq<Place>)
    requires c < |ix.clusters| && FromPlaces(ix.clusters, list0, places0)
    requires forall i | 0 <= i < |places0| :: places0[i].c != c
    requires Scored(list0, places0, score)
    ensures Scored(list, places, score)
    ensures FromPlaces(ix.clusters, list, places) && list0 <= list && AllListed(ix.clusters, list, c)
    ensures forall i | 0 <= i < |places| :: places[i].c == c || (i < |places0| && places[i] == places0[i])
  {
    hide FromPlaces, AllListed;
    list, places := list0, places0;
    PlacesMatch(ix.clusters, list, places);
    var members := ix.clusters[c].members;
    var k := 0;
    while k < |members|
      invariant k <= |members| && FromPlaces(ix.clusters, list, places) && list0 <= list
      invariant Scored(list, places, score)
      invariant |list| == |places| == |list0| + k && forall j | 0 <= j < k :: list[|list0| + j].entry == members[j]
      invariant forall i | 0 <= i < |places| :: if i < |places0| then places[i] == places0[i] else places[i].c == c && places[i].k < k
    {
      PushPlace(ix.clusters, list, places, ScoredEntry(members[k], score(c, members[k])), Place(c, k));
      places := places + [Place(c, k)];
      list := list + [ScoredEntry(members[k], score(c, members[k]))];
      k := k + 1;
    }
    ListsAll(ix.clusters, list, |list0|, c);
  }

  lemma {:induction false} PlacesMatch(cs: seq<Clustered>, list: seq<ScoredEntry>, places: seq<Place>)
    requires FromPlaces(cs, list, places)
    ensures |list| == |places|
  {
  }

  lemma {:induction false} PushPlace(cs: seq<Clustered>, list: seq<ScoredEntry>, places: seq<Place>, x: ScoredEntry, p: Place)
    requires FromPlaces(cs, list, places) && InPlace(cs, x.entry, p)
    requires forall i | 0 <= i < |places| :: places[i] != p
    ensures FromPlaces(cs, list + [x], places + [p])
  {
  }

  lemma {:induction false} ListsAll(cs: seq<Clustered>, list: seq<ScoredEntry>, start: nat, c: nat)
    requires c < |cs| && |list| == start + |cs[c].members|
    requires forall j | 0 <= j < |cs[c].members| :: list[start + j].entry == cs[c].members[j]
    ensures AllListed(cs, list, c)
  {
    forall e | e in cs[c].members ensures exists i :: 0 <= i < |list| && list[i].entry == e {
      var j :| 0 <= j < |cs[c].members| && cs[c].members[j] == e;
      assert list[start + j].entry == e;
    }
  }

  // Distinct places hold distinct ids, so a shortlist is no longer than the indexed vectors are many.
  lemma {:induction false} ShortlistBound(cs: seq<Clustered>, base: Live, list: seq<ScoredEntry>, places: seq<Place>)
    requires EpochOk(cs, base) && FromPlaces(cs, list, places)
    ensures |list| <= |VectorIdSet(base)|
  {
    var ids := seq(|list|, (i: int) requires 0 <= i < |list| => list[i].entry.id);
    forall i, j | 0 <= i < j < |ids| ensures ids[i] != ids[j] {
      assert InPlace(cs, list[i].entry, places[i]) && InPlace(cs, list[j].entry, places[j]);
      assert places[i] != places[j];
    }
    NoDupSize(ids);
    var held := set id | id in ids;
    forall id | id in held ensures id in VectorIdSet(base) {
      var i :| 0 <= i < |ids| && ids[i] == id;
      assert InPlace(cs, list[i].entry, places[i]);
      assert FreshCopy(cs[places[i].c].members[places[i].k], base);
    }
    SubsetSize(held, VectorIdSet(base));
  }

  lemma {:induction false} SubsetSize<T>(a: set<T>, b: set<T>)
    requires a <= b
    ensures |a| <= |b|
  {
    assert b == a + (b - a);
  }

  // Every entry of the list becomes a candidate at full precision.
  method Rerank(d: Dist, q: Vector, ghost base: Live, list: seq<ScoredEntry>) returns (c: Cands)
    requires forall i | 0 <= i < |list| :: FreshCopy(list[i].entry, base)
    ensures CandsOf(d, q, base, c) && forall i | 0 <= i < |list| :: list[i].entry.id in c.dists
    ensures forall id | id in c.dists :: exists i :: 0 <= i < |list| && list[i].entry.id == id
  {
    hide CandsOf, FreshCopy;
    c := Cands(map[], map[]);
    NoCands(d, q, base);
    var i := 0;
    while i < |list|
      invariant i <= |list| && CandsOf(d, q, base, c)
      invariant forall j | 0 <= j < i :: list[j].entry.id in c.dists
      invariant forall id | id in c.dists :: exists j :: 0 <= j < i && list[j].entry.id == id
    {
      PutKeeps(d, q, base, c, list[i].entry);
      c := Put(d, q, c, list[i].entry);
      i := i + 1;
    }
  }

  // A search-first scan sees every matching document when it probes every cluster and the shortlist
  // is not cut.
  ghost predicate FullScan(nProbe: int, topK: nat, ix: IndexEpoch, base: Live) {
    nProbe >= |ix.clusters| && |VectorIdSet(base)| <= Limit(topK)
  }

  // The shortlist limit, in 64-bit arithmetic.
  function Limit(topK: nat): int { Times64(topK, SHORTLIST_MULTIPLIER) }

  // For every topK a request can carry the limit is four times as much exactly below 2^61. There it
  // turns negative, which no slice bound may be; at 2^62 it is zero, and every shortlist is cut to
  // nothing.
  lemma {:induction false} LimitWraps(topK: nat)
    requires topK < 0x8000_0000_0000_0000
    ensures Limit(topK) == SHORTLIST_MULTIPLIER * topK <==> topK < 0x2000_0000_0000_0000
    ensures Limit(0x2000_0000_0000_0000) < 0 && Limit(0x4000_0000_0000_0000) == 0
  {
    if topK >= 0x2000_0000_0000_0000 { assert Limit(topK) < 0x8000_0000_0000_0000 <= 4 * topK; }
  }

  // The plan, when there is one, is right about the filter.
  ghost predicate PlanOk(plan: VectorPlan, f: Filter, ix: IndexEpoch, base: Live)
    reads if plan.Plan? then {plan.cands} else {}, if plan.Plan? then plan.cands.containers else []
  {
    plan.Plan? ==>
      && ix.attrs.Some? && plan.cands.Valid() && Compiled(plan.cands.Elems(), f, ix.attrs.value, base)
      && plan.clusters == MatchClusters(plan.cands.Elems(), ix.attrs.value)
  }

  // The clusters a search-first scan is restricted to, if the planner could compile the filter: those
  // that hold a matching document.
  ghost function PruneOf(s: Setting, f: Filter, ix: IndexEpoch, base: Live): Option<set<int>> {
    if ix.attrs.Some? && !MatchAll(f) && Compilable(s.fmt, f, ix.attrs.value) then
      Some(set id | id in MatchingIds(f, base) && id in s.clusterOf :: s.clusterOf[id])
    else None
  }

  ghost predicate Follows(prune: Option<set<int>>, plan: VectorPlan) {
    if plan.NoPlan? then prune.None? else prune == Some(plan.clusters)
  }

  ghost predicate Unpruned(prune: Option<set<int>>, c: int) {
    prune.Some? ==> c in prune.value
  }

  // What a search-first scan keeps: of the unpruned members of the probed clusters, the 4 * topK with
  // the best scores.
  ghost predicate ScanOf(ix: IndexEpoch, probes: seq<nat>, prune: Option<set<int>>, score: Prefilter, topK: nat,
      list: seq<ScoredEntry>, places: seq<Place>, kept: seq<ScoredEntry>, ids: set<string>) {
    && FromPlaces(ix.clusters, list, places) && Scored(list, places, score)
    && (forall i | 0 <= i < |places| :: places[i].c in probes && Unpruned(prune, places[i].c))
    && (forall k | k in probes && Unpruned(prune, k) :: AllListed(ix.clusters, list, k))
    && Limit(topK) >= 0 && BestScored(list, kept, Limit(topK))
    && (forall id :: id in ids <==> exists i :: 0 <= i < |kept| && kept[i].entry.id == id)
  }

  // The ids a search-first scan picks from an index, by its probes, its prune and the prefilter.
  ghost predicate Scanned(d: Dist, q: Vector, s: Setting, f: Filter, ix: IndexEpoch, base: Live, nProbe: int, topK: nat, score: Prefilter, ids: set<string>)
    requires 0 < nProbe < 0x8000_0000_0000_0000
  {
    if ix.clusters == [] then ids == {}
    else exists probes, list, places, kept ::
           Probed(d, q, Centroids(ix.clusters), ix.tree, nProbe, probes)
           && ScanOf(ix, probes, PruneOf(s, f, ix, base), score, topK, list, places, kept, ids)
  }

  // The ids a query takes from an index: the vector documents that match, when the planner goes
  // filter-first, and otherwise those a search-first scan picks.
  ghost predicate Picked(d: Dist, q: Vector, s: Setting, f: Filter, ix: IndexEpoch, base: Live, nProbe: int, topK: nat, score: Prefilter, ids: set<string>)
    requires 0 < nProbe < 0x8000_0000_0000_0000
  {
    if GoesFilterFirst(s, f, ix, base) then forall id :: id in ids <==> id in base && base[id].vector.Some? && Match(f, base[id].attrs)
    else Scanned(d, q, s, f, ix, base, nProbe, topK, score, ids)
  }

  method SearchFirstCandidates(d: Dist, q: Vector, s: Setting, f: Filter, ix: IndexEpoch, ghost base: Live, nProbe: int, topK: nat, plan: VectorPlan, score: Prefilter)
    returns (ok: bool, c: Cands)
    requires IndexOk(s, ix, base) && PlanOk(plan, f, ix, base) && 0 < nProbe < 0x8000_0000_0000_0000
    requires Follows(PruneOf(s, f, ix, base), plan)
    ensures ok <==> ix.clusters == [] || Limit(topK) >= 0
    ensures CandsOf(d, q, base, c)
    ensures ok && FullScan(nProbe, topK, ix, base) ==> CandsAll(f, base, c)
    ensures ok ==> Scanned(d, q, s, f, ix, base, nProbe, topK, score, c.dists.Keys)
  {
    hide Probed, PruneOf, Limit, CandsOf, CandsAll, FromPlaces, AllListed, PlanOk, LeafBag, UpTo, EpochOk, Injective, ClusterOfOk, AttrIndexOk, Sort, Scored, BestScored;
    ok := true;
    c := Cands(map[], map[]);
    NoCands(d, q, base);
    if |ix.clusters| == 0 {
      EmptyIndex(s, f, ix, base, c);
      return;
    }
    var centroids := CentroidsOf(ix.clusters);
    var probes := ProbeClusters(d, q, centroids, ix.tree, nProbe);
    ProbedAre(d, q, centroids, ix.tree, nProbe, probes);
    var shortlist;
    ghost var places;
    shortlist, places := Shortlist(ix, probes, plan, score);
    ghost var list := shortlist;
    ShortlistFresh(ix.clusters, base, list, places);
    ShortlistBound(ix.clusters, base, list, places);
    var limit := Limit(topK);
    if |shortlist| > limit {
      var sorted := Sort(ScoreLess, shortlist);
      if limit < 0 {
        // A negative slice bound: the run-time panics.
        ok := false;
        return;
      }
      CutFresh(base, list, sorted, limit);
      CutIsBest(list, limit);
      shortlist := sorted[..limit];
    } else {
      AllAreBest(list, limit);
    }
    c := Rerank(d, q, base, shortlist);
    assert ScanOf(ix, probes, PruneOf(s, f, ix, base), score, topK, list, places, shortlist, c.dists.Keys);
    if FullScan(nProbe, topK, ix, base) {
      AllProbed(probes, |ix.clusters|);
      SearchComplete(s, f, ix, base, probes, plan, list, c);
    }
  }

  lemma {:induction false} ProbedAre(d: Dist, q: Vector, centroids: seq<Vector>, tree: Option<Node>, nProbe: int, probes: seq<nat>)
    requires 0 < nProbe < 0x8000_0000_0000_0000 && Probed(d, q, centroids, tree, nProbe, probes)
    ensures NoDup(probes) && (forall c | c in probes :: c < |centroids|)
    ensures |probes| == if nProbe < |centroids| then nProbe else |centroids|
  {
  }

  // A limit of zero keeps nothing, however much matches.
  lemma {:induction false} NothingKept(d: Dist, q: Vector, s: Setting, f: Filter, ix: IndexEpoch, base: Live, nProbe: int, topK: nat, score: Prefilter, ids: set<string>)
    requires 0 < nProbe < 0x8000_0000_0000_0000 && Limit(topK) == 0
    requires Scanned(d, q, s, f, ix, base, nProbe, topK, score, ids)
    ensures ids == {}
  {
    if ix.clusters != [] {
      hide Probed, FromPlaces, Scored, AllListed, PruneOf;
      var probes, list, places, kept :| Probed(d, q, Centroids(ix.clusters), ix.tree, nProbe, probes)
                                        && ScanOf(ix, probes, PruneOf(s, f, ix, base), score, topK, list, places, kept, ids);
      assert kept == [];
    }
  }

  lemma {:induction false} EmptyIndex(s: Setting, f: Filter, ix: IndexEpoch, base: Live, c: Cands)
    requires IndexOk(s, ix, base) && ix.clusters == []
    ensures CandsAll(f, base, c)
  {
    forall id | id in base && base[id].vector.Some? ensures false {
      var k, j := Located(s, ix, base, id);
    }
  }

  method CentroidsOf(cs: seq<Clustered>) returns (centroids: seq<Vector>)
    ensures centroids == Centroids(cs)
  {
    centroids := [];
    while |centroids| < |cs|
      invariant |centroids| <= |cs| && forall i | 0 <= i < |centroids| :: centroids[i] == cs[i].centroid
    {
      centroids := centroids + [cs[|centroids|].centroid];
    }
  }

  lemma {:induction false} ShortlistFresh(cs: seq<Clustered>, base: Live, list: seq<ScoredEntry>, places: seq<Place>)
    requires EpochOk(cs, base) && FromPlaces(cs, list, places)
    ensures forall i | 0 <= i < |list| :: FreshCopy(list[i].entry, base)
  {
    hide FreshCopy;
    forall i | 0 <= i < |list| ensures FreshCopy(list[i].entry, base) {
      assert InPlace(cs, list[i].entry, places[i]);
    }
  }

  lemma {:induction false} CutFresh(base: Live, list: seq<ScoredEntry>, sorted: seq<ScoredEntry>, n: nat)
    requires multiset(list) == multiset(sorted) && n <= |sorted|
    requires forall i | 0 <= i < |list| :: FreshCopy(list[i].entry, base)
    ensures forall i | 0 <= i < n :: FreshCopy(sorted[..n][i].entry, base)
  {
    hide FreshCopy;
    forall i | 0 <= i < n ensures FreshCopy(sorted[..n][i].entry, base) {
      SameItems(list, sorted, sorted[i]);
    }
  }

  lemma {:induction false} SearchComplete(s: Setting, f: Filter, ix: IndexEpoch, base: Live, probes: seq<nat>, plan: VectorPlan, list: seq<ScoredEntry>, c: Cands)
    requires IndexOk(s, ix, base) && PlanOk(plan, f, ix, base)
    requires forall c: nat | c < |ix.clusters| :: c in probes
    requires forall c | c in probes && (plan.NoPlan? || c in plan.clusters) :: AllListed(ix.clusters, list, c)
    requires forall i | 0 <= i < |list| :: list[i].entry.id in c.dists
    ensures CandsAll(f, base, c)
  {
    hide IndexOk;
    forall id | id in base && base[id].vector.Some? && Match(f, base[id].attrs) ensures id in c.dists {
      var k, j := Located(s, ix, base, id);
      if plan.Plan? {
        var o := OrdinalOf(s, ix, base, id);
        assert Matches(f, ix.attrs.value, base, o);
        assert o in plan.cands.Elems();
      }
      assert AllListed(ix.clusters, list, k);
      var e := ix.clusters[k].members[j];
      assert e in ix.clusters[k].members;
      var i :| 0 <= i < |list| && list[i].entry == e;
    }
  }

  // ---------------------------------------------------------------- the tail

  // What the candidates say of one id once the tail's documents outside `todo` have been laid over.
  ghost predicate LaidAt(d: Dist, q: Vector, tail: Live, todo: set<string>, c0: Cands, c: Cands, id: string)
    requires c0.dists.Keys == c0.attrs.Keys && c.dists.Keys == c.attrs.Keys
  {
    if id in tail && id !in todo then
      if tail[id].vector.None? then id !in c.dists
      else id in c.dists && c.dists[id] == d(q, tail[id].vector.value) && c.attrs[id] == tail[id].attrs
    else id !in tail ==>
      (id in c.dists <==> id in c0.dists) && (id in c.dists ==> c.dists[id] == c0.dists[id] && c.attrs[id] == c0.attrs[id])
  }

  lemma {:induction false} NoneLaid(d: Dist, q: Vector, base: Live, tail: Live, c0: Cands)
    requires CandsOf(d, q, base, c0)
    ensures c0.dists.Keys == c0.attrs.Keys && forall id :: LaidAt(d, q, tail, tail.Keys, c0, c0, id)
  {
  }

  lemma {:induction false} OneLaid(d: Dist, q: Vector, tail: Live, todo: set<string>, c0: Cands, c: Cands, id: string)
    requires c0.dists.Keys == c0.attrs.Keys && c.dists.Keys == c.attrs.Keys && id in tail && id in todo
    requires forall x :: LaidAt(d, q, tail, todo, c0, c, x)
    ensures var c1 := if tail[id].vector.None? then Cands(c.dists - {id}, c.attrs - {id})
                      else Cands(c.dists[id := d(q, tail[id].vector.value)], c.attrs[id := tail[id].attrs]);
            c1.dists.Keys == c1.attrs.Keys && forall x :: LaidAt(d, q, tail, todo - {id}, c0, c1, x)
  {
    var c1 := if tail[id].vector.None? then Cands(c.dists - {id}, c.attrs - {id})
              else Cands(c.dists[id := d(q, tail[id].vector.value)], c.attrs[id := tail[id].attrs]);
    assert c1.dists.Keys == c1.attrs.Keys;
    forall x ensures LaidAt(d, q, tail, todo - {id}, c0, c1, x) {
      assert LaidAt(d, q, tail, todo, c0, c, x);
    }
  }

  // With every document laid over and the tombstones taken out, what is left is of the overlaid set.
  lemma {:induction false} AllLaid(d: Dist, q: Vector, base: Live, tail: View, c0: Cands, c: Cands, c1: Cands)
    requires ViewOk(tail) && CandsOf(d, q, base, c0) && c.dists.Keys == c.attrs.Keys
    requires forall id :: LaidAt(d, q, tail.live, {}, c0, c, id)
    requires c1 == Cands(c.dists - tail.deleted, c.attrs - tail.deleted)
    ensures CandsOf(d, q, Overlay(base, tail), c1)
    ensures forall id | id in tail.live && tail.live[id].vector.Some? :: id in c1.dists
    ensures forall id | id in c0.dists && id !in tail.live && id !in tail.deleted :: id in c1.dists
    ensures forall id | id in c1.dists :: id in tail.live || id in c0.dists
  {
    forall id | id in c1.dists
      ensures id in Overlay(base, tail) && Overlay(base, tail)[id].vector.Some? && (id in tail.live || id in c0.dists)
           && c1.dists[id] == d(q, Overlay(base, tail)[id].vector.value) && c1.attrs[id] == Overlay(base, tail)[id].attrs
    {
      assert LaidAt(d, q, tail.live, {}, c0, c, id);
    }
    forall id | id in tail.live && tail.live[id].vector.Some? ensures id in c1.dists { assert LaidAt(d, q, tail.live, {}, c0, c, id); }
    forall id | id in c0.dists && id !in tail.live && id !in tail.deleted ensures id in c1.dists { assert LaidAt(d, q, tail.live, {}, c0, c, id); }
  }

  // Lays the log tail over the candidates: its documents win, its tombstones and its vector-less
  // rewrites hide.
  method OverlayTail(d: Dist, q: Vector, ghost base: Live, tail: View, c0: Cands) returns (c: Cands)
    requires ViewOk(tail) && CandsOf(d, q, base, c0)
    ensures CandsOf(d, q, Overlay(base, tail), c)
    ensures forall id | id in tail.live && tail.live[id].vector.Some? :: id in c.dists
    ensures forall id | id in c0.dists && id !in tail.live && id !in tail.deleted :: id in c.dists
    ensures forall id | id in c.dists :: id in tail.live || id in c0.dists
  {
    hide ViewOk, CandsOf, LaidAt;
    var dists, attrs := c0.dists, c0.attrs;
    var todo := tail.live.Keys;
    NoneLaid(d, q, base, tail.live, c0);
    while todo != {}
      invariant todo <= tail.live.Keys && dists.Keys == attrs.Keys
      invariant forall id :: LaidAt(d, q, tail.live, todo, c0, Cands(dists, attrs), id)
    {
      var id :| id in todo;
      var doc := tail.live[id];
      OneLaid(d, q, tail.live, todo, c0, Cands(dists, attrs), id);
      if doc.vector.None? {
        dists, attrs := dists - {id}, attrs - {id};
      } else {
        dists, attrs := dists[id := d(q, doc.vector.value)], attrs[id := doc.attrs];
      }
      todo := todo - {id};
    }
    c := Cands(dists - tail.deleted, attrs - tail.deleted);
    AllLaid(d, q, base, tail, c0, Cands(dists, attrs), c);
  }

  // The candidates that pass the filter, as hits.
  method CollectHits(f: Filter, c: Cands) returns (hits: seq<Hit>)
    requires c.dists.Keys == c.attrs.Keys
    ensures NoDup(hits) && OnePerId(set h | h in hits)
    ensures forall h :: h in hits <==> h.id in c.dists && Match(f, c.attrs[h.id]) && h == Hit(h.id, c.dists[h.id], c.attrs[h.id])
  {
    hits := [];
    var todo := c.dists.Keys;
    while todo != {}
      invariant todo <= c.dists.Keys && NoDup(hits)
      invariant forall h :: h in hits <==>
                  h.id in c.dists && h.id !in todo && Match(f, c.attrs[h.id]) && h == Hit(h.id, c.dists[h.id], c.attrs[h.id])
    {
      var id :| id in todo;
      if Match(f, c.attrs[id]) {
        hits := hits + [Hit(id, c.dists[id], c.attrs[id])];
      }
      todo := todo - {id};
    }
  }

  // ---------------------------------------------------------------- the query

  ghost function MatchingIds(f: Filter, live: Live): set<string> {
    set id | id in live && Match(f, live[id].attrs)
  }

  // The planner goes filter-first: the index covers the filter and few documents match.
  ghost predicate GoesFilterFirst(s: Setting, f: Filter, ix: IndexEpoch, base: Live) {
    ix.attrs.Some? && !MatchAll(f) && Compilable(s.fmt, f, ix.attrs.value) && Selective(|MatchingIds(f, base)|, |base|)
  }

  // The one way a well-formed query gets no answer: an indexed scan whose limit came out negative.
  ghost predicate Panics(s: Setting, f: Filter, topK: nat, ix: IndexEpoch, base: Live) {
    ix.clusters != [] && Limit(topK) < 0 && !GoesFilterFirst(s, f, ix, base)
  }

  // When the answer must be the brute-force one: nothing is indexed, or the scan is full, or the
  // plan is filter-first.
  ghost predicate Exact(s: Setting, f: Filter, nProbe: int, topK: nat, index: Option<IndexEpoch>, base: Live) {
    index.None? || FullScan(nProbe, topK, index.value, base) || GoesFilterFirst(s, f, index.value, base)
  }

  // The documents of a list of ordinals.
  ghost function IdsOf(names: seq<string>, ords: seq<nat>): (ids: seq<string>)
    requires forall i | 0 <= i < |ords| :: ords[i] < |names|
    ensures |ids| == |ords| && forall i | 0 <= i < |ids| :: ids[i] == names[ords[i]]
  {
    seq(|ords|, (i: int) requires 0 <= i < |ords| => names[ords[i]])
  }

  lemma {:induction false} CompiledInRange(ords: seq<nat>, f: Filter, af: AttrsFile, base: Live)
    requires Compiled(ords, f, af, base)
    ensures forall i | 0 <= i < |ords| :: ords[i] < |af.ords| && Matches(f, af, base, ords[i])
  {
    hide Matches;
    forall i | 0 <= i < |ords| ensures ords[i] < |af.ords| && Matches(f, af, base, ords[i]) {
      assert ords[i] in ords;
    }
  }

  lemma {:induction false} CompiledMatches(ords: seq<nat>, f: Filter, af: AttrsFile, base: Live, id: string)
    requires Compiled(ords, f, af, base) && forall i | 0 <= i < |ords| :: ords[i] < |af.ords|
    requires id in IdsOf(af.ords, ords)
    ensures id in MatchingIds(f, base)
  {
    hide Match, Compiled;
    CompiledInRange(ords, f, af, base);
    var i :| 0 <= i < |ords| && IdsOf(af.ords, ords)[i] == id;
    assert Matches(f, af, base, ords[i]);
  }

  lemma {:induction false} MatchCompiled(ords: seq<nat>, f: Filter, af: AttrsFile, base: Live, id: string)
    requires Compiled(ords, f, af, base) && forall i | 0 <= i < |ords| :: ords[i] < |af.ords|
    requires OrdinalsOk(af.ords, base) && id in MatchingIds(f, base)
    ensures id in IdsOf(af.ords, ords)
  {
    hide Match;
    var o :| 0 <= o < |af.ords| && af.ords[o] == id;
    assert Matches(f, af, base, o);
    var i :| 0 <= i < |ords| && ords[i] == o;
    assert IdsOf(af.ords, ords)[i] == id;
  }

  // The bitmap has as many ordinals as documents match.
  lemma {:induction false} CompiledCount(af: AttrsFile, f: Filter, base: Live, ords: seq<nat>)
    requires OrdinalsOk(af.ords, base) && Compiled(ords, f, af, base) && NoDup(ords)
    ensures |ords| == |MatchingIds(f, base)| && |af.ords| == |base|
  {
    OneEach(af.ords, base);
    CompiledInRange(ords, f, af, base);
    hide Match, Compiled, IdsOf, MatchingIds;
    var ids := IdsOf(af.ords, ords);
    NoDupSize(ids);
    forall id ensures id in ids <==> id in MatchingIds(f, base) {
      if id in ids { CompiledMatches(ords, f, af, base, id); }
      if id in MatchingIds(f, base) { MatchCompiled(ords, f, af, base, id); }
    }
    assert (set id | id in ids) == MatchingIds(f, base);
  }

  lemma {:induction false} OrdinalsHold(s: Setting, ix: IndexEpoch, base: Live)
    requires IndexOk(s, ix, base) && ix.attrs.Some?
    ensures OrdinalsOk(ix.attrs.value.ords, base)
  {
  }

  lemma {:induction false} AscendingNoDup(s: seq<nat>)
    requires Words.Ascending(s)
    ensures NoDup(s)
  {
  }

  // The indexed candidates, by whichever plan.
  method VectorCandidatesFromIndex(d: Dist, q: Vector, s: Setting, f: Filter, ix: IndexEpoch, ghost base: Live, nProbe: int, topK: nat, score: Prefilter)
    returns (ok: bool, c: Cands)
    requires IndexOk(s, ix, base) && 0 < nProbe < 0x8000_0000_0000_0000
    ensures ok <==> !Panics(s, f, topK, ix, base)
    ensures CandsOf(d, q, base, c)
    ensures ok && Exact(s, f, nProbe, topK, Some(ix), base) ==> CandsAll(f, base, c)
    ensures ok ==> Picked(d, q, s, f, ix, base, nProbe, topK, score, c.dists.Keys)
  {
    hide Match, PruneOf, Scanned, Limit, CandsOf, CandsAll, Compiled, Injective, EpochOk, ClusterOfOk, AttrIndexOk, Bitmaps.Bitmap.Elems, Bitmaps.Bitmap.Valid, FullScan, Selective, MatchingIds;
    var plan := PlanVectorQuery(s.fmt, f, ix.attrs, s.textField, base, s.clusterOf);
    if plan.Plan? {
      plan.cands.ElemsAre();
      AscendingNoDup(plan.cands.Elems());
      OrdinalsHold(s, ix, base);
      CompiledCount(ix.attrs.value, f, base, plan.cands.Elems());
      if plan.filterFirst {
        c := FilterFirstCandidates(d, q, s, f, ix, base, plan.cands);
        ExactlyMatching(d, q, f, base, c);
        ok := true;
        return;
      }
    }
    PlanPrunes(s, f, ix, base, plan);
    ok, c := SearchFirstCandidates(d, q, s, f, ix, base, nProbe, topK, plan, score);
  }

  lemma {:induction false} ExactlyMatching(d: Dist, q: Vector, f: Filter, base: Live, c: Cands)
    requires CandsOf(d, q, base, c) && CandsAll(f, base, c) && forall id | id in c.dists :: Match(f, base[id].attrs)
    ensures forall id :: id in c.dists.Keys <==> id in base && base[id].vector.Some? && Match(f, base[id].attrs)
  {
  }

  lemma {:induction false} OrdinalClusters(s: Setting, ix: IndexEpoch, base: Live)
    requires IndexOk(s, ix, base) && ix.attrs.Some?
    ensures var af := ix.attrs.value;
            |af.clusterOf| == |af.ords| &&
            forall o | 0 <= o < |af.ords| :: af.ords[o] in base && af.clusterOf[o] == if af.ords[o] in s.clusterOf then s.clusterOf[af.ords[o]] else -1
  {
    hide EpochOk, Injective;
  }

  // The plan's clusters are those that hold a matching document.
  lemma {:induction false} PlanPrunes(s: Setting, f: Filter, ix: IndexEpoch, base: Live, plan: VectorPlan)
    requires IndexOk(s, ix, base) && PlanOk(plan, f, ix, base)
    requires plan.NoPlan? <==> MatchAll(f) || ix.attrs.None? || !Compilable(s.fmt, f, ix.attrs.value)
    ensures Follows(PruneOf(s, f, ix, base), plan)
  {
    hide IndexOk, Match, Compilable;
    if plan.Plan? {
      OrdinalClusters(s, ix, base);
      var af := ix.attrs.value;
      var ords := plan.cands.Elems();
      var held := set id | id in MatchingIds(f, base) && id in s.clusterOf :: s.clusterOf[id];
      forall c | c in MatchClusters(ords, af) ensures c in held {
        var o :| o in ords && o < |af.clusterOf| && af.clusterOf[o] >= 0 && af.clusterOf[o] == c;
        assert Matches(f, af, base, o);
        assert af.ords[o] in MatchingIds(f, base);
      }
      forall c: int | c in held ensures c in MatchClusters(ords, af) {
        var id :| id in MatchingIds(f, base) && id in s.clusterOf && s.clusterOf[id] == c;
        var o := OrdinalOf(s, ix, base, id);
        assert Matches(f, af, base, o);
        assert o in ords;
      }
      assert held == MatchClusters(ords, af);
    }
  }

  function EffectiveNProbe(n: int): (r: int)
    ensures r > 0 && (n > 0 ==> r == n)
  {
    if n <= 0 then DEFAULT_NPROBE else n
  }

  function EffectiveTopK(k: int): (r: nat)
    ensures r > 0 && (k > 0 ==> r == k)
  {
    if k <= 0 then DEFAULT_TOPK else k
  }

  // Answers a vector query. `picked` are the ids taken from the index, and `considered` is the set of
  // hits ranked: the live matches, with their newest vectors and attributes, that were written in the
  // tail or picked. When the answer must be exact they are all matches.
  method RunVectorQuery(d: Dist, q: Vector, dimension: nat, s: Setting, f: Filter, index: Option<IndexEpoch>, ghost base: Live,
      tail: View, nProbe: int, topK: int, score: Prefilter)
    returns (ok: bool, results: seq<Hit>, ghost considered: set<Hit>, ghost picked: set<string>)
    requires if index.Some? then IndexOk(s, index.value, base) else base == map[]
    requires ViewOk(tail) && nProbe < 0x8000_0000_0000_0000 && topK < 0x8000_0000_0000_0000
    ensures ok <==> |q| == dimension && !(index.Some? && Panics(s, f, EffectiveTopK(topK), index.value, base))
    ensures ok ==> IsTopK(results, considered, EffectiveTopK(topK))
    ensures ok ==> |results| == if |considered| < EffectiveTopK(topK) then |considered| else EffectiveTopK(topK)
    ensures ok ==> forall i, j | 0 <= i < j < |results| ::
              results[i].dist < results[j].dist || (results[i].dist == results[j].dist && StrLess(results[i].id, results[j].id))
    ensures ok ==> forall h | h in considered && h !in results ::
              |results| == EffectiveTopK(topK) && forall g | g in results :: g.dist < h.dist || (g.dist == h.dist && StrLess(g.id, h.id))
    ensures ok ==> considered <= Matching(d, q, f, Overlay(base, tail))
    ensures ok ==> forall h | h in Matching(d, q, f, Overlay(base, tail)) :: h in considered <==> h.id in tail.live || h.id in picked
    ensures ok ==> if index.None? then picked == {}
                   else Picked(d, q, s, f, index.value, base, EffectiveNProbe(nProbe), EffectiveTopK(topK), score, picked)
    ensures ok && Exact(s, f, EffectiveNProbe(nProbe), EffectiveTopK(topK), index, base) ==>
              considered == Matching(d, q, f, Overlay(base, tail))
  {
    hide IndexOk, CandsOf, CandsAll, IsTopK, FullScan, GoesFilterFirst, Panics, Picked;
    ok, results, considered, picked := false, [], {}, {};
    if |q| != dimension {
      return;
    }
    ok := true;
    var probes, k := EffectiveNProbe(nProbe), EffectiveTopK(topK);
    var c := Cands(map[], map[]);
    NoCands(d, q, base);
    if index.Some? {
      ok, c := VectorCandidatesFromIndex(d, q, s, f, index.value, base, probes, k, score);
      if !ok {
        return;
      }
    } else {
      NothingIndexed(f, base, c);
    }
    ghost var gathered := c;
    picked := c.dists.Keys;
    c := OverlayTail(d, q, base, tail, c);
    CandKeys(d, q, Overlay(base, tail), c);
    var hits := CollectHits(f, c);
    considered := set h | h in hits;
    HitsAre(d, q, f, base, tail, gathered, c, considered);
    results := RankAndCut(hits, k);
    TopKMeans(results, considered, k);
  }

  lemma {:induction false} NothingIndexed(f: Filter, base: Live, c: Cands)
    requires base == map[]
    ensures CandsAll(f, base, c)
  {
  }

  lemma {:induction false} CandKeys(d: Dist, q: Vector, live: Live, c: Cands)
    requires CandsOf(d, q, live, c)
    ensures c.dists.Keys == c.attrs.Keys
  {
  }

  lemma {:induction false} HitsAre(d: Dist, q: Vector, f: Filter, base: Live, tail: View, c0: Cands, c: Cands, hits: set<Hit>)
    requires ViewOk(tail) && CandsOf(d, q, base, c0) && CandsOf(d, q, Overlay(base, tail), c)
    requires forall id | id in tail.live && tail.live[id].vector.Some? :: id in c.dists
    requires forall id | id in c0.dists && id !in tail.live && id !in tail.deleted :: id in c.dists
    requires forall id | id in c.dists :: id in tail.live || id in c0.dists
    requires c.dists.Keys == c.attrs.Keys
    requires forall h :: h in hits <==> h.id in c.dists && Match(f, c.attrs[h.id]) && h == Hit(h.id, c.dists[h.id], c.attrs[h.id])
    ensures hits <= Matching(d, q, f, Overlay(base, tail))
    ensures forall h | h in Matching(d, q, f, Overlay(base, tail)) :: h in hits <==> h.id in tail.live || h.id in c0.dists
    ensures CandsAll(f, base, c0) ==> hits == Matching(d, q, f, Overlay(base, tail))
  {
    var now := Overlay(base, tail);
    forall h | h in Matching(d, q, f, now)
      ensures h in hits <==> h.id in tail.live || h.id in c0.dists
      ensures CandsAll(f, base, c0) ==> h in hits
    {
      if h.id !in tail.live {
        assert h.id in base && h.id !in tail.deleted;
      }
    }
  }

  // Index transparency: whenever the answer must be exact, it is the brute-force answer over the
  // live documents, whatever the index, the probes, the prefilter and the plan.
  lemma {:induction false} ExactIsBruteForce(d: Dist, q: Vector, f: Filter, live: Live, k: nat, results: seq<Hit>, considered: set<Hit>, brute: seq<Hit>)
    requires IsTopK(results, considered, k) && considered == Matching(d, q, f, live)
    requires IsTopK(brute, Matching(d, q, f, live), k)
    ensures results == brute
  {
    MatchingOnePerId(d, q, f, live);
    TopKUnique(results, brute, considered, k);
  }

  // Soundness and freshness: each result is live now with its newest vector's distance and passing
  // attributes, and a match last written in the tail is returned or beaten by topK others.
  lemma {:induction false} SoundAndFresh(d: Dist, q: Vector, f: Filter, base: Live, tail: View, k: nat, results: seq<Hit>, considered: set<Hit>, id: string)
    requires IsTopK(results, considered, k) && considered <= Matching(d, q, f, Overlay(base, tail))
    requires forall h | h in Matching(d, q, f, Overlay(base, tail)) && h.id in tail.live :: h in considered
    ensures |results| <= k && forall i, j | 0 <= i < j < |results| :: results[i].id != results[j].id
    ensures forall i, j | 0 <= i < j < |results| ::
              results[i].dist < results[j].dist || (results[i].dist == results[j].dist && StrLess(results[i].id, results[j].id))
    ensures var now := Overlay(base, tail);
            forall h | h in results :: h.id in now && now[h.id].vector.Some? && h.dist == d(q, now[h.id].vector.value)
                                       && h.attrs == now[h.id].attrs && Match(f, h.attrs)
    ensures id in tail.live && tail.live[id].vector.Some? && Match(f, tail.live[id].attrs) ==>
              var h := Hit(id, d(q, tail.live[id].vector.value), tail.live[id].attrs);
              h in results || (|results| == k && forall g | g in results :: g.dist < h.dist || (g.dist == h.dist && StrLess(g.id, h.id)))
  {
    var now := Overlay(base, tail);
    TopKMeans(results, considered, k);
    forall i, j | 0 <= i < j < |results| ensures results[i].id != results[j].id {
      assert results[i] in results && results[j] in results;
    }
    if id in tail.live && tail.live[id].vector.Some? && Match(f, tail.live[id].attrs) {
      assert Hit(id, d(q, tail.live[id].vector.value), tail.live[id].attrs) in Matching(d, q, f, now);
    }
  }
}
