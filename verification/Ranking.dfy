// Ranked answers: the hits a query may return, their order, and what "the top K of a set" means.

module Ranking {
  import opened Types
  import opened Filters
  import opened KMeans
  import opened Sorting

  datatype Hit = Hit(id: string, dist: real, attrs: Attrs)

  // Nearest first, ties by id.
  predicate HitLess(a: Hit, b: Hit) {
    a.dist < b.dist || (a.dist == b.dist && StrLess(a.id, b.id))
  }

  lemma {:induction false} HitOrder()
    ensures TransitiveOrder(HitLess) && AsymmetricOrder(HitLess)
  {
    forall a, b, c | HitLess(a, b) && HitLess(b, c) ensures HitLess(a, c) {
      if a.dist == b.dist == c.dist { StrTransitive(a.id, b.id, c.id); }
    }
    forall a, b | HitLess(a, b) ensures !HitLess(b, a) { StrTotal(a.id, b.id); }
  }

  // No two hits share an id.
  ghost predicate OnePerId(hits: set<Hit>) {
    forall a, b | a in hits && b in hits && a.id == b.id :: a == b
  }

  lemma {:induction false} HitsTotal(hits: seq<Hit>)
    requires OnePerId(set h | h in hits)
    ensures TotalOn(HitLess, hits)
  {
    forall i, j | 0 <= i < |hits| && 0 <= j < |hits|
      ensures hits[i] == hits[j] || HitLess(hits[i], hits[j]) || HitLess(hits[j], hits[i])
    {
      StrTotal(hits[i].id, hits[j].id);
    }
  }

  // Distances never fall along the list, and equal ones come with rising ids.
  ghost predicate Rising(r: seq<Hit>) {
    forall i, j | 0 <= i < j < |r| :: r[i].dist < r[j].dist || (r[i].dist == r[j].dist && StrLess(r[i].id, r[j].id))
  }

  // The whole ranking of a set of hits.
  ghost predicate RankingOf(full: seq<Hit>, hits: set<Hit>) {
    Rising(full) && forall h :: h in full <==> h in hits
  }

  // r is the first k of the ranking.
  ghost predicate IsTopK(r: seq<Hit>, hits: set<Hit>, k: nat) {
    exists full :: RankingOf(full, hits) && r == Take(full, k)
  }

  // A list sorted by the comparison rises, if no two of its hits share an id.
  lemma {:induction false} SortedRises(full: seq<Hit>)
    requires Sorted(HitLess, full) && NoDup(full) && OnePerId(set h | h in full)
    ensures Rising(full)
  {
    forall i, j | 0 <= i < j < |full|
      ensures full[i].dist < full[j].dist || (full[i].dist == full[j].dist && StrLess(full[i].id, full[j].id))
    {
      assert full[i] in full && full[j] in full;
      StrTotal(full[i].id, full[j].id);
    }
  }

  lemma {:induction false} RankingUnique(a: seq<Hit>, b: seq<Hit>, hits: set<Hit>)
    requires RankingOf(a, hits) && RankingOf(b, hits) && OnePerId(hits)
    ensures a == b
  {
    assert (set h | h in a) == hits;
    HitsTotal(a);
    RisingDistinct(a);
    RisingDistinct(b);
    hide Rising;
    forall h ensures multiset(a)[h] == multiset(b)[h] {
      if h in hits {
        var i :| 0 <= i < |a| && a[i] == h;
        var j :| 0 <= j < |b| && b[j] == h;
        OnceIn(a, i);
        OnceIn(b, j);
      } else {
        assert h !in multiset(a) && h !in multiset(b);
      }
    }
    assert multiset(a) == multiset(b);
    SortedUnique(HitLess, a, b);
  }

  lemma {:induction false} RisingDistinct(full: seq<Hit>)
    requires Rising(full)
    ensures Sorted(HitLess, full) && NoDup(full)
  {
    forall i, j | 0 <= i < j < |full| ensures !HitLess(full[j], full[i]) && full[i] != full[j] {
      StrTotal(full[i].id, full[j].id);
    }
  }

  // The top K of a set is one list.
  lemma {:induction false} TopKUnique(a: seq<Hit>, b: seq<Hit>, hits: set<Hit>, k: nat)
    requires IsTopK(a, hits, k) && IsTopK(b, hits, k) && OnePerId(hits)
    ensures a == b
  {
    var fa :| RankingOf(fa, hits) && a == Take(fa, k);
    var fb :| RankingOf(fb, hits) && b == Take(fb, k);
    RankingUnique(fa, fb, hits);
  }

  lemma {:induction false} LeftOut(full: seq<Hit>, k: nat, h: Hit)
    requires Rising(full) && h in full && h !in Take(full, k)
    ensures |Take(full, k)| == k
    ensures forall g | g in Take(full, k) :: g.dist < h.dist || (g.dist == h.dist && StrLess(g.id, h.id))
  {
    var r := Take(full, k);
    var j :| 0 <= j < |full| && full[j] == h;
    assert forall i | 0 <= i < |r| :: r[i] == full[i] && r[i] in r;
    forall g | g in r ensures g.dist < h.dist || (g.dist == h.dist && StrLess(g.id, h.id)) {
      var i :| 0 <= i < |r| && r[i] == g;
      assert full[i] == g && i < j;
    }
  }

  // What a reader gets from it: at most k distinct hits of the set, nearest first, ties by rising id,
  // and a hit is left out only for k others that are nearer, or as near with a lower id.
  lemma {:induction false} TopKMeans(r: seq<Hit>, hits: set<Hit>, k: nat)
    requires IsTopK(r, hits, k)
    ensures |r| == (if |hits| < k then |hits| else k) && NoDup(r) && forall h | h in r :: h in hits
    ensures forall i, j | 0 <= i < j < |r| :: r[i].dist < r[j].dist || (r[i].dist == r[j].dist && StrLess(r[i].id, r[j].id))
    ensures forall h | h in hits && h !in r ::
              |r| == k && forall g | g in r :: g.dist < h.dist || (g.dist == h.dist && StrLess(g.id, h.id))
  {
    var full :| RankingOf(full, hits) && r == Take(full, k);
    CutSize(full, hits, k);
    hide Rising;
    forall h | h in hits && h !in r
      ensures |r| == k && forall g | g in r :: g.dist < h.dist || (g.dist == h.dist && StrLess(g.id, h.id))
    {
      LeftOut(full, k, h);
    }
  }

  lemma {:induction false} CutSize(full: seq<Hit>, hits: set<Hit>, k: nat)
    requires RankingOf(full, hits)
    ensures var r := Take(full, k);
            |r| == (if |hits| < k then |hits| else k) && NoDup(r) && forall h | h in r :: h in hits
  {
    RisingDistinct(full);
    hide Rising;
    NoDupSize(full);
    assert (set h | h in full) == hits;
  }

  // Sorts the collected hits and cuts to k.
  method RankAndCut(hits: seq<Hit>, k: nat) returns (r: seq<Hit>)
    requires NoDup(hits) && OnePerId(set h | h in hits)
    ensures IsTopK(r, (set h | h in hits), k)
  {
    var full := Sort(HitLess, hits);
    HitOrder();
    HitsTotal(hits);
    SortSorts(HitLess, hits);
    StillDistinct(hits, full);
    forall h ensures h in full <==> h in hits { SameItems(full, hits, h); }
    assert (set h | h in full) == (set h | h in hits);
    SortedRises(full);
    assert RankingOf(full, (set h | h in hits));
    r := Take(full, k);
  }

  // ---------------------------------------------------------------- brute force

  // Every live vector document that passes the filter, with its exact distance.
  ghost function Matching(d: Dist, query: Vector, f: Filter, live: Live): set<Hit> {
    set id | id in live && live[id].vector.Some? && Match(f, live[id].attrs) :: Hit(id, d(query, live[id].vector.value), live[id].attrs)
  }

  lemma {:induction false} MatchingOnePerId(d: Dist, query: Vector, f: Filter, live: Live)
    ensures OnePerId(Matching(d, query, f, live))
  {
  }

  // The simple form every index has to agree with.
  method BruteForce(d: Dist, query: Vector, f: Filter, live: Live, topK: nat) returns (r: seq<Hit>)
    ensures IsTopK(r, Matching(d, query, f, live), topK)
    ensures forall i, j | 0 <= i < j < |r| :: r[i].dist < r[j].dist || (r[i].dist == r[j].dist && StrLess(r[i].id, r[j].id))
    ensures forall id | id in live && live[id].vector.Some? && Match(f, live[id].attrs) && (forall i | 0 <= i < |r| :: r[i].id != id) ::
              |r| == topK && forall g | g in r ::
                g.dist < d(query, live[id].vector.value) || (g.dist == d(query, live[id].vector.value) && StrLess(g.id, id))
  {
    hide IsTopK;
    var hits: seq<Hit> := [];
    var todo := live.Keys;
    while todo != {}
      invariant todo <= live.Keys && NoDup(hits)
      invariant forall h :: h in hits <==> h in Matching(d, query, f, live) && h.id !in todo
    {
      var id :| id in todo;
      var doc := live[id];
      if doc.vector.Some? && Match(f, doc.attrs) {
        hits := hits + [Hit(id, d(query, doc.vector.value), doc.attrs)];
      }
      todo := todo - {id};
    }
    MatchingOnePerId(d, query, f, live);
    assert (set h | h in hits) == Matching(d, query, f, live);
    r := RankAndCut(hits, topK);
    TopKMeans(r, Matching(d, query, f, live), topK);
    forall id | id in live && live[id].vector.Some? && Match(f, live[id].attrs) && (forall i | 0 <= i < |r| :: r[i].id != id)
      ensures |r| == topK && forall g | g in r ::
                g.dist < d(query, live[id].vector.value) || (g.dist == d(query, live[id].vector.value) && StrLess(g.id, id))
    {
      assert Hit(id, d(query, live[id].vector.value), live[id].attrs) in Matching(d, query, f, live);
    }
  }
}
