// Posting lists as values: what a working set of clusters holds, which posting is nearest, and what
// a split or a merge does to the whole.

module Postings {
  import opened Types
  import opened KMeans
  import opened Sorting

  datatype Entry = Entry(id: string, vector: Vector, attrs: Attrs, version: nat)

  datatype Cluster = Cluster(id: nat, centroid: Vector, members: seq<Entry>)

  // ---------------------------------------------------------------- what a working set holds

  // All entries of all clusters, with multiplicity: what rebalancing has to conserve.
  function Entries(cs: seq<Cluster>): multiset<Entry>
    decreases |cs|
  {
    if cs == [] then multiset{} else Entries(cs[..|cs| - 1]) + multiset(cs[|cs| - 1].members)
  }

  // No id occurs twice.
  ghost predicate Unique(es: multiset<Entry>) {
    && (forall e | e in es :: es[e] == 1)
    && (forall e, f | e in es && f in es && e.id == f.id :: e == f)
  }

  ghost predicate DistinctIds(cs: seq<Cluster>) {
    forall i, j | 0 <= i < j < |cs| :: cs[i].id != cs[j].id
  }

  lemma {:induction false} EntriesAppend(a: seq<Cluster>, b: seq<Cluster>)
    ensures Entries(a + b) == Entries(a) + Entries(b)
    decreases |b|
  {
    if b == [] {
      assert a + b == a;
    } else {
      assert (a + b)[..|a + b| - 1] == a + b[..|b| - 1];
      EntriesAppend(a, b[..|b| - 1]);
    }
  }

  lemma {:induction false} EntriesOne(c: Cluster)
    ensures Entries([c]) == multiset(c.members)
  {
    assert [c][..0] == [];
  }

  // Taking cluster i out takes its members out, and nothing else.
  lemma {:induction false} EntriesWithout(cs: seq<Cluster>, i: nat)
    requires i < |cs|
    ensures Entries(cs) == Entries(cs[..i] + cs[i + 1..]) + multiset(cs[i].members)
  {
    hide Entries;
    assert cs == cs[..i] + ([cs[i]] + cs[i + 1..]);
    EntriesAppend(cs[..i], [cs[i]] + cs[i + 1..]);
    EntriesAppend([cs[i]], cs[i + 1..]);
    EntriesAppend(cs[..i], cs[i + 1..]);
    EntriesOne(cs[i]);
  }

  lemma {:induction false} EntriesUpdate(cs: seq<Cluster>, i: nat, c: Cluster)
    requires i < |cs|
    ensures var rest := Entries(cs[..i] + cs[i + 1..]);
            Entries(cs) == rest + multiset(cs[i].members) && Entries(cs[i := c]) == rest + multiset(c.members)
  {
    hide Entries;
    EntriesWithout(cs, i);
    EntriesWithout(cs[i := c], i);
    assert cs[i := c][..i] + cs[i := c][i + 1..] == cs[..i] + cs[i + 1..];
  }

  lemma {:induction false} EntriesGain(cs: seq<Cluster>, i: nat, e: Entry)
    requires i < |cs|
    ensures Entries(cs[i := cs[i].(members := cs[i].members + [e])]) == Entries(cs) + multiset{e}
  {
    hide Entries;
    EntriesUpdate(cs, i, cs[i].(members := cs[i].members + [e]));
    assert multiset(cs[i].members + [e]) == multiset(cs[i].members) + multiset{e};
  }

  lemma {:induction false} EntriesSeed(cs: seq<Cluster>, c: Cluster)
    ensures Entries(cs + [c]) == Entries(cs) + multiset(c.members)
  {
    EntriesAppend(cs, [c]);
    EntriesOne(c);
  }

  lemma {:induction false} EntryHeld(cs: seq<Cluster>, i: nat, e: Entry)
    requires i < |cs| && e in cs[i].members
    ensures e in Entries(cs)
  {
    EntriesWithout(cs, i);
    assert e in multiset(cs[i].members);
  }

  lemma {:induction false} EntryPlace(cs: seq<Cluster>, e: Entry)
    requires e in Entries(cs)
    ensures exists i :: 0 <= i < |cs| && e in cs[i].members
    decreases |cs|
  {
    var n := |cs| - 1;
    if e in multiset(cs[n].members) {
      assert e in cs[n].members;
    } else {
      EntryPlace(cs[..n], e);
      var i :| 0 <= i < |cs[..n]| && e in cs[..n][i].members;
      assert cs[i] == cs[..n][i];
    }
  }

  lemma {:induction false} TwoClusters(cs: seq<Cluster>, i: nat, j: nat, e: Entry)
    requires i < |cs| && j < |cs| && i != j && e in cs[i].members && e in cs[j].members
    ensures Entries(cs)[e] >= 2
  {
    hide Entries;
    EntriesWithout(cs, i);
    var rest := cs[..i] + cs[i + 1..];
    var m := if j < i then j else j - 1;
    assert rest[m] == cs[j];
    EntryHeld(rest, m, e);
    assert e in multiset(cs[i].members);
  }

  // With unique ids, an id sits in one cluster, at one position.
  lemma {:induction false} OnePlace(cs: seq<Cluster>, i: nat, j: nat, k: nat, l: nat)
    requires Unique(Entries(cs)) && i < |cs| && j < |cs| && k < |cs[i].members| && l < |cs[j].members|
    requires cs[i].members[k].id == cs[j].members[l].id
    ensures i == j && k == l
  {
    hide Entries;
    var e := cs[i].members[k];
    EntryHeld(cs, i, e);
    EntryHeld(cs, j, cs[j].members[l]);
    if i != j {
      TwoClusters(cs, i, j, e);
    } else if k != l {
      if k < l { Twice(cs[i].members, k, l); } else { Twice(cs[i].members, l, k); }
      EntriesWithout(cs, i);
    }
  }

  // The order of the postings does not change what they hold.
  lemma {:induction false} EntriesPermute(a: seq<Cluster>, b: seq<Cluster>)
    requires multiset(a) == multiset(b)
    ensures Entries(a) == Entries(b)
    decreases |a|
  {
    if a == [] {
      assert |multiset(b)| == 0;
    } else {
      hide Entries;
      var c := a[|a| - 1];
      assert a == a[..|a| - 1] + [c];
      assert c in multiset(b);
      var i :| 0 <= i < |b| && b[i] == c;
      var rest := b[..i] + b[i + 1..];
      assert b == b[..i] + [c] + b[i + 1..];
      assert multiset(rest) + multiset{c} == multiset(a[..|a| - 1]) + multiset{c};
      assert multiset(rest) == multiset(b) - multiset{c} == multiset(a[..|a| - 1]);
      EntriesPermute(a[..|a| - 1], rest);
      EntriesSeed(a[..|a| - 1], c);
      EntriesWithout(b, i);
    }
  }

  // The ids a working set holds.
  ghost function IdSet(cs: seq<Cluster>): set<string> {
    set e | e in Entries(cs) :: e.id
  }

  function NonEmpty(cs: seq<Cluster>): nat
    decreases |cs|
  {
    if cs == [] then 0 else NonEmpty(cs[..|cs| - 1]) + (if cs[|cs| - 1].members == [] then 0 else 1)
  }

  lemma {:induction false} NonEmptyAppend(a: seq<Cluster>, b: seq<Cluster>)
    ensures NonEmpty(a + b) == NonEmpty(a) + NonEmpty(b)
    decreases |b|
  {
    if b == [] {
      assert a + b == a;
    } else {
      assert (a + b)[..|a + b| - 1] == a + b[..|b| - 1];
      NonEmptyAppend(a, b[..|b| - 1]);
    }
  }

  // |C| <= |V|: there are no more non-empty postings than vectors; strictly fewer when one holds two.
  lemma {:induction false} FewerThanMembers(cs: seq<Cluster>, z: nat)
    ensures NonEmpty(cs) <= |Entries(cs)|
    ensures z < |cs| && |cs[z].members| >= 2 ==> NonEmpty(cs) < |Entries(cs)|
    decreases |cs|
  {
    if cs != [] {
      var n := |cs| - 1;
      FewerThanMembers(cs[..n], z);
      assert |Entries(cs)| == |Entries(cs[..n])| + |cs[n].members|;
    }
  }

  function IndexOf(cs: seq<Cluster>, id: nat): (i: nat)
    ensures i <= |cs| && (i < |cs| ==> cs[i].id == id)
    ensures forall j | 0 <= j < i :: cs[j].id != id
    decreases |cs|
  {
    if cs == [] then 0 else if cs[0].id == id then 0 else IndexOf(cs[1..], id) + 1
  }

  lemma {:induction false} IndexOfAt(cs: seq<Cluster>, i: nat)
    requires DistinctIds(cs) && i < |cs|
    ensures IndexOf(cs, cs[i].id) == i
  {
    var j := IndexOf(cs, cs[i].id);
    assert j <= i;
  }

  lemma {:induction false} IndexOfIds(a: seq<Cluster>, b: seq<Cluster>, id: nat)
    requires |a| == |b| && forall i | 0 <= i < |a| :: a[i].id == b[i].id
    ensures IndexOf(a, id) == IndexOf(b, id)
  {
    assert forall i | 0 <= i < |a| :: a[i].id == id <==> b[i].id == id;
  }

  // ---------------------------------------------------------------- nearest posting

  // Cluster a is a better home for v than cluster b: nearer, or as near with the lower id.
  predicate Closer(d: Dist, v: Vector, a: Cluster, b: Cluster) {
    d(v, a.centroid) < d(v, b.centroid) || (d(v, a.centroid) == d(v, b.centroid) && a.id < b.id)
  }

  // The index nearestClusterID's loop holds after n clusters.
  function NearestUpTo(d: Dist, cs: seq<Cluster>, v: Vector, skip: set<nat>, n: nat): (r: Option<nat>)
    requires n <= |cs|
    ensures r.Some? ==> r.value < n && cs[r.value].id !in skip
    decreases n
  {
    if n == 0 then None else
    var r := NearestUpTo(d, cs, v, skip, n - 1);
    if cs[n - 1].id in skip then r
    else if r.None? || Closer(d, v, cs[n - 1], cs[r.value]) then Some(n - 1)
    else r
  }

  function Nearest(d: Dist, cs: seq<Cluster>, v: Vector, skip: set<nat>): Option<nat> {
    NearestUpTo(d, cs, v, skip, |cs|)
  }

  // It is the nearest posting outside skip, the lowest id among equals.
  lemma {:induction false} NearestIsLeast(d: Dist, cs: seq<Cluster>, v: Vector, skip: set<nat>, n: nat)
    requires n <= |cs| && DistinctIds(cs)
    ensures var r := NearestUpTo(d, cs, v, skip, n);
            && (r.None? <==> forall i | 0 <= i < n :: cs[i].id in skip)
            && (r.Some? ==> forall i | 0 <= i < n && i != r.value && cs[i].id !in skip ::
                  d(v, cs[r.value].centroid) < d(v, cs[i].centroid)
                  || (d(v, cs[r.value].centroid) == d(v, cs[i].centroid) && cs[r.value].id < cs[i].id))
    decreases n
  {
    if n > 0 { NearestIsLeast(d, cs, v, skip, n - 1); }
  }

  // The choice depends on ids and centroids only, not on who sits where.
  lemma {:induction false} NearestIgnoresMembers(d: Dist, a: seq<Cluster>, b: seq<Cluster>, v: Vector, skip: set<nat>, n: nat)
    requires |a| == |b| && n <= |a|
    requires forall i | 0 <= i < |a| :: a[i].id == b[i].id && a[i].centroid == b[i].centroid
    ensures NearestUpTo(d, a, v, skip, n) == NearestUpTo(d, b, v, skip, n)
    decreases n
  {
    if n > 0 { NearestIgnoresMembers(d, a, b, v, skip, n - 1); }
  }

  function MemberIndex(members: seq<Entry>, id: string): (i: nat)
    ensures i <= |members| && (i < |members| ==> members[i].id == id)
    ensures forall j | 0 <= j < i :: members[j].id != id
    decreases |members|
  {
    if members == [] then 0 else if members[0].id == id then 0 else MemberIndex(members[1..], id) + 1
  }

  function Vectors(members: seq<Entry>): (r: seq<Vector>)
    ensures |r| == |members|
    ensures forall i | 0 <= i < |r| :: r[i] == members[i].vector
  {
    seq(|members|, (i: int) requires 0 <= i < |members| => members[i].vector)
  }

  function Recentered(c: Cluster): Cluster {
    if c.members == [] then c else c.(centroid := MeanVec(Vectors(c.members)))
  }

  // The first i clusters, without cluster v.
  function Kept(cs: seq<Cluster>, v: nat, i: nat): seq<Cluster>
    requires i <= |cs|
  {
    if i <= v then cs[..i] else cs[..v] + cs[v + 1..i]
  }

  lemma {:induction false} KeptStep(cs: seq<Cluster>, v: nat, i: nat)
    requires i < |cs|
    ensures Kept(cs, v, i + 1) == if i == v then Kept(cs, v, i) else Kept(cs, v, i) + [cs[i]]
  {
  }

  lemma {:induction false} WithoutDistinct(cs: seq<Cluster>, v: nat, next: nat)
    requires DistinctIds(cs) && v < |cs| && forall i | 0 <= i < |cs| :: cs[i].id < next
    ensures DistinctIds(cs[..v] + cs[v + 1..])
    ensures var r := cs[..v] + cs[v + 1..]; forall i | 0 <= i < |r| :: r[i].id < next
  {
    var r := cs[..v] + cs[v + 1..];
    assert forall i | 0 <= i < |r| :: r[i] == cs[if i < v then i else i + 1];
  }

  // after is before with posting v replaced by two non-empty, recentred halves of it, ids a and b.
  ghost predicate SplitOf(before: seq<Cluster>, v: nat, after: seq<Cluster>, a: nat, b: nat)
    requires v < |before|
  {
    var n := |before|;
    && |after| == n + 1 && after[..n - 1] == before[..v] + before[v + 1..]
    && after[n - 1].id == a && after[n].id == b
    && after[n - 1].members != [] && after[n].members != []
    && multiset(after[n - 1].members) + multiset(after[n].members) == multiset(before[v].members)
    && after[n - 1].centroid == MeanVec(Vectors(after[n - 1].members))
    && after[n].centroid == MeanVec(Vectors(after[n].members))
  }

  // ---------------------------------------------------------------- splits and merges

  // Every posting outside `touched` was there before, unchanged.
  ghost predicate Traced(before: seq<Cluster>, after: seq<Cluster>, touched: set<nat>) {
    forall i | 0 <= i < |after| && after[i].id !in touched :: after[i] in before
  }

  lemma {:induction false} TracedSelf(cs: seq<Cluster>)
    ensures Traced(cs, cs, {})
  {
  }

  lemma {:induction false} TracedOn(a: seq<Cluster>, b: seq<Cluster>, c: seq<Cluster>, t: set<nat>, u: set<nat>)
    requires Traced(a, b, t) && Traced(b, c, u)
    ensures Traced(a, c, t + u)
  {
    forall i | 0 <= i < |c| && c[i].id !in t + u ensures c[i] in a {
      var j :| 0 <= j < |b| && b[j] == c[i];
    }
  }

  lemma {:induction false} TracedUpdate(cs: seq<Cluster>, i: nat, c: Cluster)
    requires i < |cs| && c.id == cs[i].id
    ensures Traced(cs, cs[i := c], {c.id})
  {
    var u := cs[i := c];
    forall j | 0 <= j < |u| && u[j].id !in {c.id} ensures u[j] in cs {
      assert j != i ==> u[j] == cs[j];
    }
  }

  lemma {:induction false} TracedPush(cs: seq<Cluster>, c: Cluster)
    ensures Traced(cs, cs + [c], {c.id})
  {
    var u := cs + [c];
    forall j | 0 <= j < |u| && u[j].id !in {c.id} ensures u[j] in cs {
      assert j < |cs| ==> u[j] == cs[j];
    }
  }

  // The postings that hold something, in order.
  function Pruned(cs: seq<Cluster>): seq<Cluster>
    decreases |cs|
  {
    if cs == [] then [] else Pruned(cs[..|cs| - 1]) + (if cs[|cs| - 1].members == [] then [] else [cs[|cs| - 1]])
  }

  lemma {:induction false} TracedSplit(start: seq<Cluster>, before: seq<Cluster>, v: nat, after: seq<Cluster>, touched: set<nat>, a: nat, b: nat)
    requires DistinctIds(before) && v < |before| && SplitOf(before, v, after, a, b) && Traced(start, before, touched)
    ensures Traced(start, after, touched - {before[v].id} + {a, b})
  {
    var n := |before|;
    forall i | 0 <= i < |after| && after[i].id !in touched - {before[v].id} + {a, b} ensures after[i] in start {
      assert i < n - 1;
      assert after[i] == after[..n - 1][i];
      assert after[i] == before[if i < v then i else i + 1];
    }
  }

  lemma {:induction false} TracedMerge(start: seq<Cluster>, d: Dist, before: seq<Cluster>, v: nat, after: seq<Cluster>, touched: set<nat>, target: nat)
    requires DistinctIds(before) && v < |before| && MergeOf(d, before, v, after, target) && Traced(start, before, touched)
    ensures Traced(start, after, touched - {before[v].id} + {target})
  {
    hide MeanVec, Vectors, NearestUpTo;
    var t := Nearest(d, before, before[v].centroid, {before[v].id}).value;
    forall i | 0 <= i < |after| && after[i].id !in touched - {before[v].id} + {target} ensures after[i] in start {
      var j := if i < v then i else i + 1;
      assert j != t ==> after[i] == before[j];
    }
  }

  lemma {:induction false} NearestOther(d: Dist, cs: seq<Cluster>, v: nat)
    requires DistinctIds(cs) && v < |cs| && |cs| >= 2
    ensures var r := Nearest(d, cs, cs[v].centroid, {cs[v].id}); r.Some? && r.value != v
  {
    NearestIsLeast(d, cs, cs[v].centroid, {cs[v].id}, |cs|);
    assert cs[if v == 0 then 1 else 0].id != cs[v].id;
  }

  lemma {:induction false} MergeDone(d: Dist, cs: seq<Cluster>, v: nat, t: nat, next: nat)
    requires DistinctIds(cs) && v < |cs| && (forall i | 0 <= i < |cs| :: cs[i].id < next)
    requires Nearest(d, cs, cs[v].centroid, {cs[v].id}) == Some(t) && t != v
    ensures var grown := cs[t := Recentered(cs[t].(members := cs[t].members + cs[v].members))];
            var after := grown[..v] + grown[v + 1..];
            && DistinctIds(grown) && grown[v] == cs[v] && DistinctIds(after) && (forall i | 0 <= i < |after| :: after[i].id < next)
            && Entries(after) == Entries(cs) && MergeOf(d, cs, v, after, cs[t].id)
  {
    hide Entries, MeanVec, Vectors, NearestUpTo;
    MergeKeepsEntries(cs, v, t);
    var grown := cs[t := Recentered(cs[t].(members := cs[t].members + cs[v].members))];
    WithoutDistinct(grown, v, next);
  }

  lemma {:induction false} SplitCounts(before: seq<Cluster>, v: nat, after: seq<Cluster>, a: nat, b: nat)
    requires v < |before| && before[v].members != [] && SplitOf(before, v, after, a, b)
    ensures NonEmpty(after) == NonEmpty(before) + 1
    ensures forall i | 0 <= i < |before| - 1 :: after[i] in before && after[i] == before[if i < v then i else i + 1]
  {
    hide SplitOf;
    var n := |before|;
    assert before == before[..v] + ([before[v]] + before[v + 1..]);
    NonEmptyAppend(before[..v], [before[v]] + before[v + 1..]);
    NonEmptyAppend([before[v]], before[v + 1..]);
    NonEmptyAppend(before[..v], before[v + 1..]);
    NonEmptyOne(before[v]);
    SplitTail(before, v, after, a, b);
    NonEmptyAppend(after[..n - 1], [after[n - 1]] + [after[n]]);
    NonEmptyAppend([after[n - 1]], [after[n]]);
    NonEmptyOne(after[n - 1]);
    NonEmptyOne(after[n]);
    forall i | 0 <= i < n - 1 ensures after[i] == before[if i < v then i else i + 1] {
      assert after[i] == after[..n - 1][i];
    }
  }

  lemma {:induction false} SplitTail(before: seq<Cluster>, v: nat, after: seq<Cluster>, a: nat, b: nat)
    requires v < |before| && SplitOf(before, v, after, a, b)
    ensures var n := |before|;
            && |after| == n + 1 && after[..n - 1] == before[..v] + before[v + 1..]
            && after == after[..n - 1] + ([after[n - 1]] + [after[n]])
            && after[n - 1].members != [] && after[n].members != []
  {
  }

  lemma {:induction false} NonEmptyOne(c: Cluster)
    ensures NonEmpty([c]) == if c.members == [] then 0 else 1
  {
    assert [c][..0] == [];
  }

  // after is before with posting v dissolved into its nearest other posting, which is recentred.
  ghost predicate MergeOf(d: Dist, before: seq<Cluster>, v: nat, after: seq<Cluster>, target: nat)
    requires v < |before|
  {
    var r := Nearest(d, before, before[v].centroid, {before[v].id});
    && r.Some? && target == before[r.value].id && r.value != v
    && var grown := before[r.value := Recentered(before[r.value].(members := before[r.value].members + before[v].members))];
    after == grown[..v] + grown[v + 1..]
  }

  lemma {:induction false} MergeKeepsEntries(before: seq<Cluster>, v: nat, t: nat)
    requires v < |before| && t < |before| && v != t
    ensures var grown := before[t := Recentered(before[t].(members := before[t].members + before[v].members))];
            Entries(grown[..v] + grown[v + 1..]) == Entries(before)
  {
    hide Entries, MeanVec, Vectors;
    var c := Recentered(before[t].(members := before[t].members + before[v].members));
    var grown := before[t := c];
    EntriesUpdate(before, t, c);
    EntriesWithout(grown, v);
    var rest, gone := Entries(before[..t] + before[t + 1..]), multiset(before[v].members);
    assert multiset(c.members) == multiset(before[t].members) + gone;
    assert Entries(grown) == Entries(before) + gone;
    assert Entries(grown[..v] + grown[v + 1..]) == Entries(grown) - gone;
  }

  lemma {:induction false} SplitDone(before: seq<Cluster>, v: nat, ca: Cluster, cb: Cluster, next: nat)
    requires DistinctIds(before) && v < |before| && (forall i | 0 <= i < |before| :: before[i].id < next)
    requires ca.id == next && cb.id == next + 1 && ca.members != [] && cb.members != []
    requires ca.centroid == MeanVec(Vectors(ca.members)) && cb.centroid == MeanVec(Vectors(cb.members))
    requires multiset(ca.members) + multiset(cb.members) == multiset(before[v].members)
    ensures var after := before[..v] + before[v + 1..] + [ca, cb];
            && DistinctIds(after) && (forall i | 0 <= i < |after| :: after[i].id < next + 2)
            && Entries(after) == Entries(before) && SplitOf(before, v, after, next, next + 1)
  {
    hide Entries, MeanVec, Vectors;
    EntriesWithout(before, v);
    WithoutDistinct(before, v, next);
    var mid := before[..v] + before[v + 1..];
    EntriesSeed(mid, ca);
    EntriesSeed(mid + [ca], cb);
    assert mid + [ca] + [cb] == mid + [ca, cb];
  }
}
