// What a published vector index has to be: every live vector in exactly one cluster, with the newest
// vector and attributes.

module Epoch {
  import opened Types
  import opened Postings
  import opened Reassignment
  import opened Sorting

  // The ids partitioned into clusters: every id at exactly one place, no cluster empty, nothing else.
  ghost predicate Covers(memberIDs: seq<seq<string>>, ids: seq<string>) {
    && (forall c | 0 <= c < |memberIDs| :: memberIDs[c] != [])
    && (forall c, k | 0 <= c < |memberIDs| && 0 <= k < |memberIDs[c]| :: memberIDs[c][k] in ids)
    && (forall id | id in ids :: Listed(memberIDs, id))
    && (forall c, k, c', k' | 0 <= c < |memberIDs| && 0 <= k < |memberIDs[c]| && 0 <= c' < |memberIDs| && 0 <= k' < |memberIDs[c']|
          && memberIDs[c][k] == memberIDs[c'][k'] :: c == c' && k == k')
  }

  ghost predicate Listed(memberIDs: seq<seq<string>>, id: string) {
    exists c :: 0 <= c < |memberIDs| && id in memberIDs[c]
  }

  datatype Clustered = Clustered(centroid: Vector, members: seq<Entry>)

  ghost predicate LiesAt(cs: seq<Clustered>, c: nat, k: nat, id: string) {
    c < |cs| && k < |cs[c].members| && cs[c].members[k].id == id
  }

  // A published epoch over a set of live documents.
  ghost predicate EpochOk(cs: seq<Clustered>, live: Live) {
    && (forall c | 0 <= c < |cs| :: cs[c].members != [])
    && (forall c, k | 0 <= c < |cs| && 0 <= k < |cs[c].members| :: FreshCopy(cs[c].members[k], live))
    && (forall id | id in live && live[id].vector.Some? :: exists c, k :: LiesAt(cs, c, k, id))
    && (forall c, k, c', k' | 0 <= c < |cs| && 0 <= k < |cs[c].members| && 0 <= c' < |cs| && 0 <= k' < |cs[c'].members|
          && cs[c].members[k].id == cs[c'].members[k'].id :: c == c' && k == k')
  }

  ghost predicate FreshCopy(e: Entry, live: Live) {
    e.id in live && live[e.id].vector == Some(e.vector) && live[e.id].attrs == e.attrs
  }

  function Ids(members: seq<Entry>): (r: seq<string>)
    ensures |r| == |members| && forall k | 0 <= k < |r| :: r[k] == members[k].id
  {
    seq(|members|, (k: int) requires 0 <= k < |members| => members[k].id)
  }

  predicate ById(a: Cluster, b: Cluster) { a.id < b.id }

  // The member lists a working set publishes: clusters by id, members by name.
  ghost predicate SnapshotOf(cs: seq<Cluster>, centroids: seq<Vector>, memberIDs: seq<seq<string>>) {
    var sorted := Sort(ById, cs);
    && |centroids| == |memberIDs| == |sorted|
    && (forall c | 0 <= c < |sorted| :: centroids[c] == sorted[c].centroid)
    && (forall c | 0 <= c < |sorted| :: memberIDs[c] == Sort(StrLess, Ids(sorted[c].members)))
  }

  lemma {:induction false} SortedIds(cs: seq<Cluster>, c: nat)
    requires Unique(Entries(cs)) && c < |cs|
    ensures var ids := Sort(StrLess, Ids(cs[c].members));
            NoDup(ids) && forall x :: x in ids <==> exists e :: Holds(cs, c, e) && e.id == x
  {
    hide Entries, Unique, Sort;
    var ms := cs[c].members;
    var raw := Ids(ms);
    forall i, j | 0 <= i < j < |raw| ensures raw[i] != raw[j] {
      if raw[i] == raw[j] { OnePlace(cs, c, c, i, j); }
    }
    var ids := Sort(StrLess, raw);
    StillDistinct(raw, ids);
    forall x ensures x in ids <==> exists e :: Holds(cs, c, e) && e.id == x {
      SameItems(raw, ids, x);
      if x in ids {
        var k :| 0 <= k < |raw| && raw[k] == x;
        assert Holds(cs, c, ms[k]) && ms[k].id == x;
      }
      if e :| Holds(cs, c, e) && e.id == x {
        var k :| 0 <= k < |ms| && ms[k] == e;
        assert raw[k] == x;
      }
    }
  }

  // A snapshot of a working set with unique ids and no empty posting covers exactly its ids.
  lemma {:induction false} SnapshotCovers(cs: seq<Cluster>, centroids: seq<Vector>, memberIDs: seq<seq<string>>, ids: seq<string>)
    requires Unique(Entries(cs)) && SnapshotOf(cs, centroids, memberIDs)
    requires forall i | 0 <= i < |cs| :: cs[i].members != []
    requires IdSet(cs) == set id | id in ids
    ensures Covers(memberIDs, ids) && |centroids| == |memberIDs|
  {
    hide Entries, Unique, Sort;
    var sorted := Sort(ById, cs);
    EntriesPermute(cs, sorted);
    forall c | 0 <= c < |sorted| ensures sorted[c].members != [] {
      SameItems(cs, sorted, sorted[c]);
    }
    forall c | 0 <= c < |sorted|
      ensures NoDup(memberIDs[c]) && memberIDs[c] != []
      ensures forall x :: x in memberIDs[c] <==> exists e :: Holds(sorted, c, e) && e.id == x
    {
      SortedIds(sorted, c);
    }
    SnapshotInside(cs, sorted, memberIDs, ids);
    SnapshotOnce(sorted, memberIDs);
  }

  // It lists the postings by rising id, and each one's members by rising name.
  lemma {:induction false} SnapshotOrder(cs: seq<Cluster>, centroids: seq<Vector>, memberIDs: seq<seq<string>>)
    returns (order: seq<Cluster>)
    requires Unique(Entries(cs)) && DistinctIds(cs) && SnapshotOf(cs, centroids, memberIDs)
    ensures multiset(order) == multiset(cs) && |order| == |centroids| == |memberIDs|
    ensures forall c, c' | 0 <= c < c' < |order| :: order[c].id < order[c'].id
    ensures forall c | 0 <= c < |order| :: centroids[c] == order[c].centroid
    ensures forall c, x | 0 <= c < |order| :: x in memberIDs[c] <==> exists e :: e in order[c].members && e.id == x
    ensures forall c, k, k' | 0 <= c < |order| && 0 <= k < k' < |memberIDs[c]| :: StrLess(memberIDs[c][k], memberIDs[c][k'])
  {
    hide Entries, Unique;
    order := Sort(ById, cs);
    PostingsRise(cs);
    EntriesPermute(cs, order);
    hide Sort, DistinctIds;
    forall c | 0 <= c < |order|
      ensures forall x :: x in memberIDs[c] <==> exists e :: e in order[c].members && e.id == x
      ensures forall k, k' | 0 <= k < k' < |memberIDs[c]| :: StrLess(memberIDs[c][k], memberIDs[c][k'])
    {
      SortedIds(order, c);
      assert forall e :: Holds(order, c, e) <==> e in order[c].members;
      NamesRise(Ids(order[c].members), memberIDs[c]);
    }
  }

  lemma {:induction false} PostingsRise(cs: seq<Cluster>)
    requires DistinctIds(cs)
    ensures var order := Sort(ById, cs); multiset(order) == multiset(cs) && forall c, c' | 0 <= c < c' < |order| :: order[c].id < order[c'].id
  {
    hide Sort;
    var order := Sort(ById, cs);
    assert WeakOrder(ById);
    SortWeak(ById, cs);
    forall c, c' | 0 <= c < c' < |order| ensures order[c].id < order[c'].id {
      assert !ById(order[c'], order[c]);
      ApartIds(cs, order, c, c');
    }
  }

  // A permutation of postings with distinct ids has distinct ids.
  lemma {:induction false} ApartIds(cs: seq<Cluster>, order: seq<Cluster>, c: nat, c': nat)
    requires DistinctIds(cs) && multiset(order) == multiset(cs) && c < c' < |order|
    ensures order[c].id != order[c'].id
  {
    SameItems(cs, order, order[c]);
    SameItems(cs, order, order[c']);
    var i :| 0 <= i < |cs| && cs[i] == order[c];
    var j :| 0 <= j < |cs| && cs[j] == order[c'];
    StillDistinct(cs, order);
  }

  lemma {:induction false} NamesRise(raw: seq<string>, ids: seq<string>)
    requires ids == Sort(StrLess, raw) && NoDup(ids)
    ensures forall k, k' | 0 <= k < k' < |ids| :: StrLess(ids[k], ids[k'])
  {
    hide Sort;
    NamesSorted(raw);
    forall k, k' | 0 <= k < k' < |ids| ensures StrLess(ids[k], ids[k']) {
      StrTotal(ids[k], ids[k']);
    }
  }

  ghost predicate ListsOf(sorted: seq<Cluster>, memberIDs: seq<seq<string>>) {
    && |memberIDs| == |sorted|
    && (forall c | 0 <= c < |sorted| :: NoDup(memberIDs[c]))
    && (forall c, x | 0 <= c < |sorted| :: x in memberIDs[c] <==> exists e :: Holds(sorted, c, e) && e.id == x)
  }

  lemma {:induction false} SnapshotInside(cs: seq<Cluster>, sorted: seq<Cluster>, memberIDs: seq<seq<string>>, ids: seq<string>)
    requires Entries(cs) == Entries(sorted) && ListsOf(sorted, memberIDs) && IdSet(cs) == set id | id in ids
    ensures forall c, k | 0 <= c < |memberIDs| && 0 <= k < |memberIDs[c]| :: memberIDs[c][k] in ids
    ensures forall id | id in ids :: Listed(memberIDs, id)
  {
    hide Entries;
    forall c, k | 0 <= c < |memberIDs| && 0 <= k < |memberIDs[c]| ensures memberIDs[c][k] in ids {
      var x := memberIDs[c][k];
      assert x in memberIDs[c];
      var e :| Holds(sorted, c, e) && e.id == x;
      EntryHeld(sorted, c, e);
      assert x in IdSet(cs);
    }
    forall id | id in ids ensures Listed(memberIDs, id) {
      assert id in IdSet(cs);
      var e :| e in Entries(cs) && e.id == id;
      EntryPlace(sorted, e);
      var c :| 0 <= c < |sorted| && e in sorted[c].members;
      assert Holds(sorted, c, e) && e.id == id;
      assert id in memberIDs[c];
    }
  }

  lemma {:induction false} SnapshotOnce(sorted: seq<Cluster>, memberIDs: seq<seq<string>>)
    requires Unique(Entries(sorted)) && ListsOf(sorted, memberIDs)
    ensures forall c, k, c', k' | 0 <= c < |memberIDs| && 0 <= k < |memberIDs[c]| && 0 <= c' < |memberIDs| && 0 <= k' < |memberIDs[c']|
              && memberIDs[c][k] == memberIDs[c'][k'] :: c == c' && k == k'
  {
    hide Entries, Unique;
    forall c, k, c', k' | 0 <= c < |memberIDs| && 0 <= k < |memberIDs[c]| && 0 <= c' < |memberIDs| && 0 <= k' < |memberIDs[c']|
              && memberIDs[c][k] == memberIDs[c'][k']
      ensures c == c' && k == k'
    {
      var x := memberIDs[c][k];
      assert x in memberIDs[c] && x in memberIDs[c'];
      var e :| Holds(sorted, c, e) && e.id == x;
      var f :| Holds(sorted, c', f) && f.id == x;
      SameId(sorted, c, e, c', f);
    }
  }
}
