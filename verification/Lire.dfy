// LIRE, the incremental rebalancing of posting lists: insert, split, merge and reassign over an
// in-memory working set of clusters that the methods change in place.

module Lire {
  import opened Types
  import opened Epoch
  import opened KMeans
  import opened Postings
  import opened Reassignment
  import opened Sorting

  // The two sides of a 2-means assignment, in order.
  method Halve(members: seq<Entry>, assign: seq<nat>) returns (left: seq<Entry>, right: seq<Entry>)
    requires |assign| == |members| && forall i | 0 <= i < |assign| :: assign[i] < 2
    ensures left == Bucket(members, assign, 0) && right == Bucket(members, assign, 1)
    ensures multiset(left) + multiset(right) == multiset(members)
  {
    hide Bucket;
    left, right := [], [];
    NoBucket(members, assign);
    var i := 0;
    while i < |members|
      invariant i <= |members|
      invariant left == Bucket(members[..i], assign[..i], 0) && right == Bucket(members[..i], assign[..i], 1)
    {
      BucketStep(members, assign, 0, i);
      BucketStep(members, assign, 1, i);
      if assign[i] == 0 {
        left := left + [members[i]];
      } else {
        right := right + [members[i]];
      }
      i := i + 1;
    }
    assert assign[..|members|] == assign && members[..|members|] == members;
    TwoBuckets(members, assign);
  }

  lemma {:induction false} NoBucket(members: seq<Entry>, assign: seq<nat>)
    requires |assign| == |members|
    ensures forall c: nat :: Bucket(members[..0], assign[..0], c) == []
  {
  }

  // The two halves are what a 2-means pass over the members' vectors assigned to either side.
  ghost predicate TwoMeans(d: Dist, members: seq<Entry>, left: seq<Entry>, right: seq<Entry>) {
    exists centroids, assign :: Sides(d, members, centroids, assign, left, right)
  }

  ghost predicate Sides(d: Dist, members: seq<Entry>, centroids: seq<Vector>, assign: seq<nat>, left: seq<Entry>, right: seq<Entry>) {
    && |centroids| == 2 && |assign| == |members| && IsKMeans(d, Vectors(members), 2, KMEANS_ITERS, centroids, assign)
    && left == Bucket(members, assign, 0) && right == Bucket(members, assign, 1)
  }

  lemma {:induction false} TwoMeansDone(d: Dist, members: seq<Entry>, centroids: seq<Vector>, assign: seq<nat>)
    requires |centroids| == 2 && |assign| == |members| && IsKMeans(d, Vectors(members), 2, KMEANS_ITERS, centroids, assign)
    requires Count(assign, 0) > 0 && Count(assign, 1) > 0
    ensures var left, right := Bucket(members, assign, 0), Bucket(members, assign, 1);
            left != [] && right != [] && TwoMeans(d, members, left, right)
  {
    hide IsKMeans, Vectors;
    BucketSize(members, assign, 0);
    BucketSize(members, assign, 1);
    assert Sides(d, members, centroids, assign, Bucket(members, assign, 0), Bucket(members, assign, 1));
  }

  // ---------------------------------------------------------------- runs of splits and merges

  // One split: the first posting over the cap becomes the two sides of a 2-means pass over its
  // members, under the next two ids.
  ghost predicate SplitsAt(d: Dist, cap: nat, a: seq<Cluster>, v: nat, b: seq<Cluster>, x: nat) {
    && v < |a| && |a[v].members| > cap && (forall i | 0 <= i < v :: |a[i].members| <= cap)
    && (forall i | 0 <= i < |a| :: a[i].id < x)
    && SplitOf(a, v, b, x, x + 1)
    && TwoMeans(d, a[v].members, b[|b| - 2].members, b[|b| - 1].members)
  }

  // n splits on end. Of the postings there at the end, the touched ones are those a split made.
  ghost predicate SplitRun(d: Dist, cap: nat, a: seq<Cluster>, b: seq<Cluster>, touched: set<nat>, n: nat)
    decreases n, 0
  {
    if n == 0 then a == b && touched == {}
    else
      var m: nat := n - 1;
      exists mid, before, v, x :: SplitRunTo(d, cap, a, mid, before, v, x, b, touched, m)
  }

  ghost predicate SplitRunTo(d: Dist, cap: nat, a: seq<Cluster>, mid: seq<Cluster>, before: set<nat>, v: nat, x: nat, b: seq<Cluster>, touched: set<nat>, n: nat)
    decreases n, 1
  {
    SplitRun(d, cap, a, mid, before, n) && SplitsAt(d, cap, mid, v, b, x) && touched == before - {mid[v].id} + {x, x + 1}
  }

  ghost predicate SplitsTo(d: Dist, cap: nat, a: seq<Cluster>, b: seq<Cluster>, touched: set<nat>) {
    exists n :: SplitRun(d, cap, a, b, touched, n)
  }

  lemma {:induction false} SplitMore(d: Dist, cap: nat, a: seq<Cluster>, mid: seq<Cluster>, before: set<nat>, v: nat, x: nat, b: seq<Cluster>, n: nat)
    requires SplitRun(d, cap, a, mid, before, n) && SplitsAt(d, cap, mid, v, b, x)
    ensures SplitRun(d, cap, a, b, before - {mid[v].id} + {x, x + 1}, n + 1)
  {
    hide SplitsAt;
    assert v < |mid| by { SplitInside(d, cap, mid, v, b, x); }
    assert SplitRunTo(d, cap, a, mid, before, v, x, b, before - {mid[v].id} + {x, x + 1}, n);
  }

  lemma {:induction false} SplitHere(d: Dist, cap: nat, a: seq<Cluster>, v: nat, b: seq<Cluster>, x: nat)
    requires v < |a| && |a[v].members| > cap && forall i | 0 <= i < v :: |a[i].members| <= cap
    requires forall i | 0 <= i < |a| :: a[i].id < x
    requires SplitOf(a, v, b, x, x + 1) && TwoMeans(d, a[v].members, b[|b| - 2].members, b[|b| - 1].members)
    ensures SplitsAt(d, cap, a, v, b, x)
  {
    hide SplitOf, TwoMeans;
  }

  lemma {:induction false} SplitsDone(d: Dist, cap: nat, a: seq<Cluster>, b: seq<Cluster>, touched: set<nat>, n: nat)
    requires SplitRun(d, cap, a, b, touched, n)
    ensures SplitsTo(d, cap, a, b, touched)
  {
    hide SplitRun;
  }

  lemma {:induction false} SplitInside(d: Dist, cap: nat, a: seq<Cluster>, v: nat, b: seq<Cluster>, x: nat)
    requires SplitsAt(d, cap, a, v, b, x)
    ensures v < |a|
  {
  }

  lemma {:induction false} NoSplits(d: Dist, cap: nat, a: seq<Cluster>)
    ensures SplitRun(d, cap, a, a, {}, 0)
  {
  }

  // One merge: the first posting under the floor goes into the nearest other posting.
  ghost predicate MergesAt(d: Dist, floor: nat, a: seq<Cluster>, v: nat, b: seq<Cluster>, target: nat) {
    && |a| >= 2 && v < |a| && |a[v].members| < floor && (forall i | 0 <= i < v :: |a[i].members| >= floor)
    && MergeOf(d, a, v, b, target)
  }

  // n merges on end. Of the postings there at the end, the touched ones are those that took one in.
  ghost predicate MergeRun(d: Dist, floor: nat, a: seq<Cluster>, b: seq<Cluster>, touched: set<nat>, n: nat)
    decreases n, 0
  {
    if n == 0 then a == b && touched == {}
    else
      var m: nat := n - 1;
      exists mid, before, v, target :: MergeRunTo(d, floor, a, mid, before, v, target, b, touched, m)
  }

  ghost predicate MergeRunTo(d: Dist, floor: nat, a: seq<Cluster>, mid: seq<Cluster>, before: set<nat>, v: nat, target: nat, b: seq<Cluster>,
      touched: set<nat>, n: nat)
    decreases n, 1
  {
    MergeRun(d, floor, a, mid, before, n) && MergesAt(d, floor, mid, v, b, target) && touched == before - {mid[v].id} + {target}
  }

  ghost predicate MergesTo(d: Dist, floor: nat, a: seq<Cluster>, b: seq<Cluster>, touched: set<nat>) {
    exists n :: MergeRun(d, floor, a, b, touched, n)
  }

  lemma {:induction false} MergeMore(d: Dist, floor: nat, a: seq<Cluster>, mid: seq<Cluster>, before: set<nat>, v: nat, target: nat, b: seq<Cluster>, n: nat)
    requires MergeRun(d, floor, a, mid, before, n) && MergesAt(d, floor, mid, v, b, target)
    ensures MergeRun(d, floor, a, b, before - {mid[v].id} + {target}, n + 1)
  {
    hide MergeOf;
    assert MergeRunTo(d, floor, a, mid, before, v, target, b, before - {mid[v].id} + {target}, n);
  }

  lemma {:induction false} NoMerges(d: Dist, floor: nat, a: seq<Cluster>)
    ensures MergeRun(d, floor, a, a, {}, 0)
  {
  }

  // ---------------------------------------------------------------- the working set

  class LireIndex {
    const dist: Dist
    var clusters: seq<Cluster>
    var nextID: nat
    var splitCap: nat
    var mergeMin: nat
    var reassignTopN: nat

    // Cluster ids are distinct, and the next one to be minted is new.
    ghost predicate Valid()
      reads this
    {
      && NonNegative(dist)
      && DistinctIds(clusters)
      && forall i | 0 <= i < |clusters| :: clusters[i].id < nextID
    }

    constructor (dist: Dist, clusters: seq<Cluster>, nextID: nat)
      requires NonNegative(dist) && DistinctIds(clusters) && forall i | 0 <= i < |clusters| :: clusters[i].id < nextID
      ensures Valid() && this.dist == dist && this.clusters == clusters && this.nextID == nextID && reassignTopN == 0
    {
      this.dist, this.clusters, this.nextID := dist, clusters, nextID;
      splitCap, mergeMin, reassignTopN := 0, 0, 0;
    }

    method ClusterByID(id: nat) returns (i: nat)
      ensures i == IndexOf(clusters, id)
    {
      i := 0;
      while i < |clusters|
        invariant i <= |clusters|
        invariant forall j | 0 <= j < i :: clusters[j].id != id
      {
        if clusters[i].id == id { return; }
        i := i + 1;
      }
    }

    method DropCluster(id: nat)
      requires Valid() && IndexOf(clusters, id) < |clusters|
      modifies this`clusters
      ensures var i := IndexOf(old(clusters), id); clusters == old(clusters)[..i] + old(clusters)[i + 1..]
    {
      var out: seq<Cluster> := [];
      var cs := clusters;
      ghost var v := IndexOf(cs, id);
      var i := 0;
      while i < |cs|
        invariant i <= |cs| && clusters == cs
        invariant out == Kept(cs, v, i)
      {
        KeptStep(cs, v, i);
        IndexOfAt(cs, i);
        if cs[i].id != id {
          out := out + [cs[i]];
        }
        i := i + 1;
      }
      assert cs[..|cs|] == cs && cs[v + 1..|cs|] == cs[v + 1..];
      clusters := out;
    }

    method NearestClusterID(v: Vector, skip: set<nat>) returns (best: nat, found: bool)
      ensures var r := Nearest(dist, clusters, v, skip);
              found == r.Some? && (found ==> best == clusters[r.value].id)
    {
      best, found := 0, false;
      var bestDist := 0.0;
      var i := 0;
      while i < |clusters|
        invariant i <= |clusters|
        invariant var r := NearestUpTo(dist, clusters, v, skip, i);
                  found == r.Some? && (found ==> best == clusters[r.value].id && bestDist == dist(v, clusters[r.value].centroid))
      {
        var c := clusters[i];
        if c.id !in skip {
          var dc := dist(v, c.centroid);
          if !found || dc < bestDist || (dc == bestDist && c.id < best) {
            best, bestDist, found := c.id, dc, true;
          }
        }
        i := i + 1;
      }
    }

    method RecenterAt(i: nat)
      requires i < |clusters|
      modifies this`clusters
      ensures clusters == old(clusters)[i := Recentered(old(clusters)[i])]
    {
      var c := clusters[i];
      if |c.members| == 0 {
        return;
      }
      var mean := Mean(Vectors(c.members));
      clusters := clusters[i := c.(centroid := mean)];
    }

    method InsertNearest(entry: Entry) returns (landed: nat)
      requires Valid()
      modifies this`clusters, this`nextID
      ensures Valid() && Entries(clusters) == Entries(old(clusters)) + multiset{entry} && Traced(old(clusters), clusters, {landed})
      ensures var r := Nearest(dist, old(clusters), entry.vector, {});
              if r.None? then landed == old(nextID) && clusters == old(clusters) + [Cluster(landed, entry.vector, [entry])]
              else landed == old(clusters)[r.value].id
                   && clusters == old(clusters)[r.value := old(clusters)[r.value].(members := old(clusters)[r.value].members + [entry])]
    {
      hide Entries;
      var id, ok := NearestClusterID(entry.vector, {});
      if !ok {
        landed := nextID;
        nextID := nextID + 1;
        EntriesSeed(clusters, Cluster(landed, entry.vector, [entry]));
        TracedPush(clusters, Cluster(landed, entry.vector, [entry]));
        clusters := clusters + [Cluster(landed, entry.vector, [entry])];
        return;
      }
      var i := ClusterByID(id);
      IndexOfAt(clusters, Nearest(dist, clusters, entry.vector, {}).value);
      EntriesGain(clusters, i, entry);
      TracedUpdate(clusters, i, clusters[i].(members := clusters[i].members + [entry]));
      clusters := clusters[i := clusters[i].(members := clusters[i].members + [entry])];
      landed := id;
    }

    // Splits one posting in two with a local 2-means pass. It succeeds whenever the posting has two
    // members, even if they are identical.
    method Split2(victim: nat) returns (a: nat, b: nat, ok: bool)
      requires Valid()
      modifies this`clusters, this`nextID
      ensures Valid() && Entries(clusters) == Entries(old(clusters))
      ensures var v := IndexOf(old(clusters), victim);
              ok <==> v < |old(clusters)| && |old(clusters)[v].members| >= 2
      ensures if ok then a == old(nextID) && b == a + 1 && nextID == a + 2 else clusters == old(clusters) && nextID == old(nextID)
      ensures ok ==> var v := IndexOf(old(clusters), victim);
                     SplitOf(old(clusters), v, clusters, a, b)
                     && TwoMeans(dist, old(clusters)[v].members, clusters[|clusters| - 2].members, clusters[|clusters| - 1].members)
    {
      hide Entries, Bucket, Count, IsKMeans, TwoMeans, MeanVec;
      var v := ClusterByID(victim);
      if v == |clusters| || |clusters[v].members| < 2 {
        return 0, 0, false;
      }
      var c := clusters[v];
      var pts := Vectors(c.members);
      var centroids, assign := KMeans.KMeans(dist, pts, 2, KMEANS_ITERS, 0);
      var left, right := Halve(c.members, assign);
      TwoMeansDone(dist, c.members, centroids, assign);
      a, b, ok := nextID, nextID + 1, true;
      nextID := nextID + 2;
      DropCluster(victim);
      var ma := Mean(Vectors(left));
      var mb := Mean(Vectors(right));
      SplitDone(old(clusters), v, Cluster(a, ma, left), Cluster(b, mb, right), a);
      clusters := clusters + [Cluster(a, ma, left), Cluster(b, mb, right)];
    }

    // Splits every posting over the cap, cascading. The iteration ceiling never decides the result,
    // and no posting is indivisible: the loop ends because nothing is over the cap.
    method SplitOversized() returns (touched: set<nat>)
      requires Valid() && splitCap >= 1
      modifies this`clusters, this`nextID
      ensures Valid() && Entries(clusters) == Entries(old(clusters)) && nextID >= old(nextID)
      ensures forall i | 0 <= i < |clusters| :: |clusters[i].members| <= splitCap
      ensures Traced(old(clusters), clusters, touched)
      ensures SplitsTo(dist, splitCap, old(clusters), clusters, touched)
    {
      hide Entries, NonEmpty, SplitOf, Traced, TwoMeans, SplitRun, SplitsAt, SplitsTo;
      touched := {};
      NoSplits(dist, splitCap, clusters);
      var total := TotalMembers();
      var maxSplits := total + 1;
      var splits := 0;
      var balanced, indivisible := false, false;
      TracedSelf(clusters);
      while splits < maxSplits && !balanced && !indivisible
        invariant Valid() && Entries(clusters) == Entries(old(clusters)) && nextID >= old(nextID)
        invariant maxSplits == |Entries(old(clusters))| + 1
        invariant splits <= NonEmpty(clusters) && !indivisible
        invariant balanced ==> forall i | 0 <= i < |clusters| :: |clusters[i].members| <= splitCap
        invariant Traced(old(clusters), clusters, touched) && SplitRun(dist, splitCap, old(clusters), clusters, touched, splits)
        decreases maxSplits - splits, !balanced
      {
        var v := FirstOver(splitCap);
        FewerThanMembers(clusters, v);
        if v == |clusters| {
          balanced := true;
        } else {
          ghost var before := clusters;
          var victim := clusters[v].id;
          var a, b, ok := SplitFirst(v);
          indivisible := !ok;
          if ok {
            TracedSplit(old(clusters), before, v, clusters, touched, a, b);
            SplitMore(dist, splitCap, old(clusters), before, touched, v, a, clusters, splits);
            touched := touched - {victim} + {a, b};
            splits := splits + 1;
          }
        }
      }
      FewerThanMembers(clusters, 0);
      SplitsDone(dist, splitCap, old(clusters), clusters, touched, splits);
    }

    // One turn of the loop: the first posting over the cap is split, and there is one more posting that
    // is not empty.
    method SplitFirst(v: nat) returns (a: nat, b: nat, ok: bool)
      requires Valid() && splitCap >= 1 && v < |clusters| && |clusters[v].members| > splitCap
      requires forall i | 0 <= i < v :: |clusters[i].members| <= splitCap
      modifies this`clusters, this`nextID
      ensures Valid() && Entries(clusters) == Entries(old(clusters)) && nextID >= old(nextID)
      ensures ok && b == a + 1 && SplitOf(old(clusters), v, clusters, a, b) && SplitsAt(dist, splitCap, old(clusters), v, clusters, a)
      ensures NonEmpty(clusters) >= NonEmpty(old(clusters)) + 1
    {
      hide Entries, NonEmpty, SplitOf, TwoMeans, SplitsAt;
      IndexOfAt(clusters, v);
      a, b, ok := Split2(clusters[v].id);
      SplitCounts(old(clusters), v, clusters, a, b);
      SplitHere(dist, splitCap, old(clusters), v, clusters, a);
    }

    method TotalMembers() returns (n: nat)
      ensures n == |Entries(clusters)|
    {
      n := 0;
      var i := 0;
      while i < |clusters|
        invariant i <= |clusters| && n == |Entries(clusters[..i])|
      {
        assert clusters[..i + 1][..i] == clusters[..i];
        n := n + |clusters[i].members|;
        i := i + 1;
      }
      assert clusters[..|clusters|] == clusters;
    }

    // The first posting over the cap.
    method FirstOver(cap: nat) returns (v: nat)
      ensures v <= |clusters| && (v < |clusters| ==> |clusters[v].members| > cap)
      ensures forall i | 0 <= i < v :: |clusters[i].members| <= cap
    {
      v := 0;
      while v < |clusters|
        invariant v <= |clusters|
        invariant forall i | 0 <= i < v :: |clusters[i].members| <= cap
      {
        if |clusters[v].members| > cap { return; }
        v := v + 1;
      }
    }

    // The first posting under the floor.
    method FirstUnder(floor: nat) returns (v: nat)
      ensures v <= |clusters| && (v < |clusters| ==> |clusters[v].members| < floor)
      ensures forall i | 0 <= i < v :: |clusters[i].members| >= floor
    {
      v := 0;
      while v < |clusters|
        invariant v <= |clusters|
        invariant forall i | 0 <= i < v :: |clusters[i].members| >= floor
      {
        if |clusters[v].members| < floor { return; }
        v := v + 1;
      }
    }

    // Moves the members of posting v into the nearest other posting and drops v.
    method MergeInto(v: nat) returns (target: nat)
      requires Valid() && v < |clusters| && |clusters| >= 2
      modifies this`clusters
      ensures Valid() && Entries(clusters) == Entries(old(clusters)) && |clusters| == |old(clusters)| - 1
      ensures MergeOf(dist, old(clusters), v, clusters, target)
    {
      hide Entries, MeanVec, Vectors, IndexOf;
      var victim := clusters[v].id;
      IndexOfAt(clusters, v);
      var found;
      target, found := NearestClusterID(clusters[v].centroid, {victim});
      NearestOther(dist, clusters, v);
      var t := ClusterByID(target);
      IndexOfAt(clusters, t);
      MergeDone(dist, clusters, v, t, nextID);
      var grown := clusters[t].(members := clusters[t].members + clusters[v].members);
      clusters := clusters[t := grown];
      RecenterAt(t);
      assert clusters == old(clusters)[t := Recentered(grown)];
      IndexOfAt(clusters, v);
      DropCluster(victim);
    }

    // Merges every posting under the floor into its nearest other posting.
    method MergeUnderfull() returns (touched: set<nat>)
      requires Valid()
      modifies this`clusters
      ensures Valid() && Entries(clusters) == Entries(old(clusters))
      ensures |clusters| <= 1 || forall i | 0 <= i < |clusters| :: |clusters[i].members| >= mergeMin
      ensures old(clusters) != [] ==> clusters != []
      ensures Traced(old(clusters), clusters, touched)
      ensures MergesTo(dist, mergeMin, old(clusters), clusters, touched)
    {
      hide Entries, MergeOf, Traced, MergeRun;
      touched := {};
      NoMerges(dist, mergeMin, clusters);
      var maxMerges := |clusters| + 1;
      var merges := 0;
      var settled := false;
      TracedSelf(clusters);
      while merges < maxMerges && !settled
        invariant Valid() && Entries(clusters) == Entries(old(clusters))
        invariant |clusters| + merges == |old(clusters)|
        invariant settled ==> |clusters| <= 1 || forall i | 0 <= i < |clusters| :: |clusters[i].members| >= mergeMin
        invariant old(clusters) != [] ==> clusters != []
        invariant Traced(old(clusters), clusters, touched) && MergeRun(dist, mergeMin, old(clusters), clusters, touched, merges)
        decreases maxMerges - merges, !settled
      {
        var v := FirstUnder(mergeMin);
        if |clusters| <= 1 || v == |clusters| {
          settled := true;
        } else {
          ghost var before := clusters;
          var victim := clusters[v].id;
          var target := MergeInto(v);
          TracedMerge(old(clusters), dist, before, v, clusters, touched, target);
          MergeMore(dist, mergeMin, old(clusters), before, touched, v, target, clusters, merges);
          touched := touched - {victim} + {target};
          merges := merges + 1;
        }
      }
    }

    // Recentres every named posting, in any order.
    method RecenterAll(ids: set<nat>)
      requires Valid()
      modifies this`clusters
      ensures Valid() && clusters == RecenterIn(old(clusters), ids)
      ensures forall i | 0 <= i < |clusters| && clusters[i].id in ids && clusters[i].members != [] ::
                clusters[i].centroid == MeanVec(Vectors(clusters[i].members))
    {
      RecenteredAre(clusters, ids);
      hide MeanVec, Vectors, Recentered;
      var todo := ids;
      while todo != {}
        invariant todo <= ids
        invariant clusters == RecenterIn(old(clusters), ids - todo)
      {
        var id: nat :| id in todo;
        RecenterIds(old(clusters), ids - todo);
        var i := ClusterByID(id);
        ghost var done := ids - todo;
        IndexOfIds(old(clusters), clusters, id);
        if i < |clusters| {
          RecenterOne(old(clusters), done, i);
          RecenterAt(i);
        } else {
          RecenterAbsent(old(clusters), done, id);
        }
        todo := todo - {id};
        assert ids - todo == done + {id};
      }
      assert ids - todo == ids;
      RecenterIds(old(clusters), ids);
    }

    method NearbyPostings(center: Vector, exclude: nat) returns (out: seq<nat>)
      ensures out == Nearby(dist, clusters, center, exclude, reassignTopN)
    {
      var cds: seq<Ranked> := [];
      var i := 0;
      while i < |clusters|
        invariant i <= |clusters| && cds == Others(dist, clusters[..i], center, exclude)
      {
        assert clusters[..i + 1][..i] == clusters[..i];
        if clusters[i].id != exclude {
          cds := cds + [Ranked(clusters[i].id, dist(center, clusters[i].centroid))];
        }
        i := i + 1;
      }
      assert clusters[..|clusters|] == clusters;
      cds := Sort(Nearer, cds);
      out := Keys(Take(cds, reassignTopN));
    }

    // Adds to the list the members of posting i that pass the test and have not been seen.
    method Gather(i: nat, test: Entry -> bool, list: seq<Candidate>, seen: set<string>)
      returns (more: seq<Candidate>, now: set<string>)
      requires Valid() && i < |clusters| && Gathered(clusters, list, seen)
      ensures Gathered(clusters, more, now)
      ensures now == seen + set e | e in clusters[i].members && test(e) :: e.id
    {
      hide Gathered;
      more, now := list, seen;
      var members := clusters[i].members;
      var k := 0;
      IndexOfAt(clusters, i);
      while k < |members|
        invariant k <= |members| && Gathered(clusters, more, now)
        invariant now == seen + set e | e in members[..k] && test(e) :: e.id
      {
        var m := members[k];
        assert members[..k + 1] == members[..k] + [m];
        if test(m) && m.id !in now {
          GatherOne(clusters, more, now, Candidate(clusters[i].id, m.id));
          more := more + [Candidate(clusters[i].id, m.id)];
          now := now + {m.id};
        }
        k := k + 1;
      }
      assert members[..|members|] == members;
    }

    // Every inserted or moved vector, wherever it sits.
    method GatherForced(force: set<string>) returns (list: seq<Candidate>, seen: set<string>)
      requires Valid()
      ensures Gathered(clusters, list, seen) && seen == Forced(clusters, |clusters|, force)
    {
      list, seen := [], {};
      var i := 0;
      while i < |clusters|
        invariant i <= |clusters| && Gathered(clusters, list, seen) && seen == Forced(clusters, i, force)
      {
        list, seen := Gather(i, (e: Entry) => e.id in force, list, seen);
        i := i + 1;
      }
    }

    // Eq. 1, over the members of the changed postings, in any order.
    method GatherEq1(changed: set<nat>, olds: map<nat, Vector>, list: seq<Candidate>, seen: set<string>)
      returns (more: seq<Candidate>, now: set<string>)
      requires Valid() && Gathered(clusters, list, seen)
      ensures Gathered(clusters, more, now) && now == seen + Eq1All(dist, clusters, olds, changed)
    {
      hide Gathered, IndexOf;
      more, now := list, seen;
      var todo := changed;
      while todo != {}
        invariant todo <= changed
        invariant Gathered(clusters, more, now) && now == seen + Eq1All(dist, clusters, olds, changed - todo)
      {
        var id: nat :| id in todo;
        var i := ClusterByID(id);
        ghost var before := now;
        if i < |clusters| {
          var d, c := dist, clusters[i];
          more, now := Gather(i, (e: Entry) => !(id in olds && d(e.vector, c.centroid) < d(e.vector, olds[id])), more, now);
        }
        assert now == before + Eq1(dist, clusters, olds, id);
        assert changed - (todo - {id}) == (changed - todo) + {id};
        todo := todo - {id};
      }
      assert changed - todo == changed;
    }

    // Eq. 2, over the postings near each changed centroid, in any order.
    method GatherEq2(changed: set<nat>, list: seq<Candidate>, seen: set<string>)
      returns (more: seq<Candidate>, now: set<string>)
      requires Valid() && Gathered(clusters, list, seen)
      ensures Gathered(clusters, more, now) && now == seen + Eq2All(dist, clusters, reassignTopN, changed)
    {
      hide Gathered, IndexOf, Nearby, Pulled;
      more, now := list, seen;
      var todo := changed;
      while todo != {}
        invariant todo <= changed
        invariant Gathered(clusters, more, now) && now == seen + Eq2All(dist, clusters, reassignTopN, changed - todo)
      {
        var id: nat :| id in todo;
        var i := ClusterByID(id);
        ghost var before := now;
        if i < |clusters| {
          var nearby := NearbyPostings(clusters[i].centroid, id);
          more, now := GatherPulled(clusters[i].centroid, nearby, more, now);
        }
        assert now == before + Eq2(dist, clusters, reassignTopN, id);
        assert changed - (todo - {id}) == (changed - todo) + {id};
        todo := todo - {id};
      }
      assert changed - todo == changed;
    }

    method GatherPulled(anew: Vector, nearby: seq<nat>, list: seq<Candidate>, seen: set<string>)
      returns (more: seq<Candidate>, now: set<string>)
      requires Valid() && Gathered(clusters, list, seen)
      ensures Gathered(clusters, more, now) && now == seen + PulledFrom(dist, clusters, anew, nearby)
    {
      hide Gathered, IndexOf;
      more, now := list, seen;
      var n := 0;
      while n < |nearby|
        invariant n <= |nearby|
        invariant Gathered(clusters, more, now) && now == seen + PulledFrom(dist, clusters, anew, nearby[..n])
      {
        var i := ClusterByID(nearby[n]);
        ghost var before := now;
        if i < |clusters| {
          var d, c := dist, clusters[i];
          more, now := Gather(i, (e: Entry) => d(e.vector, anew) <= d(e.vector, c.centroid), more, now);
        }
        assert now == before + Pulled(dist, clusters, anew, nearby[n]);
        assert nearby[..n + 1] == nearby[..n] + [nearby[n]];
        n := n + 1;
      }
      assert nearby[..|nearby|] == nearby;
    }

    method FindMember(i: nat, id: string) returns (k: nat)
      requires i < |clusters|
      ensures k == MemberIndex(clusters[i].members, id)
    {
      var members := clusters[i].members;
      k := 0;
      while k < |members|
        invariant k <= |members|
        invariant forall j | 0 <= j < k :: members[j].id != id
      {
        if members[k].id == id { return; }
        k := k + 1;
      }
    }

    // The exact re-check of one candidate: it is appended to its nearest posting with a higher
    // version, then dropped from where it was, unless it is there already.
    method Recheck(c: Candidate, ghost before: seq<Cluster>, ghost done: set<string>) returns (target: Option<nat>)
      requires Valid() && Unique(Entries(before)) && Reassigned(dist, before, done, clusters)
      requires DistinctIds(before) && Sits(before, c) && c.id !in done
      modifies this`clusters
      ensures Valid() && Reassigned(dist, before, done + {c.id}, clusters) && |clusters| == |old(clusters)|
      ensures forall i | 0 <= i < |clusters| :: clusters[i].id == old(clusters)[i].id
      ensures forall i | 0 <= i < |clusters| :: clusters[i] == old(clusters)[i]
                || (target.Some? && (clusters[i].id == c.from || clusters[i].id == target.value))
    {
      hide Unique, Entries, MemberIndex, Reassigned, Sits, IndexOf, NearestUpTo, Home, Rehomed;
      target := None;
      ghost var i0, e := Locate(dist, before, done, clusters, c);
      NearestSome(dist, clusters, e.vector);
      var i := ClusterByID(c.from);
      if i < |clusters| {
        var k := FindMember(i, c.id);
        if k < |clusters[i].members| {
          var entry := clusters[i].members[k];
          var id, ok := NearestClusterID(entry.vector, {});
          ghost var t0 := Nearest(dist, clusters, e.vector, {}).value;
          IndexOfAt(clusters, t0);
          if ok && id != c.from {
            StepMoves(dist, before, done, clusters, i, entry, k, t0);
            var moveEntry := entry.(version := entry.version + 1);
            var t := ClusterByID(id);
            clusters := clusters[t := clusters[t].(members := clusters[t].members + [moveEntry])];
            clusters := clusters[i := clusters[i].(members := clusters[i].members[..k] + clusters[i].members[k + 1..])];
            target := Some(id);
          } else {
            StepStays(dist, before, done, clusters, i, entry);
          }
        }
      }
    }

    // The exact re-check of every candidate: each one not at its nearest posting is appended there
    // with a higher version, then dropped from where it was.
    method MoveAll(list: seq<Candidate>, ghost seen: set<string>, changed: set<nat>) returns (dirty: set<nat>)
      requires Valid() && Unique(Entries(clusters)) && Gathered(clusters, list, seen)
      modifies this`clusters
      ensures Valid() && changed <= dirty && Reassigned(dist, old(clusters), seen, clusters)
      ensures forall i | 0 <= i < |clusters| && clusters[i].id !in dirty :: clusters[i] == old(clusters)[i]
    {
      hide Unique, Entries, IndexOf, MemberIndex, Nearest, Reassigned, Sits;
      dirty := changed;
      var moved: set<string> := {};
      ReassignedNone(dist, clusters);
      ghost var done: set<string> := {};
      var n := 0;
      while n < |list|
        invariant n <= |list|
        invariant Valid() && Unique(Entries(old(clusters))) && Reassigned(dist, old(clusters), done, clusters)
        invariant moved <= done && changed <= dirty
        invariant forall id | id in done :: exists k :: 0 <= k < n && list[k].id == id
        invariant forall k | 0 <= k < n :: list[k].id in done
        invariant |clusters| == |old(clusters)|
        invariant forall i | 0 <= i < |clusters| && clusters[i].id !in dirty :: clusters[i] == old(clusters)[i]
      {
        var c := list[n];
        assert Sits(old(clusters), c);
        if c.id !in moved {
          var target := Recheck(c, old(clusters), done);
          if target.Some? {
            dirty := dirty + {c.from, target.value};
            moved := moved + {c.id};
          }
        }
        done := done + {c.id};
        n := n + 1;
      }
      assert done == seen;
    }

    // Restores nearest-posting assignment for the candidates, then recentres what changed. `mid` is
    // the working set between the moves and the recentring.
    method Reassign(changed: set<nat>, olds: map<nat, Vector>, force: set<string>) returns (dirty: set<nat>, ghost mid: seq<Cluster>)
      requires Valid() && Unique(Entries(clusters))
      modifies this`clusters
      ensures Valid() && changed <= dirty
      ensures Reassigned(dist, old(clusters), Candidates(dist, old(clusters), olds, changed, force, reassignTopN), mid)
      ensures forall i | 0 <= i < |mid| && mid[i].id !in dirty :: mid[i] == old(clusters)[i]
      ensures clusters == RecenterIn(mid, dirty)
    {
      hide Unique, Entries, Reassigned, Gathered;
      if |changed| == 0 && |force| == 0 {
        dirty, mid := changed, clusters;
        assert changed == {} && force == {};
        assert Candidates(dist, clusters, olds, changed, force, reassignTopN) == {};
        ReassignedNone(dist, clusters);
        return;
      }
      var list, seen := GatherForced(force);
      list, seen := GatherEq1(changed, olds, list, seen);
      list, seen := GatherEq2(changed, list, seen);
      dirty := MoveAll(list, seen, changed);
      mid := clusters;
      RecenterAll(dirty);
    }

    method PruneEmpty()
      requires Valid()
      modifies this`clusters
      ensures Valid() && Entries(clusters) == Entries(old(clusters))
      ensures forall i | 0 <= i < |clusters| :: clusters[i].members != []
      ensures clusters == Pruned(old(clusters))
    {
      hide Entries;
      var out: seq<Cluster> := [];
      var cs := clusters;
      var i := 0;
      while i < |cs|
        invariant i <= |cs| && clusters == cs
        invariant Entries(out) == Entries(cs[..i]) && DistinctIds(out)
        invariant forall j | 0 <= j < |out| :: out[j].members != [] && out[j].id < nextID
        invariant forall c | c in out :: c in cs[..i]
        invariant out == Pruned(cs[..i])
      {
        assert cs[..i + 1] == cs[..i] + [cs[i]] && cs[..i + 1][..i] == cs[..i];
        EntriesSeed(cs[..i], cs[i]);
        EntriesSeed(out, cs[i]);
        if |cs[i].members| > 0 {
          forall j | 0 <= j < |out| ensures out[j].id != cs[i].id {
            assert out[j] in cs[..i];
          }
          out := out + [cs[i]];
        }
        i := i + 1;
      }
      assert cs[..|cs|] == cs;
      clusters := out;
    }

    // The published shape: clusters by id, members by name, and the versions that are not zero.
    method Snapshot() returns (centroids: seq<Vector>, memberIDs: seq<seq<string>>, versions: map<string, nat>, ok: bool)
      requires Unique(Entries(clusters))
      ensures ok <==> clusters != []
      ensures ok ==> SnapshotOf(clusters, centroids, memberIDs)
      ensures ok ==> forall e | e in Entries(clusters) ::
                if e.version != 0 then e.id in versions && versions[e.id] == e.version else e.id !in versions
    {
      hide Unique, Entries, Sort, Stamped;
      centroids, memberIDs, versions := [], [], map[];
      if |clusters| == 0 {
        ok := false;
        return;
      }
      ok := true;
      var sorted := Sort(ById, clusters);
      EntriesPermute(clusters, sorted);
      var c := 0;
      while c < |sorted|
        invariant c <= |sorted| && |centroids| == |memberIDs| == c
        invariant forall j | 0 <= j < c :: centroids[j] == sorted[j].centroid
        invariant forall j | 0 <= j < c :: memberIDs[j] == Sort(StrLess, Ids(sorted[j].members))
        invariant forall j, e | 0 <= j < c && e in sorted[j].members && e.version != 0 :: e.id in versions
        invariant forall id | id in versions :: Stamped(sorted, id, versions[id])
      {
        centroids := centroids + [sorted[c].centroid];
        var ids: seq<string>;
        ids, versions := Stamp(sorted, c, versions);
        memberIDs := memberIDs + [Sort(StrLess, ids)];
        c := c + 1;
      }
      StampedAll(sorted, versions);
    }
  }

  // The ids of cluster c, and its non-zero versions added to the map.
  method Stamp(cs: seq<Cluster>, c: nat, versions: map<string, nat>) returns (ids: seq<string>, more: map<string, nat>)
    requires c < |cs| && forall id | id in versions :: Stamped(cs, id, versions[id])
    ensures ids == Ids(cs[c].members)
    ensures forall id | id in more :: Stamped(cs, id, more[id])
    ensures versions.Keys <= more.Keys && forall e | e in cs[c].members && e.version != 0 :: e.id in more
  {
    var ms := cs[c].members;
    ids, more := [], versions;
    var i := 0;
    while i < |ms|
      invariant i <= |ms| && |ids| == i
      invariant forall k | 0 <= k < i :: ids[k] == ms[k].id
      invariant forall id | id in more :: Stamped(cs, id, more[id])
      invariant versions.Keys <= more.Keys && forall k | 0 <= k < i && ms[k].version != 0 :: ms[k].id in more
    {
      ids := ids + [ms[i].id];
      if ms[i].version != 0 {
        assert Holds(cs, c, ms[i]);
        more := more[ms[i].id := ms[i].version];
      }
      i := i + 1;
    }
  }

  ghost predicate Stamped(cs: seq<Cluster>, id: string, version: nat) {
    exists c, e :: Holds(cs, c, e) && e.id == id && e.version == version != 0
  }

  lemma {:induction false} StampedAll(cs: seq<Cluster>, versions: map<string, nat>)
    requires Unique(Entries(cs))
    requires forall j, e | 0 <= j < |cs| && e in cs[j].members && e.version != 0 :: e.id in versions
    requires forall id | id in versions :: Stamped(cs, id, versions[id])
    ensures forall e | e in Entries(cs) ::
              if e.version != 0 then e.id in versions && versions[e.id] == e.version else e.id !in versions
  {
    hide Unique, Entries;
    forall e | e in Entries(cs)
      ensures if e.version != 0 then e.id in versions && versions[e.id] == e.version else e.id !in versions
    {
      EntryPlace(cs, e);
      var i :| 0 <= i < |cs| && e in cs[i].members;
      if e.id in versions {
        var c, f :| Holds(cs, c, f) && f.id == e.id && f.version == versions[e.id] != 0;
        SameId(cs, i, e, c, f);
      }
    }
  }
}
