// A tree over no more centroids than the fan-out is one level deep, and each of its leaves carries its
// own cluster's centroid: descending it ranks the clusters as the flat scan does.

module SmallTrees {
  import opened Types
  import opened KMeans
  import opened CentroidTree
  import opened Sorting

  ghost predicate ZeroOnEquals(d: Dist) {
    forall a, b :: d(a, b) >= 0.0 && (d(a, b) == 0.0 <==> a == b)
  }

  function Identity(n: nat): (r: seq<nat>)
    ensures |r| == n && forall i | 0 <= i < n :: r[i] == i
  {
    seq(n, (i: int) requires 0 <= i < n => i as nat)
  }

  // ---------------------------------------------------------------- k-means with as many clusters as points

  lemma {:induction false} IdentityStep(n: nat)
    requires n > 0
    ensures Identity(n)[..n - 1] == Identity(n - 1)
  {
  }

  lemma {:induction false} OwnBucket<T>(items: seq<T>, c: nat)
    ensures Bucket(items, Identity(|items|), c) == if c < |items| then [items[c]] else []
    ensures Count(Identity(|items|), c) == if c < |items| then 1 else 0
    decreases |items|
  {
    hide Identity;
    if items != [] {
      var n := |items| - 1;
      IdentityStep(|items|);
      OwnBucket(items[..n], c);
    }
  }

  lemma {:induction false} MeanOfOne(v: Vector)
    ensures MeanVec([v]) == v
  {
    forall k: nat ensures SumAt([v], k) == At(v, k) {
      assert [v][..0] == [];
    }
    assert |MeanVec([v])| == |v|;
    forall k | 0 <= k < |v| ensures MeanVec([v])[k] == v[k] {
      assert SumAt([v], k) == v[k];
    }
  }

  // From the points themselves a pass puts every point with itself and leaves everything as it is.
  lemma {:induction false} PassStands(d: Dist, points: seq<Vector>, raw: seq<nat>, means: seq<Vector>, centroids: seq<Vector>, assign: seq<nat>)
    requires ZeroOnEquals(d) && NoDup(points) && LloydPass(d, points, points, raw, means, centroids, assign)
    ensures centroids == points && assign == Identity(|points|)
  {
    hide ReseedSteps;
    forall i | 0 <= i < |points| ensures raw[i] == i {
      assert NearestOf(d, points[i], points, |points|, raw[i]);
      assert d(points[i], points[raw[i]]) <= d(points[i], points[i]) == 0.0;
    }
    assert raw == Identity(|points|);
    forall c | 0 <= c < |points| ensures Count(raw, c) == 1 && means[c] == points[c] {
      OwnBucket(points, c);
      MeanOfOne(points[c]);
    }
    hide Count, Bucket, MeanVec, NearestOf;
    forall i | 0 <= i < |points| ensures assign[i] == i && centroids[i] == points[i] {
      assert Count(raw, assign[i]) == 1;
    }
  }

  lemma {:induction false} RoundsStand(d: Dist, points: seq<Vector>, rounds: seq<Round>, i: nat)
    requires ZeroOnEquals(d) && NoDup(points) && points != [] && Rounds(d, points, |points|, rounds) && i < |rounds|
    ensures rounds[i].centroids == points && (i > 0 ==> rounds[i].assign == Identity(|points|))
    decreases i
  {
    if i == 0 {
      assert points[..|points|] == points;
    } else {
      RoundsStand(d, points, rounds, i - 1);
      assert Follows(d, points, rounds[i - 1], rounds[i]);
      var means :| LloydPass(d, points, rounds[i - 1].centroids, rounds[i].raw, means, rounds[i].centroids, rounds[i].assign);
      PassStands(d, points, rounds[i].raw, means, rounds[i].centroids, rounds[i].assign);
    }
  }

  lemma {:induction false} KMeansStands(d: Dist, points: seq<Vector>, iters: int, centroids: seq<Vector>, assign: seq<nat>)
    requires ZeroOnEquals(d) && NoDup(points) && points != [] && IsKMeans(d, points, |points|, iters, centroids, assign)
    ensures centroids == points && assign == Identity(|points|)
  {
    hide Rounds;
    var rounds :| Rounds(d, points, |points|, rounds) && Ended(iters, rounds) && LeavesOff(rounds, centroids, assign);
    RoundsStand(d, points, rounds, |rounds| - 1);
  }

  // ---------------------------------------------------------------- the tree

  // One leaf per cluster, routed to by the cluster's own centroid.
  ghost predicate FlatTree(centroids: seq<Vector>, root: Node) {
    && |root.children| == |centroids|
    && forall c | 0 <= c < |centroids| :: root.children[c] == Node(centroids[c], [], c)
  }

  // For two to fan-out many pairwise distinct centroids the tree is flat.
  lemma {:induction false} SmallTreeIsFlat(d: Dist, centroids: seq<Vector>, fanout: nat, root: Node)
    requires ZeroOnEquals(d) && NoDup(centroids) && 2 <= |centroids| <= fanout
    requires Grown(d, ItemsOf(centroids), fanout, 1, root)
    ensures FlatTree(centroids, root)
  {
    var items := ItemsOf(centroids);
    var cs, assign :| SplitBy(d, items, fanout, 1, root, cs, assign);
    assert PointsOf(items) == centroids;
    KMeansStands(d, centroids, KMEANS_ITERS, cs, assign);
    hide IsKMeans, Bucket;
    forall c | 0 <= c < |centroids| ensures root.children[c] == Node(centroids[c], [], c) {
      OwnBucket(items, c);
      LeafOfOne(d, items[c], fanout, root.children[c]);
    }
  }

  lemma {:induction false} LeafOfOne(d: Dist, item: Item, fanout: nat, n: Node)
    requires Grown(d, [item], fanout, 1, n)
    ensures n.children == [] && n.leafCluster == item.cluster
  {
  }

  // ---------------------------------------------------------------- probing it

  // Cluster c of the flat scan comes before cluster c2: nearer, or as near with the lower number.
  ghost predicate Before(d: Dist, query: Vector, centroids: seq<Vector>, c: nat, c2: nat)
    requires c < |centroids| && c2 < |centroids|
  {
    d(query, centroids[c]) < d(query, centroids[c2]) || (d(query, centroids[c]) == d(query, centroids[c2]) && c < c2)
  }

  ghost predicate LeafOf(centroids: seq<Vector>, n: Node) {
    n.leafCluster < |centroids| && n == Node(centroids[n.leafCluster], [], n.leafCluster)
  }

  ghost predicate On(level: seq<Node>, c: nat) {
    exists i :: 0 <= i < |level| && level[i].leafCluster == c
  }

  // A level below the root of a flat tree: leaves of it, each before every leaf that was dropped, and
  // none is dropped while the beam has room.
  ghost predicate BestLeaves(d: Dist, query: Vector, centroids: seq<Vector>, beam: nat, level: seq<Node>) {
    && (forall i | 0 <= i < |level| :: LeafOf(centroids, level[i]))
    && |level| == (if beam < |centroids| then beam else |centroids|)
    && forall i, c: nat | 0 <= i < |level| && c < |centroids| && !On(level, c) :: Before(d, query, centroids, level[i].leafCluster, c)
  }

  lemma {:induction false} LeavesExpand(level: seq<Node>)
    requires forall i | 0 <= i < |level| :: level[i].children == []
    ensures Expand(level) == level
  {
    ExpandIs(level);
  }

  lemma {:induction false} RootExpands(root: Node)
    requires root.children != []
    ensures Expand([root]) == root.children
  {
    assert [root][..0] == [];
  }

  lemma {:induction false} OnLevel(level: seq<Node>, n: Node)
    ensures n in level ==> On(level, n.leafCluster)
  {
  }

  // Keeping the beam nearest of the leaves below a flat root.
  lemma {:induction false} FirstCut(d: Dist, query: Vector, centroids: seq<Vector>, beam: nat, root: Node, kept: seq<Node>, rest: seq<Node>)
    requires FlatTree(centroids, root) && KeptOf(d, query, beam, root.children, kept, rest)
    ensures BestLeaves(d, query, centroids, beam, kept)
  {
    var all := root.children;
    assert |multiset(kept)| == |kept| && |multiset(rest)| == |rest| && |multiset(all)| == |all|;
    forall n | n in kept || n in rest ensures LeafOf(centroids, n) {
      assert n in multiset(kept) + multiset(rest);
      assert n in all;
    }
    forall i | 0 <= i < |kept| ensures LeafOf(centroids, kept[i]) { assert kept[i] in kept; }
    forall i, c: nat | 0 <= i < |kept| && c < |centroids| && !On(kept, c) ensures Before(d, query, centroids, kept[i].leafCluster, c) {
      assert all[c] in multiset(all);
      OnLevel(kept, all[c]);
      var j :| 0 <= j < |rest| && rest[j] == all[c];
      assert kept[i].leafCluster != c;
    }
  }

  // A cut among leaves that fit the beam drops none.
  lemma {:induction false} LaterCut(d: Dist, query: Vector, centroids: seq<Vector>, beam: nat, level: seq<Node>, kept: seq<Node>, rest: seq<Node>)
    requires BestLeaves(d, query, centroids, beam, level) && KeptOf(d, query, beam, level, kept, rest)
    ensures BestLeaves(d, query, centroids, beam, kept)
  {
    assert |multiset(kept)| == |kept| && |multiset(rest)| == |rest| && |multiset(level)| == |level|;
    assert rest == [];
    assert multiset(kept) == multiset(level);
    forall i | 0 <= i < |kept| ensures LeafOf(centroids, kept[i]) && kept[i] in level {
      SameItems(kept, level, kept[i]);
    }
    forall c | On(level, c) ensures On(kept, c) {
      var i :| 0 <= i < |level| && level[i].leafCluster == c;
      SameItems(kept, level, level[i]);
      var k :| 0 <= k < |kept| && kept[k] == level[i];
    }
    forall i, c: nat | 0 <= i < |kept| && c < |centroids| && !On(kept, c) ensures Before(d, query, centroids, kept[i].leafCluster, c) {
      var k :| 0 <= k < |level| && level[k] == kept[i];
    }
  }

  lemma {:induction false} LevelsBest(d: Dist, query: Vector, centroids: seq<Vector>, beam: nat, root: Node, levels: seq<seq<Node>>, i: nat)
    requires FlatTree(centroids, root) && centroids != [] && Descent(d, query, beam, root, levels) && 0 < i < |levels|
    ensures BestLeaves(d, query, centroids, beam, levels[i])
    decreases i
  {
    hide KeptOf, Expand, LeafOf;
    assert LevelDown(d, query, beam, levels[i - 1], levels[i]);
    var rest :| KeptOf(d, query, beam, Expand(levels[i - 1]), levels[i], rest);
    if i == 1 {
      RootExpands(root);
      FirstCut(d, query, centroids, beam, root, levels[1], rest);
    } else {
      LevelsBest(d, query, centroids, beam, root, levels, i - 1);
      AreLeaves(centroids, levels[i - 1]);
      LeavesExpand(levels[i - 1]);
      LaterCut(d, query, centroids, beam, levels[i - 1], levels[i], rest);
    }
  }

  lemma {:induction false} AreLeaves(centroids: seq<Vector>, level: seq<Node>)
    requires forall i | 0 <= i < |level| :: LeafOf(centroids, level[i])
    ensures forall i | 0 <= i < |level| :: level[i].children == []
  {
  }

  // What is emitted first is what a flat scan of the leaves would have chosen.
  lemma {:induction false} EmittedFirst(d: Dist, query: Vector, centroids: seq<Vector>, beam: nat, level: seq<Node>, probes: seq<nat>, c: nat, c2: nat)
    requires BestLeaves(d, query, centroids, beam, level) && NearestFirst(d, query, level, probes)
    requires c in probes && c2 !in probes && c2 < |centroids|
    ensures c < |centroids| && Before(d, query, centroids, c, c2)
  {
    var clusters :| Heads(d, query, level, clusters, probes);
    var order: seq<Node> :| EmittedAs(d, query, level, order, clusters);
    var p :| 0 <= p < |probes| && probes[p] == c;
    assert clusters[p] == c && order[p].leafCluster == c;
    SameItems(order, level, order[p]);
    var k :| 0 <= k < |level| && level[k] == order[p];
    assert LeafOf(centroids, level[k]);
    if On(level, c2) {
      var l :| 0 <= l < |level| && level[l].leafCluster == c2;
      assert LeafOf(centroids, level[l]);
      SameItems(order, level, level[l]);
      var m :| 0 <= m < |order| && order[m] == level[l];
      assert clusters[m] == c2;
      assert forall t | 0 <= t < |probes| :: probes[t] == clusters[t] && probes[t] in probes;
    }
  }

  // So descending a small tree probes what the flat scan would: whatever is probed is nearer than
  // whatever is not, or as near with the lower number.
  lemma {:induction false} SmallTreeProbes(d: Dist, query: Vector, centroids: seq<Vector>, fanout: nat, root: Node, beam: nat, levels: seq<seq<Node>>, probes: seq<nat>)
    requires ZeroOnEquals(d) && NoDup(centroids) && 2 <= |centroids| <= fanout && Grown(d, ItemsOf(centroids), fanout, 1, root)
    requires Descent(d, query, beam, root, levels) && AllLeaves(levels[|levels| - 1])
    requires NearestFirst(d, query, levels[|levels| - 1], probes)
    ensures forall c, c2: nat | c in probes && c2 < |centroids| && c2 !in probes ::
              c < |centroids|
              && (d(query, centroids[c]) < d(query, centroids[c2]) || (d(query, centroids[c]) == d(query, centroids[c2]) && c < c2))
  {
    hide Grown, NearestFirst, BestLeaves, LevelDown;
    SmallTreeIsFlat(d, centroids, fanout, root);
    var last := |levels| - 1;
    assert levels[0][0] == root && root.children != [];
    LevelsBest(d, query, centroids, beam, root, levels, last);
    forall c, c2: nat | c in probes && c2 < |centroids| && c2 !in probes
      ensures c < |centroids| && Before(d, query, centroids, c, c2)
    {
      EmittedFirst(d, query, centroids, beam, levels[last], probes, c, c2);
    }
  }
}
