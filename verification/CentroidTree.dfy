// The hierarchical centroid tree over the flat clusters, beam descent, and the choice of clusters to
// probe with or without a tree.

module CentroidTree {
  import opened Types
  import opened KMeans
  import opened Sorting

  const TREE_FANOUT := 8
  const TREE_LEAF_CAPACITY := 1
  const TREE_BEAM_FACTOR := 4

  datatype Node = Node(centroid: Vector, children: seq<Node>, leafCluster: nat) {
    predicate IsLeaf() { children == [] }
  }

  datatype Item = Item(point: Vector, cluster: nat)

  // ---------------------------------------------------------------- leaves

  // The flat clusters the leaves under a node route to, with multiplicity.
  function LeafBag(n: Node): multiset<nat>
    decreases n
  {
    if n.children == [] then multiset{n.leafCluster} else BagOf(n.children)
  }

  function BagOf(ns: seq<Node>): multiset<nat>
    decreases ns
  {
    if ns == [] then multiset{} else LeafBag(ns[0]) + BagOf(ns[1..])
  }

  lemma {:induction false} BagAppend(a: seq<Node>, b: seq<Node>)
    ensures BagOf(a + b) == BagOf(a) + BagOf(b)
    decreases |a|
  {
    hide LeafBag;
    if a == [] {
      assert a + b == b;
    } else {
      assert (a + b)[0] == a[0] && (a + b)[1..] == a[1..] + b;
      BagAppend(a[1..], b);
    }
  }

  lemma {:induction false} BagOne(n: Node)
    ensures BagOf([n]) == LeafBag(n)
  {
    hide LeafBag;
    assert [n][1..] == [];
  }

  // Every node has a leaf under it.
  lemma {:induction false} SomeLeaf(n: Node)
    ensures |LeafBag(n)| >= 1
    decreases n
  {
    if n.children != [] {
      SomeLeaf(n.children[0]);
    }
  }

  lemma {:induction false} EnoughLeaves(ns: seq<Node>)
    ensures |BagOf(ns)| >= |ns|
    decreases |ns|
  {
    hide LeafBag;
    if ns != [] {
      SomeLeaf(ns[0]);
      EnoughLeaves(ns[1..]);
    }
  }

  // Fewer nodes, or the same in another order.
  lemma {:induction false} BagPermute(a: seq<Node>, b: seq<Node>)
    requires multiset(a) == multiset(b)
    ensures BagOf(a) == BagOf(b)
    decreases |a|
  {
    hide LeafBag;
    if a == [] {
      assert |multiset(b)| == 0;
    } else {
      var i := PermuteSplit(a, b);
      var rest := b[..i] + b[i + 1..];
      BagPermute(a[1..], rest);
      BagAppend(b[..i], [b[i]] + b[i + 1..]);
      BagAppend([b[i]], b[i + 1..]);
      BagAppend(b[..i], b[i + 1..]);
      BagOne(b[i]);
    }
  }

  lemma {:induction false} BagTake(ns: seq<Node>, n: nat)
    requires n <= |ns|
    ensures BagOf(ns[..n]) <= BagOf(ns)
  {
    assert ns == ns[..n] + ns[n..];
    BagAppend(ns[..n], ns[n..]);
  }

  function ClusterBag(items: seq<Item>): multiset<nat>
    decreases |items|
  {
    if items == [] then multiset{} else ClusterBag(items[..|items| - 1]) + multiset{items[|items| - 1].cluster}
  }

  lemma {:induction false} ClusterIn(items: seq<Item>, i: nat)
    requires i < |items|
    ensures items[i].cluster in ClusterBag(items)
    decreases |items|
  {
    if i < |items| - 1 { ClusterIn(items[..|items| - 1], i); }
  }

  // ---------------------------------------------------------------- what the tree has to be

  ghost function PointsOf(items: seq<Item>): (points: seq<Vector>)
    ensures |points| == |items| && forall i | 0 <= i < |points| :: points[i] == items[i].point
  {
    seq(|items|, (i: int) requires 0 <= i < |items| => items[i].point)
  }

  // One item per flat centroid.
  ghost function ItemsOf(centroids: seq<Vector>): (items: seq<Item>)
    ensures |items| == |centroids| && forall i | 0 <= i < |items| :: items[i] == Item(centroids[i], i)
  {
    seq(|centroids|, (i: int) requires 0 <= i < |centroids| => Item(centroids[i], i))
  }

  // c is the lowest cluster of the bucket.
  ghost predicate LowestOf(items: seq<Item>, c: nat) {
    (exists i :: 0 <= i < |items| && items[i].cluster == c) && forall i | 0 <= i < |items| :: c <= items[i].cluster
  }

  // The node splits the items as k-means does, level by level: its children are the buckets of one
  // k-means run over the items' points, in order, and child c is routed to by centroid c of that run.
  ghost predicate Grown(d: Dist, items: seq<Item>, fanout: nat, capacity: nat, n: Node)
    decreases n, 1
  {
    if |items| <= capacity || |items| <= 1 || fanout <= 1 then n.children == [] && LowestOf(items, n.leafCluster)
    else exists centroids, assign :: SplitBy(d, items, fanout, capacity, n, centroids, assign)
  }

  ghost predicate SplitBy(d: Dist, items: seq<Item>, fanout: nat, capacity: nat, n: Node, centroids: seq<Vector>, assign: seq<nat>)
    decreases n, 0
  {
    && |assign| == |items| && |n.children| == |centroids| == Clusters(fanout, |items|)
    && (forall i | 0 <= i < |assign| :: assign[i] < |centroids|)
    && IsKMeans(d, PointsOf(items), Clusters(fanout, |items|), KMEANS_ITERS, centroids, assign)
    && forall c | 0 <= c < |centroids| ::
         n.children[c].centroid == centroids[c] && Grown(d, Bucket(items, assign, c), fanout, capacity, n.children[c])
  }

  // The routing key of the node itself is its parent's business.
  lemma {:induction false} GrownRenamed(d: Dist, items: seq<Item>, fanout: nat, capacity: nat, n: Node, key: Vector)
    requires Grown(d, items, fanout, capacity, n)
    ensures Grown(d, items, fanout, capacity, n.(centroid := key))
  {
    hide IsKMeans, Bucket;
    if !(|items| <= capacity || |items| <= 1 || fanout <= 1) {
      var centroids, assign :| SplitBy(d, items, fanout, capacity, n, centroids, assign);
      assert SplitBy(d, items, fanout, capacity, n.(centroid := key), centroids, assign);
    }
  }

  // ---------------------------------------------------------------- building

  // Seals a bucket into a leaf routing to its lowest cluster.
  method NewLeaf(items: seq<Item>) returns (leaf: Node)
    requires items != []
    ensures leaf.IsLeaf() && LeafBag(leaf) <= ClusterBag(items)
    ensures |items| == 1 ==> LeafBag(leaf) == ClusterBag(items)
    ensures LowestOf(items, leaf.leafCluster) && leaf.centroid == MeanVec(PointsOf(items))
  {
    hide ClusterBag, MeanVec;
    var points: seq<Vector> := [];
    var cluster := items[0].cluster;
    ghost var at := 0;
    var i := 0;
    while i < |items|
      invariant i <= |items| && at < |items| && cluster == items[at].cluster
      invariant forall j | 0 <= j < i :: cluster <= items[j].cluster
      invariant |points| == i && forall j | 0 <= j < i :: points[j] == items[j].point
    {
      points := points + [items[i].point];
      if items[i].cluster < cluster {
        cluster := items[i].cluster;
        at := i;
      }
      i := i + 1;
    }
    assert points == PointsOf(items);
    var mean := Mean(points);
    leaf := Node(mean, [], cluster);
    ClusterIn(items, at);
    OneCluster(items);
  }

  lemma {:induction false} OneCluster(items: seq<Item>)
    requires items != []
    ensures |items| == 1 ==> ClusterBag(items) == multiset{items[0].cluster}
  {
    if |items| == 1 { assert items[..0] == []; }
  }

  // The clusters of the first k buckets together.
  function BucketBag(items: seq<Item>, assign: seq<nat>, k: nat): multiset<nat>
    requires |items| == |assign|
    decreases k
  {
    if k == 0 then multiset{} else BucketBag(items, assign, k - 1) + ClusterBag(Bucket(items, assign, k - 1))
  }

  lemma {:induction false} ClusterBagPush(items: seq<Item>, x: Item)
    ensures ClusterBag(items + [x]) == ClusterBag(items) + multiset{x.cluster}
  {
    assert (items + [x])[..|items|] == items;
  }

  lemma {:induction false} BucketLast(items: seq<Item>, assign: seq<nat>, c: nat)
    requires |items| == |assign| && items != []
    ensures var n := |items| - 1;
            var b := Bucket(items[..n], assign[..n], c);
            Bucket(items, assign, c) == if assign[n] == c then b + [items[n]] else b
  {
  }

  lemma {:induction false} BucketBagStep(items: seq<Item>, assign: seq<nat>, k: nat)
    requires |items| == |assign| && items != []
    ensures var n := |items| - 1;
            BucketBag(items, assign, k) == BucketBag(items[..n], assign[..n], k) + (if assign[n] < k then multiset{items[n].cluster} else multiset{})
    decreases k
  {
    hide ClusterBag, Bucket;
    if k > 0 {
      var n := |items| - 1;
      BucketBagStep(items, assign, k - 1);
      BucketLast(items, assign, k - 1);
      ClusterBagPush(Bucket(items[..n], assign[..n], k - 1), items[n]);
    }
  }

  lemma {:induction false} BucketBagNone(k: nat)
    ensures BucketBag([], [], k) == multiset{}
    decreases k
  {
    if k > 0 { BucketBagNone(k - 1); }
  }

  // The buckets together hold every item once.
  lemma {:induction false} BucketsTogether(items: seq<Item>, assign: seq<nat>, k: nat)
    requires |items| == |assign| && forall i | 0 <= i < |assign| :: assign[i] < k
    ensures BucketBag(items, assign, k) == ClusterBag(items)
    decreases |items|
  {
    if items == [] {
      BucketBagNone(k);
    } else {
      var n := |items| - 1;
      BucketBagStep(items, assign, k);
      BucketsTogether(items[..n], assign[..n], k);
    }
  }

  lemma {:induction false} TwoCounts(assign: seq<nat>, a: nat, b: nat)
    requires a != b
    ensures Count(assign, a) + Count(assign, b) <= |assign|
    decreases |assign|
  {
    if assign != [] { TwoCounts(assign[..|assign| - 1], a, b); }
  }

  // With two or more non-empty buckets every bucket is smaller than the whole.
  lemma {:induction false} BucketsShrink(items: seq<Item>, assign: seq<nat>, k: nat, c: nat)
    requires |items| == |assign| && k >= 2 && c < k && forall j | 0 <= j < k :: Count(assign, j) > 0
    ensures 0 < |Bucket(items, assign, c)| < |items|
  {
    BucketSize(items, assign, c);
    TwoCounts(assign, c, if c == 0 then 1 else 0);
  }

  // Splits a bucket with one k-means pass and recurses on each child. With a leaf capacity of at most
  // one and a fan-out of at least two, the leaves are exactly the items' clusters.
  method BuildCentroidTree(d: Dist, items: seq<Item>, fanout: nat, capacity: nat) returns (node: Node)
    requires NonNegative(d) && items != []
    ensures LeafBag(node) <= ClusterBag(items)
    ensures capacity <= 1 && fanout >= 2 ==> LeafBag(node) == ClusterBag(items)
    ensures node.IsLeaf() <==> |items| <= capacity || |items| <= 1 || fanout <= 1
    ensures Grown(d, items, fanout, capacity, node) && node.centroid == MeanVec(PointsOf(items))
    decreases |items|
  {
    hide ClusterBag, LeafBag, BagOf, BucketBag, Count, Bucket, IsKMeans, MeanVec, Grown, LowestOf;
    if |items| <= capacity || |items| <= 1 {
      node := NewLeaf(items);
      LeafGrown(d, items, fanout, capacity, node);
      return;
    }
    var points := Points(items);
    var k := if fanout > |points| then |points| else fanout;
    var centroids, assign := KMeans.KMeans(d, points, k, KMEANS_ITERS, 0);
    var buckets := Buckets(items, assign, |centroids|);
    var nonEmpty := CountNonEmpty(buckets);
    BucketsNonEmpty(items, assign, buckets);
    if nonEmpty <= 1 {
      node := NewLeaf(items);
      LeafGrown(d, items, fanout, capacity, node);
      return;
    }
    var mean := Mean(points);
    var children: seq<Node> := [];
    NoBags(items, assign);
    var c := 0;
    while c < |buckets|
      invariant c <= |buckets| && |children| == c
      invariant BagOf(children) <= BucketBag(items, assign, c)
      invariant capacity <= 1 && fanout >= 2 ==> BagOf(children) == BucketBag(items, assign, c)
      invariant forall j | 0 <= j < c :: children[j].centroid == centroids[j] && Grown(d, Bucket(items, assign, j), fanout, capacity, children[j])
    {
      BucketsShrink(items, assign, |buckets|, c);
      var child := BuildCentroidTree(d, buckets[c], fanout, capacity);
      Renamed(child, centroids[c]);
      GrownRenamed(d, buckets[c], fanout, capacity, child, centroids[c]);
      child := child.(centroid := centroids[c]);
      BagPush(children, child);
      BucketBagNext(items, assign, c);
      children := children + [child];
      c := c + 1;
    }
    BucketsTogether(items, assign, |buckets|);
    node := Node(mean, children, 0);
    InnerBag(node);
    assert SplitBy(d, items, fanout, capacity, node, centroids, assign);
    InnerGrown(d, items, fanout, capacity, node, centroids, assign);
  }

  lemma {:induction false} LeafGrown(d: Dist, items: seq<Item>, fanout: nat, capacity: nat, n: Node)
    requires |items| <= capacity || |items| <= 1 || fanout <= 1
    requires n.children == [] && LowestOf(items, n.leafCluster)
    ensures Grown(d, items, fanout, capacity, n)
  {
  }

  lemma {:induction false} InnerGrown(d: Dist, items: seq<Item>, fanout: nat, capacity: nat, n: Node, centroids: seq<Vector>, assign: seq<nat>)
    requires !(|items| <= capacity || |items| <= 1 || fanout <= 1) && SplitBy(d, items, fanout, capacity, n, centroids, assign)
    ensures Grown(d, items, fanout, capacity, n)
  {
    hide SplitBy;
  }

  lemma {:induction false} NoBags(items: seq<Item>, assign: seq<nat>)
    requires |items| == |assign|
    ensures BagOf([]) == multiset{} && BucketBag(items, assign, 0) == multiset{}
  {
  }

  lemma {:induction false} BagPush(ns: seq<Node>, n: Node)
    ensures BagOf(ns + [n]) == BagOf(ns) + LeafBag(n)
  {
    BagAppend(ns, [n]);
    BagOne(n);
  }

  lemma {:induction false} BucketBagNext(items: seq<Item>, assign: seq<nat>, c: nat)
    requires |items| == |assign|
    ensures BucketBag(items, assign, c + 1) == BucketBag(items, assign, c) + ClusterBag(Bucket(items, assign, c))
  {
  }

  lemma {:induction false} Renamed(n: Node, c: Vector)
    ensures LeafBag(n.(centroid := c)) == LeafBag(n)
  {
  }

  lemma {:induction false} InnerBag(n: Node)
    requires n.children != []
    ensures LeafBag(n) == BagOf(n.children)
  {
  }

  method Points(items: seq<Item>) returns (points: seq<Vector>)
    ensures points == PointsOf(items)
  {
    points := [];
    while |points| < |items|
      invariant |points| <= |items| && forall i | 0 <= i < |points| :: points[i] == items[i].point
    {
      points := points + [items[|points|].point];
    }
  }

  method Buckets(items: seq<Item>, assign: seq<nat>, k: nat) returns (buckets: seq<seq<Item>>)
    requires |items| == |assign|
    ensures |buckets| == k && forall c | 0 <= c < k :: buckets[c] == Bucket(items, assign, c)
  {
    buckets := [];
    while |buckets| < k
      invariant |buckets| <= k && forall c | 0 <= c < |buckets| :: buckets[c] == Bucket(items, assign, c)
    {
      var bucket: seq<Item> := [];
      var i := 0;
      while i < |items|
        invariant i <= |items| && bucket == Bucket(items[..i], assign[..i], |buckets|)
      {
        assert items[..i + 1][..i] == items[..i] && assign[..i + 1][..i] == assign[..i];
        if assign[i] == |buckets| { bucket := bucket + [items[i]]; }
        i := i + 1;
      }
      assert items[..|items|] == items && assign[..|items|] == assign;
      buckets := buckets + [bucket];
    }
  }

  method CountNonEmpty(buckets: seq<seq<Item>>) returns (n: nat)
    ensures n <= |buckets| && ((forall c | 0 <= c < |buckets| :: buckets[c] != []) ==> n == |buckets|)
  {
    n := 0;
    var c := 0;
    while c < |buckets|
      invariant n <= c <= |buckets| && ((forall j | 0 <= j < c :: buckets[j] != []) ==> n == c)
    {
      if |buckets[c]| > 0 { n := n + 1; }
      c := c + 1;
    }
  }

  lemma {:induction false} BucketsNonEmpty(items: seq<Item>, assign: seq<nat>, buckets: seq<seq<Item>>)
    requires |items| == |assign| && forall c | 0 <= c < |buckets| :: Count(assign, c) > 0 && buckets[c] == Bucket(items, assign, c)
    ensures forall c | 0 <= c < |buckets| :: buckets[c] != []
  {
    hide Count, Bucket;
    forall c | 0 <= c < |buckets| ensures buckets[c] != [] { BucketSize(items, assign, c); }
  }

  // The numbers 0 .. n - 1, each once.
  function UpTo(n: nat): multiset<nat>
    decreases n
  {
    if n == 0 then multiset{} else UpTo(n - 1) + multiset{n - 1}
  }

  lemma {:induction false} UpToIs(n: nat)
    ensures |UpTo(n)| == n && forall x: nat :: UpTo(n)[x] == if x < n then 1 else 0
    decreases n
  {
    if n > 0 { UpToIs(n - 1); }
  }

  lemma {:induction false} NoClusters()
    ensures ClusterBag([]) == UpTo(0)
  {
  }

  lemma {:induction false} NextCluster(n: nat)
    ensures UpTo(n + 1) == UpTo(n) + multiset{n}
  {
  }

  // The tree over the flat centroids, or none when it would be a single leaf. Otherwise it is grown
  // from them by k-means, and its leaves are a permutation of the clusters.
  method BuildTree(d: Dist, centroids: seq<Vector>, fanout: nat, capacity: nat) returns (tree: Option<Node>)
    requires NonNegative(d)
    ensures tree.None? <==> centroids == [] || |centroids| <= capacity || |centroids| <= 1 || fanout <= 1
    ensures tree.Some? ==> !tree.value.IsLeaf() && LeafBag(tree.value) <= UpTo(|centroids|)
    ensures tree.Some? && capacity <= 1 ==> LeafBag(tree.value) == UpTo(|centroids|)
    ensures tree.Some? ==> Grown(d, ItemsOf(centroids), fanout, capacity, tree.value) && tree.value.centroid == MeanVec(centroids)
  {
    hide LeafBag, Grown, MeanVec, ClusterBag, UpTo;
    if |centroids| == 0 {
      return None;
    }
    var items: seq<Item> := [];
    NoClusters();
    while |items| < |centroids|
      invariant |items| <= |centroids| && ClusterBag(items) == UpTo(|items|)
      invariant forall i | 0 <= i < |items| :: items[i] == Item(centroids[i], i)
    {
      ClusterBagPush(items, Item(centroids[|items|], |items|));
      NextCluster(|items|);
      items := items + [Item(centroids[|items|], |items|)];
    }
    assert items == ItemsOf(centroids) && PointsOf(items) == centroids;
    var root := BuildCentroidTree(d, items, fanout, capacity);
    if |root.children| == 0 {
      return None;
    }
    tree := Some(root);
  }

  // ---------------------------------------------------------------- beam descent

  function Size(n: Node): (s: nat)
    ensures s >= 1
    decreases n
  {
    1 + SizeOf(n.children)
  }

  function SizeOf(ns: seq<Node>): nat
    decreases ns
  {
    if ns == [] then 0 else Size(ns[0]) + SizeOf(ns[1..])
  }

  lemma {:induction false} SizeAppend(a: seq<Node>, b: seq<Node>)
    ensures SizeOf(a + b) == SizeOf(a) + SizeOf(b)
    decreases |a|
  {
    hide Size;
    if a == [] {
      assert a + b == b;
    } else {
      assert (a + b)[0] == a[0] && (a + b)[1..] == a[1..] + b;
      SizeAppend(a[1..], b);
    }
  }

  lemma {:induction false} SizePermute(a: seq<Node>, b: seq<Node>)
    requires multiset(a) == multiset(b)
    ensures SizeOf(a) == SizeOf(b)
    decreases |a|
  {
    hide Size;
    if a == [] {
      assert |multiset(b)| == 0;
    } else {
      var i := PermuteSplit(a, b);
      var rest := b[..i] + b[i + 1..];
      SizePermute(a[1..], rest);
      SizeAppend(b[..i], [b[i]] + b[i + 1..]);
      SizeAppend([b[i]], b[i + 1..]);
      SizeAppend(b[..i], b[i + 1..]);
      assert [b[i]][1..] == [];
    }
  }

  lemma {:induction false} SizeTake(ns: seq<Node>, n: nat)
    requires n <= |ns|
    ensures SizeOf(ns[..n]) <= SizeOf(ns)
  {
    assert ns == ns[..n] + ns[n..];
    SizeAppend(ns[..n], ns[n..]);
  }

  datatype Scored = Scored(node: Node, dist: real)

  // A leaf sorts by its cluster; inner nodes sort after any leaf on a tie.
  function LeafKey(n: Node): nat { if n.children == [] then n.leafCluster else 0x4000_0000 }

  predicate CandLess(a: Scored, b: Scored) {
    a.dist < b.dist || (a.dist == b.dist && LeafKey(a.node) < LeafKey(b.node))
  }

  function Nodes(ss: seq<Scored>): (r: seq<Node>)
    ensures |r| == |ss| && forall i | 0 <= i < |r| :: r[i] == ss[i].node
  {
    seq(|ss|, (i: int) requires 0 <= i < |ss| => ss[i].node)
  }

  lemma {:induction false} NodesAppend(a: seq<Scored>, b: seq<Scored>)
    ensures Nodes(a + b) == Nodes(a) + Nodes(b)
  {
  }

  lemma {:induction false} NodesPermute(a: seq<Scored>, b: seq<Scored>)
    requires multiset(a) == multiset(b)
    ensures multiset(Nodes(a)) == multiset(Nodes(b))
    decreases |a|
  {
    if a == [] {
      assert |multiset(b)| == 0;
    } else {
      var i := PermuteSplit(a, b);
      var p, q := b[..i], b[i + 1..];
      NodesPermute(a[1..], p + q);
      NodesAppend([a[0]], a[1..]);
      NodesAppend(p, [b[i]] + q);
      NodesAppend([b[i]], q);
      NodesAppend(p, q);
      assert a == [a[0]] + a[1..] && b == p + ([b[i]] + q);
      hide Nodes;
    }
  }

  // One level down: leaves stay, inner nodes are replaced by their children.
  function Expand(ns: seq<Node>): seq<Node>
    decreases |ns|
  {
    if ns == [] then [] else
    var n := |ns| - 1;
    Expand(ns[..n]) + (if ns[n].children == [] then [ns[n]] else ns[n].children)
  }

  predicate AllLeaves(ns: seq<Node>) { forall i | 0 <= i < |ns| :: ns[i].children == [] }

  lemma {:induction false} ExpandIs(ns: seq<Node>)
    ensures BagOf(Expand(ns)) == BagOf(ns) && |Expand(ns)| >= |ns|
    ensures if AllLeaves(ns) then Expand(ns) == ns else SizeOf(Expand(ns)) < SizeOf(ns)
  {
    ExpandBag(ns);
    ExpandSize(ns);
  }

  lemma {:induction false} LastBag(n: Node)
    ensures BagOf(if n.children == [] then [n] else n.children) == BagOf([n])
    ensures SizeOf([n]) == 1 + SizeOf(n.children)
  {
    BagOne(n);
    assert [n][1..] == [];
  }

  lemma {:induction false} ExpandBag(ns: seq<Node>)
    ensures BagOf(Expand(ns)) == BagOf(ns) && |Expand(ns)| >= |ns|
    decreases |ns|
  {
    hide BagOf, LeafBag, SizeOf;
    if ns != [] {
      var n := |ns| - 1;
      var last := if ns[n].children == [] then [ns[n]] else ns[n].children;
      ExpandBag(ns[..n]);
      assert ns == ns[..n] + [ns[n]];
      BagAppend(ns[..n], [ns[n]]);
      BagAppend(Expand(ns[..n]), last);
      LastBag(ns[n]);
    }
  }

  lemma {:induction false} ExpandSize(ns: seq<Node>)
    ensures if AllLeaves(ns) then Expand(ns) == ns else SizeOf(Expand(ns)) < SizeOf(ns)
    decreases |ns|
  {
    hide SizeOf, BagOf;
    if ns != [] {
      var n := |ns| - 1;
      var last := if ns[n].children == [] then [ns[n]] else ns[n].children;
      ExpandSize(ns[..n]);
      assert ns == ns[..n] + [ns[n]];
      SizeAppend(ns[..n], [ns[n]]);
      SizeAppend(Expand(ns[..n]), last);
      LastBag(ns[n]);
      if AllLeaves(ns) { assert AllLeaves(ns[..n]); }
    }
  }

  // The leaves of one frontier node per cluster, or all the leaves when they fit the beam.
  ghost predicate OnBeam(root: Node, frontier: seq<Node>, beam: nat) {
    && BagOf(frontier) <= LeafBag(root)
    && if |frontier| == beam then true else |frontier| < beam && BagOf(frontier) == LeafBag(root)
  }

  // One level of the descent keeps the frontier on the beam.
  lemma {:induction false} LevelKeeps(root: Node, frontier: seq<Node>, beam: nat, cand: seq<Scored>, sorted: seq<Scored>)
    requires OnBeam(root, frontier, beam) && Nodes(cand) == Expand(frontier) && multiset(cand) == multiset(sorted)
    ensures var next := Nodes(Take(sorted, beam));
            OnBeam(root, next, beam) && (!AllLeaves(frontier) ==> SizeOf(next) < SizeOf(frontier))
  {
    hide LeafBag, BagOf, Expand, SizeOf, AllLeaves;
    ExpandIs(frontier);
    NodesPermute(cand, sorted);
    BagPermute(Nodes(cand), Nodes(sorted));
    SizePermute(Nodes(cand), Nodes(sorted));
    var all := Nodes(sorted);
    var next := Nodes(Take(sorted, beam));
    assert next == all[..|next|];
    BagTake(all, |next|);
    SizeTake(all, |next|);
    assert |cand| == |Expand(frontier)|;
    assert |multiset(cand)| == |cand| && |multiset(sorted)| == |sorted|;
    assert |next| < beam ==> next == all;
  }

  // Scores every node of the next level.
  method ScoreLevel(d: Dist, query: Vector, frontier: seq<Node>) returns (cand: seq<Scored>)
    ensures Nodes(cand) == Expand(frontier)
    ensures forall i | 0 <= i < |cand| :: cand[i].dist == d(query, cand[i].node.centroid)
  {
    cand := [];
    var i := 0;
    while i < |frontier|
      invariant i <= |frontier| && Nodes(cand) == Expand(frontier[..i])
      invariant forall j | 0 <= j < |cand| :: cand[j].dist == d(query, cand[j].node.centroid)
    {
      assert frontier[..i + 1][..i] == frontier[..i];
      var n := frontier[i];
      if |n.children| == 0 {
        cand := cand + [Scored(n, d(query, n.centroid))];
      } else {
        var c := 0;
        while c < |n.children|
          invariant c <= |n.children| && Nodes(cand) == Expand(frontier[..i]) + n.children[..c]
          invariant forall j | 0 <= j < |cand| :: cand[j].dist == d(query, cand[j].node.centroid)
        {
          assert n.children[..c + 1] == n.children[..c] + [n.children[c]];
          cand := cand + [Scored(n.children[c], d(query, n.children[c].centroid))];
          c := c + 1;
        }
        assert n.children[..|n.children|] == n.children;
      }
      i := i + 1;
    }
    assert frontier[..|frontier|] == frontier;
  }

  // One level of the descent: of the next nodes down, up to `beam` are kept, and none that is kept is
  // farther from the query than one that is not.
  ghost predicate LevelDown(d: Dist, query: Vector, beam: nat, frontier: seq<Node>, next: seq<Node>) {
    exists rest :: KeptOf(d, query, beam, Expand(frontier), next, rest)
  }

  ghost predicate KeptOf(d: Dist, query: Vector, beam: nat, all: seq<Node>, kept: seq<Node>, rest: seq<Node>) {
    && multiset(kept) + multiset(rest) == multiset(all)
    && |kept| <= beam && (rest == [] || |kept| == beam)
    && forall i, j | 0 <= i < |kept| && 0 <= j < |rest| ::
         d(query, kept[i].centroid) < d(query, rest[j].centroid)
         || (d(query, kept[i].centroid) == d(query, rest[j].centroid) && LeafKey(kept[i]) <= LeafKey(rest[j]))
  }

  // Among nodes as near as each other the beam drops inner nodes before leaves, and leaves from the
  // highest cluster down, as long as there are fewer than 2^30 clusters.
  lemma {:induction false} TiesKept(d: Dist, query: Vector, beam: nat, all: seq<Node>, kept: seq<Node>, rest: seq<Node>, i: nat, j: nat)
    requires KeptOf(d, query, beam, all, kept, rest) && i < |kept| && j < |rest|
    requires d(query, kept[i].centroid) == d(query, rest[j].centroid)
    requires kept[i].leafCluster < 0x4000_0000 && rest[j].leafCluster < 0x4000_0000
    ensures rest[j].children == [] ==> kept[i].children == [] && kept[i].leafCluster <= rest[j].leafCluster
  {
  }

  // A whole descent, root to leaves.
  ghost predicate Descent(d: Dist, query: Vector, beam: nat, root: Node, levels: seq<seq<Node>>) {
    && levels != [] && levels[0] == [root]
    && forall i | 0 < i < |levels| :: LevelDown(d, query, beam, levels[i - 1], levels[i])
  }

  // The clusters of distinct leaves, nearest leaf first, the lower cluster on a tie.
  ghost predicate Emitted(d: Dist, query: Vector, leaves: seq<Node>, clusters: seq<nat>) {
    exists order :: EmittedAs(d, query, leaves, order, clusters)
  }

  ghost predicate EmittedAs(d: Dist, query: Vector, leaves: seq<Node>, order: seq<Node>, clusters: seq<nat>) {
    && multiset(order) == multiset(leaves) && |order| == |clusters|
    && (forall i | 0 <= i < |order| :: order[i].leafCluster == clusters[i])
    && (forall i, j | 0 <= i < j < |order| ::
          d(query, order[i].centroid) < d(query, order[j].centroid)
          || (d(query, order[i].centroid) == d(query, order[j].centroid) && clusters[i] < clusters[j]))
  }

  lemma {:induction false} CutIsNearest(d: Dist, query: Vector, beam: nat, frontier: seq<Node>, cand: seq<Scored>, sorted: seq<Scored>)
    requires Nodes(cand) == Expand(frontier) && sorted == Sort(CandLess, cand)
    requires forall i | 0 <= i < |cand| :: cand[i].dist == d(query, cand[i].node.centroid)
    ensures LevelDown(d, query, beam, frontier, Nodes(Take(sorted, beam)))
  {
    hide Sort, Expand;
    SortWeak(CandLess, cand);
    NodesPermute(cand, sorted);
    var n := |Take(sorted, beam)|;
    var all := Nodes(sorted);
    assert Nodes(Take(sorted, beam)) == all[..n];
    assert all == all[..n] + all[n..];
    forall i | 0 <= i < |sorted| ensures sorted[i].dist == d(query, sorted[i].node.centroid) {
      SameItems(cand, sorted, sorted[i]);
    }
    assert KeptOf(d, query, beam, Expand(frontier), all[..n], all[n..]);
  }

  lemma {:induction false} DescentOn(d: Dist, query: Vector, beam: nat, root: Node, levels: seq<seq<Node>>, next: seq<Node>)
    requires Descent(d, query, beam, root, levels) && LevelDown(d, query, beam, levels[|levels| - 1], next)
    ensures Descent(d, query, beam, root, levels + [next])
  {
    hide LevelDown;
  }

  // Descends keeping the beam nearest nodes at each level. On a tree whose leaves route to distinct
  // clusters it terminates with exactly min(beam, leaves) distinct clusters of the tree.
  method BeamDescend(d: Dist, root: Node, query: Vector, beamWidth: int) returns (clusters: seq<nat>, ghost levels: seq<seq<Node>>)
    requires forall x | x in LeafBag(root) :: LeafBag(root)[x] == 1
    ensures NoDup(clusters) && forall c | c in clusters :: c in LeafBag(root)
    ensures var beam := if beamWidth < 1 then 1 else beamWidth;
            && |clusters| == (if beam < |LeafBag(root)| then beam else |LeafBag(root)|)
            && Descent(d, query, beam, root, levels) && levels != [] && AllLeaves(levels[|levels| - 1])
            && Emitted(d, query, levels[|levels| - 1], clusters)
  {
    hide LeafBag, BagOf, Expand, SizeOf, Descent, LevelDown, Emitted;
    var beam: nat := if beamWidth < 1 then 1 else beamWidth;
    var frontier := [root];
    levels := [frontier];
    BagOne(root);
    DescentStart(d, query, beam, root);
    while !AllLeaves(frontier)
      invariant OnBeam(root, frontier, beam)
      invariant Descent(d, query, beam, root, levels) && levels != [] && levels[|levels| - 1] == frontier
      decreases SizeOf(frontier)
    {
      var cand := ScoreLevel(d, query, frontier);
      var sorted := Sort(CandLess, cand);
      LevelKeeps(root, frontier, beam, cand, sorted);
      CutIsNearest(d, query, beam, frontier, cand, sorted);
      frontier := Nodes(Take(sorted, beam));
      DescentOn(d, query, beam, root, levels, frontier);
      levels := levels + [frontier];
    }
    clusters := Emit(d, query, frontier);
    FrontierDistinct(root, frontier);
    BeamCount(root, frontier, beam, clusters);
  }

  lemma {:induction false} DescentStart(d: Dist, query: Vector, beam: nat, root: Node)
    ensures Descent(d, query, beam, root, [[root]])
  {
  }

  lemma {:induction false} FirstLeaf(ns: seq<Node>)
    requires AllLeaves(ns)
    ensures if ns == [] then BagOf(ns) == multiset{} else AllLeaves(ns[1..]) && BagOf(ns) == multiset{ns[0].leafCluster} + BagOf(ns[1..])
  {
  }

  // A frontier of leaves routes to as many clusters as it has leaves.
  lemma {:induction false} LeavesRoute(ns: seq<Node>)
    requires AllLeaves(ns)
    ensures |BagOf(ns)| == |ns|
    ensures forall x :: x in BagOf(ns) <==> exists i :: 0 <= i < |ns| && ns[i].leafCluster == x
    decreases |ns|
  {
    FirstLeaf(ns);
    hide LeafBag, BagOf;
    if ns != [] {
      var t := ns[1..];
      LeavesRoute(t);
      forall x ensures x in BagOf(ns) <==> exists i :: 0 <= i < |ns| && ns[i].leafCluster == x {
        if x in BagOf(t) {
          var i :| 0 <= i < |t| && t[i].leafCluster == x;
          assert ns[i + 1].leafCluster == x;
        }
        if i :| 0 <= i < |ns| && ns[i].leafCluster == x {
          if i > 0 { assert t[i - 1] == ns[i]; }
        }
      }
    }
  }

  lemma {:induction false} LeavesTwice(ns: seq<Node>, i: nat, j: nat)
    requires AllLeaves(ns) && i < j < |ns| && ns[i].leafCluster == ns[j].leafCluster
    ensures BagOf(ns)[ns[i].leafCluster] >= 2
    decreases |ns|
  {
    FirstLeaf(ns);
    hide LeafBag, BagOf;
    var t := ns[1..];
    assert t[j - 1] == ns[j];
    if i == 0 {
      LeavesRoute(t);
    } else {
      assert t[i - 1] == ns[i];
      LeavesTwice(t, i - 1, j - 1);
    }
  }

  lemma {:induction false} FrontierDistinct(root: Node, frontier: seq<Node>)
    requires forall x | x in LeafBag(root) :: LeafBag(root)[x] == 1
    requires BagOf(frontier) <= LeafBag(root) && AllLeaves(frontier)
    ensures LeavesDistinct(frontier)
  {
    hide LeafBag, BagOf, AllLeaves;
    forall i, j | 0 <= i < j < |frontier| ensures frontier[i].leafCluster != frontier[j].leafCluster {
      if frontier[i].leafCluster == frontier[j].leafCluster { LeavesTwice(frontier, i, j); }
    }
    LeavesRoute(frontier);
  }

  ghost predicate LeavesDistinct(ns: seq<Node>) {
    forall i, j | 0 <= i < j < |ns| :: ns[i].leafCluster != ns[j].leafCluster
  }

  predicate LeafLess(a: Scored, b: Scored) {
    a.dist < b.dist || (a.dist == b.dist && a.node.leafCluster < b.node.leafCluster)
  }

  lemma {:induction false} FrontierClusters(frontier: seq<Node>, leaves: seq<Scored>, sorted: seq<Scored>, clusters: seq<nat>)
    requires |leaves| == |frontier| && forall i | 0 <= i < |leaves| :: leaves[i].node == frontier[i]
    requires multiset(leaves) == multiset(sorted)
    requires forall x: nat :: x in clusters <==> exists j :: 0 <= j < |sorted| && sorted[j].node.leafCluster == x
    ensures forall x: nat :: x in clusters <==> exists i :: 0 <= i < |frontier| && frontier[i].leafCluster == x
  {
    forall x: nat ensures x in clusters <==> exists i :: 0 <= i < |frontier| && frontier[i].leafCluster == x {
      if x in clusters {
        var j :| 0 <= j < |sorted| && sorted[j].node.leafCluster == x;
        SameItems(sorted, leaves, sorted[j]);
        var k :| 0 <= k < |leaves| && leaves[k] == sorted[j];
        assert frontier[k].leafCluster == x;
      }
      if k :| 0 <= k < |frontier| && frontier[k].leafCluster == x {
        assert leaves[k] in leaves;
        SameItems(sorted, leaves, leaves[k]);
        var j :| 0 <= j < |sorted| && sorted[j] == leaves[k];
        assert sorted[j].node.leafCluster == x;
      }
    }
  }

  // The clusters in order, each at its first leaf.
  method Deduplicate(sorted: seq<Scored>) returns (clusters: seq<nat>)
    ensures NoDup(clusters)
    ensures forall x: nat :: x in clusters <==> exists j :: 0 <= j < |sorted| && sorted[j].node.leafCluster == x
    ensures (forall i, j | 0 <= i < j < |sorted| :: sorted[i].node.leafCluster != sorted[j].node.leafCluster)
            ==> |clusters| == |sorted| && forall j | 0 <= j < |sorted| :: clusters[j] == sorted[j].node.leafCluster
  {
    ghost var distinct := forall i, j | 0 <= i < j < |sorted| :: sorted[i].node.leafCluster != sorted[j].node.leafCluster;
    var seen: set<nat> := {};
    clusters := [];
    var i := 0;
    while i < |sorted|
      invariant i <= |sorted| && NoDup(clusters)
      invariant forall x :: x in seen <==> x in clusters
      invariant forall x: nat :: x in clusters <==> exists j :: 0 <= j < i && sorted[j].node.leafCluster == x
      invariant distinct ==> |clusters| == i && forall j | 0 <= j < i :: clusters[j] == sorted[j].node.leafCluster
    {
      var c := sorted[i].node.leafCluster;
      if c !in seen {
        seen := seen + {c};
        clusters := clusters + [c];
      }
      i := i + 1;
    }
  }

  // The frontier's clusters, nearest leaf first, each once.
  method Emit(d: Dist, query: Vector, frontier: seq<Node>) returns (clusters: seq<nat>)
    ensures NoDup(clusters)
    ensures forall x: nat :: x in clusters <==> exists i :: 0 <= i < |frontier| && frontier[i].leafCluster == x
    ensures LeavesDistinct(frontier) ==> Emitted(d, query, frontier, clusters)
  {
    hide Emitted, LeavesDistinct;
    var leaves: seq<Scored> := [];
    while |leaves| < |frontier|
      invariant |leaves| <= |frontier|
      invariant forall i | 0 <= i < |leaves| :: leaves[i] == Scored(frontier[i], d(query, frontier[i].centroid))
    {
      leaves := leaves + [Scored(frontier[|leaves|], d(query, frontier[|leaves|].centroid))];
    }
    var sorted := Sort(LeafLess, leaves);
    SortWeak(LeafLess, leaves);
    if LeavesDistinct(frontier) { LeavesApart(frontier, leaves, sorted); }
    clusters := Deduplicate(sorted);
    FrontierClusters(frontier, leaves, sorted, clusters);
    if LeavesDistinct(frontier) {
      assert Nodes(leaves) == frontier;
      SortedEmits(d, query, frontier, leaves, sorted, clusters);
    }
  }

  lemma {:induction false} LeavesApart(frontier: seq<Node>, leaves: seq<Scored>, sorted: seq<Scored>)
    requires multiset(leaves) == multiset(sorted) && LeavesDistinct(frontier)
    requires |leaves| == |frontier| && forall i | 0 <= i < |leaves| :: leaves[i].node == frontier[i]
    ensures forall i, j | 0 <= i < j < |sorted| :: sorted[i].node.leafCluster != sorted[j].node.leafCluster
  {
    StillDistinct(leaves, sorted);
    forall i, j | 0 <= i < j < |sorted| ensures sorted[i].node.leafCluster != sorted[j].node.leafCluster {
      SameItems(leaves, sorted, sorted[i]);
      SameItems(leaves, sorted, sorted[j]);
      var k :| 0 <= k < |leaves| && leaves[k] == sorted[i];
      var l :| 0 <= l < |leaves| && leaves[l] == sorted[j];
    }
  }

  lemma {:induction false} SortedEmits(d: Dist, query: Vector, frontier: seq<Node>, leaves: seq<Scored>, sorted: seq<Scored>, clusters: seq<nat>)
    requires Nodes(leaves) == frontier && multiset(leaves) == multiset(sorted) && Sorted(LeafLess, sorted)
    requires forall i | 0 <= i < |leaves| :: leaves[i].dist == d(query, leaves[i].node.centroid)
    requires |clusters| == |sorted| && forall j | 0 <= j < |sorted| :: clusters[j] == sorted[j].node.leafCluster
    requires NoDup(clusters)
    ensures Emitted(d, query, frontier, clusters)
  {
    NodesPermute(leaves, sorted);
    forall i | 0 <= i < |sorted| ensures sorted[i].dist == d(query, sorted[i].node.centroid) {
      SameItems(leaves, sorted, sorted[i]);
    }
    assert EmittedAs(d, query, frontier, Nodes(sorted), clusters);
  }

  lemma {:induction false} BeamCount(root: Node, frontier: seq<Node>, beam: nat, clusters: seq<nat>)
    requires forall x | x in LeafBag(root) :: LeafBag(root)[x] == 1
    requires OnBeam(root, frontier, beam) && AllLeaves(frontier) && NoDup(clusters)
    requires forall x: nat :: x in clusters <==> exists i :: 0 <= i < |frontier| && frontier[i].leafCluster == x
    ensures forall c | c in clusters :: c in LeafBag(root)
    ensures |clusters| == if beam < |LeafBag(root)| then beam else |LeafBag(root)|
  {
    hide LeafBag, BagOf;
    LeavesRoute(frontier);
    forall x ensures multiset(clusters)[x] == BagOf(frontier)[x] {
      if x in clusters {
        var k :| 0 <= k < |clusters| && clusters[k] == x;
        OnceIn(clusters, k);
        assert x in BagOf(frontier) && x in LeafBag(root);
      }
    }
    assert multiset(clusters) == BagOf(frontier);
    assert |multiset(clusters)| == |clusters|;
    BagSmaller(BagOf(frontier), LeafBag(root));
  }

  lemma {:induction false} BagSmaller(a: multiset<nat>, b: multiset<nat>)
    requires a <= b
    ensures |a| <= |b|
  {
    assert b == a + (b - a);
  }

  // ---------------------------------------------------------------- choosing clusters

  // Multiplication in 64-bit two's complement.
  function Times64(a: int, b: int): (r: int)
    ensures -0x8000_0000_0000_0000 <= r < 0x8000_0000_0000_0000
    ensures -0x8000_0000_0000_0000 <= a * b < 0x8000_0000_0000_0000 ==> r == a * b
    ensures (a * b - r) % 0x1_0000_0000_0000_0000 == 0
  {
    (a * b + 0x8000_0000_0000_0000) % 0x1_0000_0000_0000_0000 - 0x8000_0000_0000_0000
  }

  method CentroidDistances(d: Dist, query: Vector, centroids: seq<Vector>) returns (cds: seq<Ranked>)
    ensures |cds| == |centroids| && forall i | 0 <= i < |cds| :: cds[i] == Ranked(i, d(query, centroids[i]))
  {
    cds := [];
    while |cds| < |centroids|
      invariant |cds| <= |centroids| && forall i | 0 <= i < |cds| :: cds[i] == Ranked(i, d(query, centroids[i]))
    {
      cds := cds + [Ranked(|cds|, d(query, centroids[|cds|]))];
    }
  }

  // The nProbe nearest clusters of a flat scan.
  method NearestClusters(d: Dist, query: Vector, centroids: seq<Vector>, nProbe: nat) returns (probes: seq<nat>)
    ensures |probes| == (if nProbe < |centroids| then nProbe else |centroids|) && NoDup(probes)
    ensures forall c | c in probes :: c < |centroids|
    ensures forall c, c' | c in probes && 0 <= c' < |centroids| && c' !in probes ::
              d(query, centroids[c]) < d(query, centroids[c']) || (d(query, centroids[c]) == d(query, centroids[c']) && c < c')
  {
    var cds := CentroidDistances(d, query, centroids);
    var sorted := Sort(Nearer, cds);
    var n := if nProbe > |sorted| then |sorted| else nProbe;
    probes := Keys(Take(sorted, n));
    ProbesAre(cds, sorted, n);
    forall c, c' | c in probes && 0 <= c' < |centroids| && c' !in probes
      ensures d(query, centroids[c]) < d(query, centroids[c']) || (d(query, centroids[c]) == d(query, centroids[c']) && c < c')
    {
      assert cds[c'] in cds;
      var k, l := TakenFirst(cds, n, c, cds[c']);
    }
  }

  lemma {:induction false} ProbesAre(cds: seq<Ranked>, sorted: seq<Ranked>, n: nat)
    requires multiset(cds) == multiset(sorted) && n <= |sorted|
    requires forall i | 0 <= i < |cds| :: cds[i].key == i
    ensures NoDup(Keys(Take(sorted, n))) && forall c | c in Keys(Take(sorted, n)) :: c < |cds|
  {
    StillDistinct(cds, sorted);
    var probes := Keys(Take(sorted, n));
    forall i | 0 <= i < |probes| ensures probes[i] < |cds| && sorted[i] == cds[probes[i]] {
      SameItems(cds, sorted, sorted[i]);
      var k :| 0 <= k < |cds| && cds[k] == sorted[i];
    }
  }

  // The first of the clusters the leaves route to, nearest leaf first.
  ghost predicate NearestFirst(d: Dist, query: Vector, leaves: seq<Node>, probes: seq<nat>) {
    exists clusters :: Heads(d, query, leaves, clusters, probes)
  }

  ghost predicate Heads(d: Dist, query: Vector, leaves: seq<Node>, clusters: seq<nat>, probes: seq<nat>) {
    Emitted(d, query, leaves, clusters) && probes <= clusters
  }

  // The beam probeClusters asks for, as BeamDescend clamps it.
  function BeamWidth(nProbe: int, k: nat): (beam: nat)
    requires 0 < nProbe < 0x8000_0000_0000_0000 && k > 0
    ensures beam >= 1 && (if nProbe < k then beam >= nProbe else beam == k)
    ensures nProbe < 0x2000_0000_0000_0000 ==> beam == if 4 * nProbe < k then 4 * nProbe else k
  {
    var wide := Times64(nProbe, TREE_BEAM_FACTOR);
    var beam := if wide < nProbe then nProbe else wide;
    if beam > k then k else beam
  }

  // Which clusters a query scans: min(nProbe, K) of them. Without a tree they are the nearest; with one
  // they are the first that a beam descent emits.
  ghost predicate Probed(d: Dist, query: Vector, centroids: seq<Vector>, tree: Option<Node>, nProbe: int, probes: seq<nat>)
    requires 0 < nProbe < 0x8000_0000_0000_0000
  {
    && NoDup(probes) && (forall c | c in probes :: c < |centroids|)
    && |probes| == (if nProbe < |centroids| then nProbe else |centroids|)
    && (tree.None? ==> forall c, c' | c in probes && 0 <= c' < |centroids| && c' !in probes ::
          d(query, centroids[c]) < d(query, centroids[c']) || (d(query, centroids[c]) == d(query, centroids[c']) && c < c'))
    && (tree.Some? && centroids != [] ==> Descended(d, query, BeamWidth(nProbe, |centroids|), tree.value, probes))
  }

  // The first clusters that a beam descent from the root ends up with.
  ghost predicate Descended(d: Dist, query: Vector, beam: nat, root: Node, probes: seq<nat>) {
    exists levels :: DownTo(d, query, beam, root, levels, probes)
  }

  ghost predicate DownTo(d: Dist, query: Vector, beam: nat, root: Node, levels: seq<seq<Node>>, probes: seq<nat>) {
    Descent(d, query, beam, root, levels) && AllLeaves(levels[|levels| - 1]) && NearestFirst(d, query, levels[|levels| - 1], probes)
  }

  // The clusters to scan: by beam descent with a tree, by the flat scan without. Either way exactly
  // min(nProbe, K) distinct clusters, so nProbe >= K probes every one.
  method ProbeClusters(d: Dist, query: Vector, centroids: seq<Vector>, tree: Option<Node>, nProbe: int) returns (probes: seq<nat>)
    requires 0 < nProbe < 0x8000_0000_0000_0000
    requires tree.Some? ==> LeafBag(tree.value) == UpTo(|centroids|)
    ensures Probed(d, query, centroids, tree, nProbe, probes)
  {
    hide LeafBag, UpTo, Descent, Emitted;
    if tree.Some? {
      UpToIs(|centroids|);
      var beam := Times64(nProbe, TREE_BEAM_FACTOR);
      if beam < nProbe { beam := nProbe; }
      if beam > |centroids| { beam := |centroids|; }
      var leaves;
      ghost var levels;
      leaves, levels := BeamDescend(d, tree.value, query, beam);
      probes := if nProbe < |leaves| then leaves[..nProbe] else leaves;
      assert Heads(d, query, levels[|levels| - 1], leaves, probes);
      forall c | c in probes ensures c < |centroids| {
        assert c in leaves;
        assert UpTo(|centroids|)[c] > 0;
      }
      if centroids != [] { assert DownTo(d, query, BeamWidth(nProbe, |centroids|), tree.value, levels, probes); }
      return;
    }
    probes := NearestClusters(d, query, centroids, nProbe);
  }

  // Enough distinct clusters are all of them.
  lemma {:induction false} AllProbed(probes: seq<nat>, k: nat)
    requires NoDup(probes) && |probes| == k && forall c | c in probes :: c < k
    ensures forall c: nat | c < k :: c in probes
  {
    var s := set c | c in probes;
    NoDupSize(probes);
    RangeIs(k);
    assert s <= Range(k);
    SubsetWhole(s, Range(k));
    forall c: nat | c < k ensures c in probes {
      assert c in Range(k) && c in s;
    }
  }

  ghost function Range(k: nat): set<nat>
    decreases k
  {
    if k == 0 then {} else Range(k - 1) + {k - 1}
  }

  lemma {:induction false} RangeIs(k: nat)
    ensures |Range(k)| == k && forall c: nat :: c in Range(k) <==> c < k
    decreases k
  {
    if k > 0 { RangeIs(k - 1); }
  }

  lemma {:induction false} SubsetWhole<T>(a: set<T>, b: set<T>)
    requires a <= b && |a| == |b|
    ensures a == b
  {
    assert b == a + (b - a);
  }
}
