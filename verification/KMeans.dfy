// Lloyd's k-means as the index build runs it. Distances are any non-negative function (cosine and
// Euclidean are two); arithmetic is over the reals.

module KMeans {
  import opened Types

  // The passes an index build asks for.
  const KMEANS_ITERS := 25

  type Dist = (Vector, Vector) -> real

  ghost predicate NonNegative(d: Dist) {
    forall a, b :: d(a, b) >= 0.0
  }

  // ---------------------------------------------------------------- means

  // Coordinate k of a vector; a shorter vector contributes nothing there.
  function At(v: Vector, k: nat): real { if k < |v| then v[k] else 0.0 }

  function SumAt(points: seq<Vector>, k: nat): real
    decreases |points|
  {
    if points == [] then 0.0 else SumAt(points[..|points| - 1], k) + At(points[|points| - 1], k)
  }

  // The component-wise mean.
  function MeanVec(points: seq<Vector>): Vector {
    if points == [] then [] else seq(|points[0]|, (k: int) requires 0 <= k => SumAt(points, k) / |points| as real)
  }

  function Times(a: real, b: real): real { a * b }

  lemma {:induction false} TimesSum(a: real, b: real, t: real)
    ensures Times(a + b, t) == Times(a, t) + Times(b, t)
  {
  }

  lemma {:induction false} TimesOne(t: real)
    ensures Times(1.0, t) == t
  {
  }

  lemma {:induction false} TimesNone(t: real)
    ensures Times(0.0, t) == 0.0
  {
  }

  lemma {:induction false} SquareMoves(a: real, t: real)
    ensures Times(a - t, a - t) == Times(a, a) - Times(2.0 * a, t) + Times(t, t)
  {
  }

  // The squared error of putting x for coordinate k of every point.
  function SquaredError(points: seq<Vector>, k: nat, x: real): real
    requires forall i | 0 <= i < |points| :: k < |points[i]|
    decreases |points|
  {
    if points == [] then 0.0
    else
      var n := |points| - 1;
      SquaredError(points[..n], k, x) + Times(points[n][k] - x, points[n][k] - x)
  }

  // Moving x by t changes it by a quadratic in t.
  lemma {:induction false} ErrorMoves(points: seq<Vector>, k: nat, x: real, t: real)
    requires forall i | 0 <= i < |points| :: k < |points[i]|
    ensures SquaredError(points, k, x + t)
            == SquaredError(points, k, x) - Times(2.0 * (SumAt(points, k) - Times(|points| as real, x)), t) + Times(|points| as real, Times(t, t))
    decreases |points|
  {
    if points == [] {
      assert Times(0.0, x) == 0.0 && Times(2.0 * (0.0 - 0.0), t) == 0.0 && Times(0.0, Times(t, t)) == 0.0;
    } else {
      hide Times;
      var n := |points| - 1;
      var rest, count := points[..n], n as real;
      var a, was := points[n][k] - x, SumAt(rest, k) - Times(count, x);
      ErrorMoves(rest, k, x, t);
      SquareMoves(a, t);
      assert points[n][k] - (x + t) == a - t;
      TimesSum(count, 1.0, x);
      TimesOne(x);
      assert SumAt(points, k) - Times(count + 1.0, x) == was + a;
      TimesSum(2.0 * was, 2.0 * a, t);
      assert 2.0 * (was + a) == 2.0 * was + 2.0 * a;
      TimesSum(count, 1.0, Times(t, t));
      TimesOne(Times(t, t));
    }
  }

  // The mean is the one value with the least squared error: any other x is worse by the number of
  // points times the square of its distance from the mean.
  lemma {:induction false} MeanIsBest(points: seq<Vector>, k: nat, x: real)
    requires points != [] && forall i | 0 <= i < |points| :: k < |points[i]|
    ensures k < |MeanVec(points)|
    ensures var m := MeanVec(points)[k]; SquaredError(points, k, x) == SquaredError(points, k, m) + Times(|points| as real, Times(x - m, x - m))
  {
    var n := |points| as real;
    var m := MeanVec(points)[k];
    Divided(SumAt(points, k), n);
    assert m == SumAt(points, k) / n;
    hide SquaredError, SumAt, Times, MeanVec;
    ErrorMoves(points, k, m, x - m);
    assert m + (x - m) == x;
    TimesNone(x - m);
  }

  lemma {:induction false} Divided(sum: real, n: real)
    requires n > 0.0
    ensures Times(n, sum / n) == sum
  {
  }

  method Mean(points: seq<Vector>) returns (mean: Vector)
    ensures mean == MeanVec(points)
  {
    if |points| == 0 {
      return [];
    }
    var dim := |points[0]|;
    var sum := new real[dim](k => 0.0);
    var i := 0;
    while i < |points|
      invariant i <= |points|
      invariant forall k | 0 <= k < dim :: sum[k] == SumAt(points[..i], k)
    {
      assert points[..i + 1][..i] == points[..i];
      var k := 0;
      while k < dim
        invariant k <= dim
        invariant forall j | 0 <= j < k :: sum[j] == SumAt(points[..i + 1], j)
        invariant forall j | k <= j < dim :: sum[j] == SumAt(points[..i], j)
      {
        sum[k] := sum[k] + At(points[i], k);
        k := k + 1;
      }
      i := i + 1;
    }
    assert points[..|points|] == points;
    mean := [];
    var d := 0;
    while d < dim
      invariant d <= dim && |mean| == d
      invariant forall j | 0 <= j < d :: mean[j] == SumAt(points, j) / |points| as real
    {
      mean := mean + [sum[d] / |points| as real];
      d := d + 1;
    }
  }

  // ---------------------------------------------------------------- assignments

  // Among the first n centroids, c is the nearest to p, the first of them on a tie.
  ghost predicate NearestOf(d: Dist, p: Vector, centroids: seq<Vector>, n: nat, c: nat)
    requires n <= |centroids|
  {
    && c < n
    && (forall j | 0 <= j < n :: d(p, centroids[c]) <= d(p, centroids[j]))
    && (forall j | 0 <= j < c :: d(p, centroids[c]) < d(p, centroids[j]))
  }

  method NearestCentroid(d: Dist, p: Vector, centroids: seq<Vector>) returns (best: nat)
    requires |centroids| > 0
    ensures NearestOf(d, p, centroids, |centroids|, best)
  {
    // The first centroid always beats the initial infinite distance.
    best := 0;
    var bestDist := d(p, centroids[0]);
    var c := 1;
    while c < |centroids|
      invariant 1 <= c <= |centroids|
      invariant NearestOf(d, p, centroids, c, best) && bestDist == d(p, centroids[best])
    {
      var dc := d(p, centroids[c]);
      if dc < bestDist {
        best, bestDist := c, dc;
      }
      c := c + 1;
    }
  }

  method AssignPoints(d: Dist, points: seq<Vector>, centroids: seq<Vector>, assign: array<nat>) returns (changed: bool)
    requires |centroids| > 0 && assign.Length == |points|
    modifies assign
    ensures forall i | 0 <= i < |points| :: NearestOf(d, points[i], centroids, |centroids|, assign[i])
    ensures !changed <==> assign[..] == old(assign[..])
  {
    changed := false;
    var i := 0;
    while i < |points|
      invariant i <= |points|
      invariant forall j | 0 <= j < i :: NearestOf(d, points[j], centroids, |centroids|, assign[j])
      invariant forall j | i <= j < |points| :: assign[j] == old(assign[j])
      invariant !changed <==> forall j | 0 <= j < i :: assign[j] == old(assign[j])
    {
      var best := NearestCentroid(d, points[i], centroids);
      if assign[i] != best {
        assign[i] := best;
        changed := true;
      }
      i := i + 1;
    }
  }

  // The points assigned to c among the first |assign|, in order.
  function Bucket<T>(items: seq<T>, assign: seq<nat>, c: nat): seq<T>
    requires |items| == |assign|
    decreases |items|
  {
    if items == [] then [] else
    var n := |items| - 1;
    Bucket(items[..n], assign[..n], c) + (if assign[n] == c then [items[n]] else [])
  }

  function Count(assign: seq<nat>, c: nat): nat
    decreases |assign|
  {
    if assign == [] then 0 else Count(assign[..|assign| - 1], c) + (if assign[|assign| - 1] == c then 1 else 0)
  }

  lemma {:induction false} BucketSize<T>(items: seq<T>, assign: seq<nat>, c: nat)
    requires |items| == |assign|
    ensures |Bucket(items, assign, c)| == Count(assign, c)
    decreases |items|
  {
    if items != [] { BucketSize(items[..|items| - 1], assign[..|items| - 1], c); }
  }

  lemma {:induction false} BucketStep<T>(items: seq<T>, assign: seq<nat>, c: nat, i: nat)
    requires |items| == |assign| && i < |items|
    ensures Bucket(items[..i + 1], assign[..i + 1], c) == Bucket(items[..i], assign[..i], c) + (if assign[i] == c then [items[i]] else [])
  {
    assert assign[..i + 1][..i] == assign[..i] && items[..i + 1][..i] == items[..i];
  }

  // Two buckets are all the items.
  lemma {:induction false} TwoBuckets<T>(items: seq<T>, assign: seq<nat>)
    requires |items| == |assign| && forall i | 0 <= i < |assign| :: assign[i] < 2
    ensures multiset(Bucket(items, assign, 0)) + multiset(Bucket(items, assign, 1)) == multiset(items)
    decreases |items|
  {
    if items != [] {
      var n := |items| - 1;
      TwoBuckets(items[..n], assign[..n]);
      assert items == items[..n] + [items[n]];
    }
  }

  // Moves each non-empty cluster's centroid to its bucket's mean; the source keeps one running sum
  // per cluster, the buckets here are the same partition.
  method RecomputeCentroids(points: seq<Vector>, assign: array<nat>, centroids: array<Vector>)
    requires assign.Length == |points|
    modifies centroids
    ensures forall c | 0 <= c < centroids.Length ::
              centroids[c] == if Count(assign[..], c) > 0 then MeanVec(Bucket(points, assign[..], c)) else old(centroids[c])
  {
    var c := 0;
    while c < centroids.Length
      invariant c <= centroids.Length
      invariant forall j | 0 <= j < c ::
                  centroids[j] == if Count(assign[..], j) > 0 then MeanVec(Bucket(points, assign[..], j)) else old(centroids[j])
      invariant forall j | c <= j < centroids.Length :: centroids[j] == old(centroids[j])
    {
      var bucket: seq<Vector> := [];
      var i := 0;
      while i < |points|
        invariant i <= |points|
        invariant bucket == Bucket(points[..i], assign[..i], c)
      {
        assert points[..i + 1][..i] == points[..i] && assign[..i + 1][..i] == assign[..i];
        if assign[i] == c { bucket := bucket + [points[i]]; }
        i := i + 1;
      }
      assert points[..|points|] == points && assign[..|points|] == assign[..];
      BucketSize(points, assign[..], c);
      if |bucket| != 0 {
        var mean := Mean(bucket);
        centroids[c] := mean;
      }
      c := c + 1;
    }
  }

  // ---------------------------------------------------------------- empty clusters

  function Sum(s: seq<nat>): nat
    decreases |s|
  {
    if s == [] then 0 else Sum(s[..|s| - 1]) + s[|s| - 1]
  }

  lemma {:induction false} SumUpdate(s: seq<nat>, i: nat, x: nat)
    requires i < |s|
    ensures Sum(s[i := x]) == Sum(s) - s[i] + x
    decreases |s|
  {
    var n := |s| - 1;
    if i == n {
      assert s[i := x][..n] == s[..n];
    } else {
      assert s[i := x][..n] == s[..n][i := x];
      SumUpdate(s[..n], i, x);
    }
  }

  lemma {:induction false} SumBound(s: seq<nat>, z: nat)
    requires forall i | 0 <= i < |s| :: s[i] <= 1
    ensures Sum(s) <= |s| && (z < |s| && s[z] == 0 ==> Sum(s) < |s|)
    decreases |s|
  {
    if s != [] {
      SumBound(s[..|s| - 1], z);
    }
  }

  // counts[c] is the number of points in cluster c, and together they are all the points.
  ghost predicate Tallied(assign: seq<nat>, counts: seq<nat>) {
    && (forall i | 0 <= i < |assign| :: assign[i] < |counts|)
    && (forall c | 0 <= c < |counts| :: counts[c] == Count(assign, c))
    && Sum(counts) == |assign|
  }

  lemma {:induction false} CountUpdate(assign: seq<nat>, i: nat, x: nat, c: nat)
    requires i < |assign|
    ensures Count(assign[i := x], c) == Count(assign, c) - (if assign[i] == c then 1 else 0) + (if x == c then 1 else 0)
    decreases |assign|
  {
    var n := |assign| - 1;
    if i == n {
      assert assign[i := x][..n] == assign[..n];
    } else {
      assert assign[i := x][..n] == assign[..n][i := x];
      CountUpdate(assign[..n], i, x, c);
    }
  }

  lemma {:induction false} MemberCounted(assign: seq<nat>, i: nat)
    requires i < |assign|
    ensures Count(assign, assign[i]) > 0
    decreases |assign|
  {
    if i < |assign| - 1 { MemberCounted(assign[..|assign| - 1], i); }
  }

  lemma {:induction false} CountedHasMember(assign: seq<nat>, c: nat)
    requires Count(assign, c) > 0
    ensures exists i :: 0 <= i < |assign| && assign[i] == c
    decreases |assign|
  {
    var n := |assign| - 1;
    if assign[n] != c {
      CountedHasMember(assign[..n], c);
      var i :| 0 <= i < |assign[..n]| && assign[..n][i] == c;
      assert assign[i] == c;
    }
  }

  // With at least as many points as clusters, an empty cluster leaves some cluster with a spare.
  lemma {:induction false} SpareExists(assign: seq<nat>, counts: seq<nat>, z: nat)
    requires Tallied(assign, counts) && |counts| <= |assign| && z < |counts| && counts[z] == 0
    ensures exists i :: 0 <= i < |assign| && counts[assign[i]] > 1
  {
    if forall c | 0 <= c < |counts| :: counts[c] <= 1 {
      SumBound(counts, z);
      assert false;
    }
    var c :| 0 <= c < |counts| && counts[c] > 1;
    CountedHasMember(assign, c);
  }

  lemma {:induction false} MoveTallied(assign: seq<nat>, counts: seq<nat>, i: nat, c: nat)
    requires Tallied(assign, counts) && i < |assign| && c < |counts| && counts[assign[i]] > 1 && counts[c] == 0
    ensures var a := assign[i];
            Tallied(assign[i := c], counts[a := counts[a] - 1][c := 1])
  {
    var a := assign[i];
    var counts' := counts[a := counts[a] - 1];
    SumUpdate(counts, a, counts[a] - 1);
    SumUpdate(counts', c, 1);
    var moved := counts'[c := 1];
    forall j | 0 <= j < |counts| ensures moved[j] == Count(assign[i := c], j) {
      CountUpdate(assign, i, c, j);
    }
  }

  lemma {:induction false} AllZero(s: seq<nat>)
    requires forall i | 0 <= i < |s| :: s[i] == 0
    ensures Sum(s) == 0
    decreases |s|
  {
    if s != [] { AllZero(s[..|s| - 1]); }
  }

  method Tally(assign: seq<nat>, k: nat) returns (counts: seq<nat>)
    requires forall i | 0 <= i < |assign| :: assign[i] < k
    ensures |counts| == k && Tallied(assign, counts)
  {
    counts := seq(k, (c: int) => 0);
    AllZero(counts);
    var i := 0;
    while i < |assign|
      invariant i <= |assign| && |counts| == k && Tallied(assign[..i], counts)
    {
      assert assign[..i + 1][..i] == assign[..i];
      SumUpdate(counts, assign[i], counts[assign[i]] + 1);
      counts := counts[assign[i] := counts[assign[i]] + 1];
      i := i + 1;
    }
    assert assign[..|assign|] == assign;
  }

  // The farthest point from its own centroid among clusters with a spare.
  method FarthestSpare(d: Dist, points: seq<Vector>, assign: seq<nat>, centroids: seq<Vector>, counts: seq<nat>)
    returns (far: int)
    requires NonNegative(d) && |assign| == |points| && |counts| == |centroids| && Tallied(assign, counts)
    ensures -1 <= far < |points|
    ensures far < 0 <==> forall i | 0 <= i < |points| :: counts[assign[i]] <= 1
    ensures far >= 0 ==>
              && counts[assign[far]] > 1
              && forall i | 0 <= i < |points| && counts[assign[i]] > 1 ::
                   d(points[i], centroids[assign[i]]) <= d(points[far], centroids[assign[far]])
    ensures forall i | 0 <= i < far && counts[assign[i]] > 1 ::
              d(points[i], centroids[assign[i]]) < d(points[far], centroids[assign[far]])
  {
    far := -1;
    var farDist := -1.0;
    var i := 0;
    while i < |points|
      invariant i <= |points| && -1 <= far < i
      invariant far < 0 ==> farDist == -1.0 && forall j | 0 <= j < i :: counts[assign[j]] <= 1
      invariant far >= 0 ==>
                  && counts[assign[far]] > 1 && farDist == d(points[far], centroids[assign[far]])
                  && forall j | 0 <= j < i && counts[assign[j]] > 1 :: d(points[j], centroids[assign[j]]) <= farDist
      invariant forall j | 0 <= j < far && counts[assign[j]] > 1 :: d(points[j], centroids[assign[j]]) < farDist
    {
      if counts[assign[i]] > 1 {
        var di := d(points[i], centroids[assign[i]]);
        if di > farDist {
          far, farDist := i, di;
        }
      }
      i := i + 1;
    }
  }

  // The first of the points farthest from their centroids, among clusters with a point to spare.
  ghost predicate FarthestIn(d: Dist, points: seq<Vector>, assign: seq<nat>, centroids: seq<Vector>, far: nat) {
    && |assign| == |points| && (forall i | 0 <= i < |assign| :: assign[i] < |centroids|)
    && far < |points| && Count(assign, assign[far]) > 1
    && forall i | 0 <= i < |points| && Count(assign, assign[i]) > 1 ::
         d(points[i], centroids[assign[i]]) <= d(points[far], centroids[assign[far]])
         && (i < far ==> d(points[i], centroids[assign[i]]) < d(points[far], centroids[assign[far]]))
  }

  // Reseeding, cluster by cluster: one that is not empty stays, an empty one takes over that point.
  ghost predicate ReseedSteps(d: Dist, points: seq<Vector>, raw: seq<nat>, means: seq<Vector>, c: nat, assign: seq<nat>, centroids: seq<Vector>)
    decreases c, 1
  {
    if c == 0 then assign == raw && centroids == means
    else
      var before: nat := c - 1;
      exists a, cs :: ReseedStep(d, points, raw, means, before, a, cs, assign, centroids)
  }

  ghost predicate ReseedStep(d: Dist, points: seq<Vector>, raw: seq<nat>, means: seq<Vector>, c: nat, a: seq<nat>, cs: seq<Vector>,
      assign: seq<nat>, centroids: seq<Vector>)
    decreases c, 2
  {
    && ReseedSteps(d, points, raw, means, c, a, cs) && c < |cs|
    && if Count(a, c) > 0 then assign == a && centroids == cs
       else exists far :: TakesOver(d, points, c, a, cs, assign, centroids, far)
  }

  ghost predicate TakesOver(d: Dist, points: seq<Vector>, c: nat, a: seq<nat>, cs: seq<Vector>, assign: seq<nat>, centroids: seq<Vector>, far: nat) {
    FarthestIn(d, points, a, cs, far) && c < |cs| && assign == a[far := c] && centroids == cs[c := points[far]]
  }

  lemma {:induction false} ReseedOn(d: Dist, points: seq<Vector>, raw: seq<nat>, means: seq<Vector>, c: nat, a: seq<nat>, cs: seq<Vector>,
                                    assign: seq<nat>, centroids: seq<Vector>, far: nat)
    requires ReseedSteps(d, points, raw, means, c, a, cs) && c < |cs|
    requires if Count(a, c) > 0 then assign == a && centroids == cs else TakesOver(d, points, c, a, cs, assign, centroids, far)
    ensures ReseedSteps(d, points, raw, means, c + 1, assign, centroids)
  {
    hide TakesOver, Count;
    assert ReseedStep(d, points, raw, means, c, a, cs, assign, centroids);
  }

  lemma {:induction false} IsFarthest(d: Dist, points: seq<Vector>, assign: seq<nat>, centroids: seq<Vector>, counts: seq<nat>, far: nat)
    requires |assign| == |points| && |counts| == |centroids| && Tallied(assign, counts) && far < |points| && counts[assign[far]] > 1
    requires forall i | 0 <= i < |points| && counts[assign[i]] > 1 ::
               d(points[i], centroids[assign[i]]) <= d(points[far], centroids[assign[far]])
    requires forall i | 0 <= i < far && counts[assign[i]] > 1 ::
               d(points[i], centroids[assign[i]]) < d(points[far], centroids[assign[far]])
    ensures FarthestIn(d, points, assign, centroids, far)
  {
    hide Count, Sum;
  }

  // Reseeding touches only empty clusters: each takes over a point, and no other centroid moves.
  ghost predicate Reseeded(points: seq<Vector>, raw: seq<nat>, means: seq<Vector>, assign: seq<nat>, centroids: seq<Vector>) {
    && |raw| == |assign| == |points| && |means| == |centroids|
    && (forall i | 0 <= i < |points| :: assign[i] == raw[i] || Count(raw, assign[i]) == 0)
    && (forall c | 0 <= c < |centroids| :: if Count(raw, c) == 0 then centroids[c] in points else centroids[c] == means[c])
  }

  // The same with the clusters from c on still to do, and the running tallies.
  ghost predicate ReseededTo(points: seq<Vector>, raw: seq<nat>, means: seq<Vector>, assign: seq<nat>, centroids: seq<Vector>, counts: seq<nat>, c: nat) {
    && |raw| == |assign| == |points| && |means| == |centroids| == |counts|
    && (forall i | 0 <= i < |points| :: assign[i] == raw[i] || Count(raw, assign[i]) == 0)
    && (forall j | 0 <= j < |means| :: if Count(raw, j) == 0 && j < c then centroids[j] in points else centroids[j] == means[j])
    && (forall j | 0 <= j < |means| :: counts[j] > 0 <==> Count(raw, j) > 0 || j < c)
  }

  lemma {:induction false} ReseedStart(points: seq<Vector>, assign: seq<nat>, centroids: seq<Vector>, counts: seq<nat>)
    requires |assign| == |points| && |counts| == |centroids| && Tallied(assign, counts)
    ensures ReseededTo(points, assign, centroids, assign, centroids, counts, 0)
  {
    hide Count, Sum;
  }

  lemma {:induction false} TalliedBound(assign: seq<nat>, counts: seq<nat>)
    requires Tallied(assign, counts)
    ensures forall i | 0 <= i < |assign| :: assign[i] < |counts|
  {
  }

  lemma {:induction false} ReseedSkip(points: seq<Vector>, raw: seq<nat>, means: seq<Vector>, assign: seq<nat>, centroids: seq<Vector>, counts: seq<nat>, c: nat)
    requires ReseededTo(points, raw, means, assign, centroids, counts, c) && c < |counts|
    ensures counts[c] > 0 ==> ReseededTo(points, raw, means, assign, centroids, counts, c + 1)
  {
    hide Count;
  }

  lemma {:induction false} ReseedMove(points: seq<Vector>, raw: seq<nat>, means: seq<Vector>, assign: seq<nat>, centroids: seq<Vector>, counts: seq<nat>, c: nat, far: nat)
    requires ReseededTo(points, raw, means, assign, centroids, counts, c) && c < |counts| && counts[c] == 0
    requires far < |points| && assign[far] < |counts| && counts[assign[far]] > 1
    ensures var a := assign[far];
            ReseededTo(points, raw, means, assign[far := c], centroids[c := points[far]], counts[a := counts[a] - 1][c := 1], c + 1)
  {
    hide Count;
  }

  lemma {:induction false} ReseedDone(points: seq<Vector>, raw: seq<nat>, means: seq<Vector>, assign: seq<nat>, centroids: seq<Vector>, counts: seq<nat>)
    requires ReseededTo(points, raw, means, assign, centroids, counts, |counts|) && Tallied(assign, counts)
    ensures Reseeded(points, raw, means, assign, centroids)
    ensures forall c | 0 <= c < |centroids| :: Count(assign, c) > 0
    ensures forall i | 0 <= i < |points| :: assign[i] < |centroids|
  {
    hide Count, Sum;
  }

  lemma {:induction false} NothingReseeded(d: Dist, points: seq<Vector>, assign: seq<nat>, centroids: seq<Vector>)
    ensures ReseedSteps(d, points, assign, centroids, 0, assign, centroids)
  {
  }

  lemma {:induction false} CountOf(assign: seq<nat>, counts: seq<nat>, c: nat)
    requires Tallied(assign, counts) && c < |counts|
    ensures counts[c] == Count(assign, c)
  {
  }

  // After reseeding no cluster is empty. `draw` stands for the random fallback; it is never used,
  // because a spare always exists.
  method ReseedEmpty(d: Dist, points: seq<Vector>, assign: array<nat>, centroids: array<Vector>, draw: nat)
    requires NonNegative(d) && assign.Length == |points| && centroids.Length <= |points|
    requires assign != centroids as object
    requires forall i | 0 <= i < |points| :: assign[i] < centroids.Length
    modifies assign, centroids
    ensures forall i | 0 <= i < |points| :: assign[i] < centroids.Length
    ensures forall c | 0 <= c < centroids.Length :: Count(assign[..], c) > 0
    ensures Reseeded(points, old(assign[..]), old(centroids[..]), assign[..], centroids[..])
    ensures ReseedSteps(d, points, old(assign[..]), old(centroids[..]), centroids.Length, assign[..], centroids[..])
  {
    hide Count, Sum, Tallied, Reseeded, ReseededTo, ReseedSteps, FarthestIn;
    var counts := Tally(assign[..], centroids.Length);
    ReseedStart(points, assign[..], centroids[..], counts);
    var c: nat := 0;
    NothingReseeded(d, points, assign[..], centroids[..]);
    while c < centroids.Length
      invariant c <= centroids.Length && |counts| == centroids.Length
      invariant ReseedSteps(d, points, old(assign[..]), old(centroids[..]), c, assign[..], centroids[..])
      invariant Tallied(assign[..], counts)
      invariant ReseededTo(points, old(assign[..]), old(centroids[..]), assign[..], centroids[..], counts, c)
    {
      ReseedSkip(points, old(assign[..]), old(centroids[..]), assign[..], centroids[..], counts, c);
      ghost var a, cs := assign[..], centroids[..];
      CountOf(a, counts, c);
      if counts[c] > 0 {
        ReseedOn(d, points, old(assign[..]), old(centroids[..]), c, a, cs, a, cs, 0);
      } else {
        var far := FarthestSpare(d, points, assign[..], centroids[..], counts);
        SpareExists(assign[..], counts, c);
        if far < 0 { far := draw; }
        var from := assign[far];
        ghost var was := assign[..];
        IsFarthest(d, points, a, cs, counts, far);
        TalliedBound(was, counts);
        ReseedMove(points, old(assign[..]), old(centroids[..]), was, centroids[..], counts, c, far);
        MoveTallied(was, counts, far, c);
        centroids[c] := points[far];
        counts := counts[from := counts[from] - 1];
        assign[far] := c;
        counts := counts[c := counts[c] + 1];
        assert assign[..] == was[far := c] && centroids[..] == cs[c := points[far]];
        assert TakesOver(d, points, c, a, cs, assign[..], centroids[..], far);
        ReseedOn(d, points, old(assign[..]), old(centroids[..]), c, a, cs, assign[..], centroids[..], far);
      }
      c := c + 1;
    }
    ReseedDone(points, old(assign[..]), old(centroids[..]), assign[..], centroids[..], counts);
  }

  // The outcome of a Lloyd pass from the centroids `from`: every point goes to the first of its nearest
  // centroids, each cluster's centroid becomes its mean, and clusters left empty are reseeded.
  ghost predicate LloydPass(d: Dist, points: seq<Vector>, from: seq<Vector>, raw: seq<nat>, means: seq<Vector>, centroids: seq<Vector>, assign: seq<nat>) {
    && |from| == |means| && |raw| == |points|
    && (forall i | 0 <= i < |points| :: NearestOf(d, points[i], from, |from|, raw[i]))
    && (forall c | 0 <= c < |means| && Count(raw, c) > 0 :: means[c] == MeanVec(Bucket(points, raw, c)))
    && Reseeded(points, raw, means, assign, centroids) && ReseedSteps(d, points, raw, means, |means|, assign, centroids)
    && |assign| == |points| && forall i | 0 <= i < |points| :: assign[i] < |centroids|
  }

  // k clamped to [1, n], or none without points.
  function Clusters(k: int, n: nat): nat {
    if n == 0 then 0 else if k < 1 then 1 else if k > n then n else k
  }

  // One round of the loop: the assignment before reseeding, and what the round left.
  datatype Round = Round(raw: seq<nat>, centroids: seq<Vector>, assign: seq<nat>)

  ghost predicate Follows(d: Dist, points: seq<Vector>, a: Round, b: Round) {
    exists means :: LloydPass(d, points, a.centroids, b.raw, means, b.centroids, b.assign)
  }

  // Nothing moved between clusters in round i.
  ghost predicate Quiet(rounds: seq<Round>, i: nat)
    requires 0 < i < |rounds|
  {
    rounds[i].raw == rounds[i - 1].assign
  }

  // Rounds from the first k points on, with no quiet one after the first and before the last.
  ghost predicate Rounds(d: Dist, points: seq<Vector>, k: int, rounds: seq<Round>) {
    var kk := Clusters(k, |points|);
    && rounds != [] && kk <= |points|
    && rounds[0].centroids == points[..kk] && rounds[0].assign == seq(|points|, i => 0)
    && (forall i | 0 < i < |rounds| :: Follows(d, points, rounds[i - 1], rounds[i]))
    && (forall i | 1 < i < |rounds| - 1 :: !Quiet(rounds, i))
  }

  // The loop ends after the first quiet round from the second on, or when its iterations are used up.
  ghost predicate Ended(iters: int, rounds: seq<Round>) {
    var done := |rounds| - 1;
    && 0 < done <= Passes(iters)
    && (done == Passes(iters) || (done > 1 && Quiet(rounds, done)))
  }

  function Passes(iters: int): nat { if iters < 1 then 1 else iters }

  // k-means from the first points, Lloyd's rounds until nothing moves or the iterations run out.
  ghost predicate IsKMeans(d: Dist, points: seq<Vector>, k: int, iters: int, centroids: seq<Vector>, assign: seq<nat>) {
    exists rounds :: Rounds(d, points, k, rounds) && Ended(iters, rounds) && LeavesOff(rounds, centroids, assign)
  }

  ghost predicate LeavesOff(rounds: seq<Round>, centroids: seq<Vector>, assign: seq<nat>) {
    rounds != [] && rounds[|rounds| - 1].centroids == centroids && rounds[|rounds| - 1].assign == assign
  }

  // Its rounds start from the first k points, and it stops after the iterations asked for (at least
  // one), or as soon as every point is where the round before left it.
  lemma {:induction false} KMeansStops(d: Dist, points: seq<Vector>, k: int, iters: int, centroids: seq<Vector>, assign: seq<nat>) returns (rounds: seq<Round>)
    requires 1 <= k <= |points| && IsKMeans(d, points, k, iters, centroids, assign)
    ensures |rounds| >= 2 && rounds[0].centroids == points[..k]
    ensures rounds[|rounds| - 1].centroids == centroids && rounds[|rounds| - 1].assign == assign
    ensures forall i | 0 < i < |rounds| :: Follows(d, points, rounds[i - 1], rounds[i])
    ensures |rounds| - 1 == (if iters < 1 then 1 else iters)
            || (2 < |rounds| <= iters && rounds[|rounds| - 1].raw == rounds[|rounds| - 2].assign)
  {
    hide Follows;
    rounds :| Rounds(d, points, k, rounds) && Ended(iters, rounds) && LeavesOff(rounds, centroids, assign);
  }

  lemma {:induction false} RoundDone(d: Dist, points: seq<Vector>, k: int, rounds: seq<Round>, means: seq<Vector>, b: Round)
    requires Rounds(d, points, k, rounds) && (|rounds| > 2 ==> !Quiet(rounds, |rounds| - 1))
    requires LloydPass(d, points, rounds[|rounds| - 1].centroids, b.raw, means, b.centroids, b.assign)
    ensures Rounds(d, points, k, rounds + [b])
  {
    hide LloydPass;
    var n := |rounds|;
    var more := rounds + [b];
    assert Follows(d, points, rounds[n - 1], b);
    forall i | 0 < i < |more| ensures Follows(d, points, more[i - 1], more[i]) {
      if i < n { assert Follows(d, points, rounds[i - 1], rounds[i]); }
    }
    forall i | 1 < i < |more| - 1 ensures !Quiet(more, i) {
      assert !Quiet(rounds, i);
    }
  }

  lemma {:induction false} PassMade(d: Dist, points: seq<Vector>, from: seq<Vector>, raw: seq<nat>, means: seq<Vector>, centroids: seq<Vector>, assign: seq<nat>)
    requires |from| == |means| && |raw| == |points| && |assign| == |points|
    requires forall i | 0 <= i < |points| :: NearestOf(d, points[i], from, |from|, raw[i])
    requires forall c | 0 <= c < |means| && Count(raw, c) > 0 :: means[c] == MeanVec(Bucket(points, raw, c))
    requires Reseeded(points, raw, means, assign, centroids) && ReseedSteps(d, points, raw, means, |means|, assign, centroids)
    requires forall i | 0 <= i < |points| :: assign[i] < |centroids|
    ensures LloydPass(d, points, from, raw, means, centroids, assign)
  {
  }

  lemma {:induction false} FirstRound(d: Dist, points: seq<Vector>, k: int, rounds: seq<Round>)
    requires |rounds| == 1 && |rounds[0].centroids| == Clusters(k, |points|) && |rounds[0].assign| == |points|
    requires forall i | 0 <= i < |rounds[0].centroids| :: i < |points| && rounds[0].centroids[i] == points[i]
    requires forall i | 0 <= i < |points| :: rounds[0].assign[i] == 0
    ensures Rounds(d, points, k, rounds)
  {
  }

  // kMeans always produces min(max(k, 1), n) clusters, none of them empty.
  method KMeans(d: Dist, points: seq<Vector>, k: int, iters: int, draw: nat) returns (centroids: seq<Vector>, assign: seq<nat>)
    requires NonNegative(d)
    ensures |assign| == |points|
    ensures |centroids| == Clusters(k, |points|)
    ensures forall i | 0 <= i < |points| :: assign[i] < |centroids|
    ensures forall c | 0 <= c < |centroids| :: Count(assign, c) > 0
    ensures points != [] ==> IsKMeans(d, points, k, iters, centroids, assign)
  {
    hide Rounds, Reseeded, ReseedSteps, Bucket, MeanVec, Count, Follows, LloydPass;
    var n := |points|;
    if n == 0 {
      return [], [];
    }
    var kk := Clusters(k, n);
    var cs := new Vector[kk](i requires 0 <= i < kk => points[i]);
    var asg := new nat[n](i => 0);
    var total := Passes(iters);
    var iter := 0;
    var settled := false;
    ghost var rounds := [Round([], cs[..], asg[..])];
    FirstRound(d, points, k, rounds);
    while iter < total && !settled
      invariant 0 <= iter <= total && (settled ==> iter > 0)
      invariant forall i | 0 <= i < n :: asg[i] < kk
      invariant iter > 0 ==> forall c | 0 <= c < kk :: Count(asg[..], c) > 0
      invariant |rounds| == iter + 1 && Rounds(d, points, k, rounds) && LeavesOff(rounds, cs[..], asg[..])
      invariant iter > 1 ==> (settled <==> Quiet(rounds, iter))
      invariant settled ==> iter > 1
      decreases total - iter
    {
      ghost var from := cs[..];
      var changed := AssignPoints(d, points, cs[..], asg);
      ghost var raw := asg[..];
      RecomputeCentroids(points, asg, cs);
      ghost var means := cs[..];
      ReseedEmpty(d, points, asg, cs, draw);
      ghost var round := Round(raw, cs[..], asg[..]);
      PassMade(d, points, from, raw, means, cs[..], asg[..]);
      RoundDone(d, points, k, rounds, means, round);
      rounds := rounds + [round];
      if !changed && iter > 0 {
        settled := true;
      }
      iter := iter + 1;
    }
    centroids, assign := cs[..], asg[..];
    assert Ended(iters, rounds);
  }
}
