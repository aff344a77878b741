// An index build leaves reassignTopN at zero, so its reassign looks at no neighbour of a changed posting.
// When that matters, and a working set for which it does.

module MissedNeighbours {
  import opened Types
  import opened KMeans
  import opened Postings
  import opened Reassignment
  import opened Sorting
  import opened Lire
  import opened IndexBuild

  // When the reassign of a build leaves every member in the posting that is nearest as its centroids
  // stand: exactly when every member that is not forced, and that Eq. 1 leaves out or that sits in an
  // unchanged posting, was in its nearest posting before.
  lemma {:induction false} BuildNearestExactly(d: Dist, st: Stages, olds: map<nat, Vector>, forced: set<string>, end: seq<Cluster>)
    requires Rebalanced(d, st, olds, forced, end) && DistinctIds(st.merged) && Unique(Entries(st.merged))
    ensures var changed := st.splitTouched + st.mergeTouched + st.touched;
            (forall j, f | Holds(st.moved, j, f) :: AtNearest(d, st.merged, f.vector, j))
            <==> (forall i, e | Holds(st.merged, i, e) && e.id !in Forced(st.merged, |st.merged|, forced) && e.id !in Eq1All(d, st.merged, olds, changed) ::
                    AtNearest(d, st.merged, e.vector, i))
  {
    hide Entries, Unique, Reassigned, AtNearest, Forced, Eq1All, Eq2All, SplitsTo, MergesTo, RecenterIn, Pruned, Traced;
    var changed := st.splitTouched + st.mergeTouched + st.touched;
    NoNeighbours(d, st.merged, changed);
    NearestExactly(d, st.merged, Candidates(d, st.merged, olds, changed, forced, 0), st.moved);
  }

  // ---------------------------------------------------------------- nothing to split or to merge

  lemma {:induction false} NothingOver(d: Dist, cap: nat, a: seq<Cluster>, b: seq<Cluster>, touched: set<nat>, n: nat)
    requires SplitRun(d, cap, a, b, touched, n) && forall i | 0 <= i < |a| :: |a[i].members| <= cap
    ensures b == a && touched == {}
    decreases n
  {
    if n > 0 {
      var m: nat := n - 1;
      var mid, before, v, x :| SplitRunTo(d, cap, a, mid, before, v, x, b, touched, m);
      NothingOver(d, cap, a, mid, before, m);
    }
  }

  lemma {:induction false} NothingUnder(d: Dist, floor: nat, a: seq<Cluster>, b: seq<Cluster>, touched: set<nat>, n: nat)
    requires MergeRun(d, floor, a, b, touched, n) && forall i | 0 <= i < |a| :: |a[i].members| >= floor
    ensures b == a && touched == {}
    decreases n
  {
    if n > 0 {
      var m: nat := n - 1;
      var mid, before, v, target :| MergeRunTo(d, floor, a, mid, before, v, target, b, touched, m);
      NothingUnder(d, floor, a, mid, before, m);
    }
  }

  // ---------------------------------------------------------------- the working set

  // Distance on a line.
  function Gap(a: Vector, b: Vector): real {
    if At(a, 0) < At(b, 0) then At(b, 0) - At(a, 0) else At(a, 0) - At(b, 0)
  }

  const Stay := Entry("stay", [-2.0], map[], 0)
  const Lost := Entry("lost", [4.0], map[], 0)
  const Came := Entry("came", [5.0], map[], 0)

  // Two postings of the last epoch, at 0 and at 10, reconciled: one vector has come to 5.
  const Start: seq<Cluster> := [Cluster(0, [0.0], [Lost, Stay]), Cluster(1, [10.0], [Came])]
  const Olds: map<nat, Vector> := map[0 := [0.0], 1 := [10.0]]
  const Recentred: seq<Cluster> := [Cluster(0, [1.0], [Lost, Stay]), Cluster(1, [5.0], [Came])]

  lemma {:induction false} SumOfOne(v: Vector)
    ensures SumAt([v], 0) == At(v, 0)
  {
    assert [v][..0] == [];
  }

  lemma {:induction false} StartRecentres()
    ensures RecenterIn(Start, {0, 1}) == Recentred
  {
    var two := Vectors([Lost, Stay]);
    assert two == [[4.0], [-2.0]];
    SumOfOne([4.0]);
    assert two[..1] == [[4.0]];
    assert SumAt(two, 0) == 4.0 + -2.0;
    assert MeanVec(two) == [1.0];
    var one := Vectors([Came]);
    assert one == [[5.0]];
    SumOfOne([5.0]);
    assert MeanVec(one) == [5.0];
  }

  lemma {:induction false} ThreeEntries()
    ensures |Entries(Start)| == 3
  {
    assert Start[..1] == [Start[0]] && Start[..1][..0] == [];
    assert multiset(Start[0].members) == multiset{Lost, Stay} && multiset(Start[1].members) == multiset{Came};
    assert Entries(Start[..1]) == multiset{Lost, Stay};
  }

  lemma {:induction false} LostIsSkipped()
    ensures Lost.id !in Candidates(Gap, Recentred, Olds, {0, 1}, {"came"}, 0)
  {
    NoNeighbours(Gap, Recentred, {0, 1});
    hide Eq2All;
    assert IndexOf(Recentred, 0) == 0;
    assert IndexOf(Recentred[1..], 1) == 0 && IndexOf(Recentred, 1) == 1;
    assert "lost" !in Eq1(Gap, Recentred, Olds, 0);
    assert "lost" !in Eq1(Gap, Recentred, Olds, 1);
  }

  // With nothing to split and nothing to merge the reassign works on the recentred postings.
  lemma {:induction false} OnlyReassigns(d: Dist, st: Stages, olds: map<nat, Vector>, forced: set<string>, end: seq<Cluster>, recentred: seq<Cluster>)
    requires Rebalanced(d, st, olds, forced, end) && RecenterIn(st.start, st.touched) == recentred
    requires var n, k := |Entries(st.start)|, |recentred|;
             forall i | 0 <= i < k :: MergeMin(n, k) <= |recentred[i].members| <= SplitCap(n, k)
    ensures st.merged == recentred && Reassigned(d, recentred, Candidates(d, recentred, olds, st.touched, forced, 0), st.moved)
  {
    hide Entries, RecenterIn, SplitCap, MergeMin, Reassigned, Candidates, Traced, Pruned, SplitRun, MergeRun;
    var n, k := |Entries(st.start)|, |recentred|;
    var s :| SplitRun(d, SplitCap(n, k), recentred, st.split, st.splitTouched, s);
    NothingOver(d, SplitCap(n, k), recentred, st.split, st.splitTouched, s);
    var m :| MergeRun(d, MergeMin(n, k), recentred, st.merged, st.mergeTouched, m);
    NothingUnder(d, MergeMin(n, k), recentred, st.merged, st.mergeTouched, m);
    assert st.splitTouched + st.mergeTouched + st.touched == st.touched;
  }

  // The build moves nobody away, although a posting three times nearer has come up for one of them.
  lemma {:induction false} LostStaysBehind(st: Stages, end: seq<Cluster>)
    requires Rebalanced(Gap, st, Olds, {"came"}, end) && st.start == Start && st.touched == {0, 1}
    ensures st.merged == Recentred && Holds(st.moved, 0, Lost)
    ensures Gap(Lost.vector, Recentred[0].centroid) == 3.0 && Gap(Lost.vector, Recentred[1].centroid) == 1.0
  {
    hide *;
    StartRecentres();
    InTheBand();
    OnlyReassigns(Gap, st, Olds, {"came"}, end, Recentred);
    LostIsSkipped();
    LostIsThere();
    Unmoved(Gap, Recentred, Candidates(Gap, Recentred, Olds, {0, 1}, {"came"}, 0), st.moved, 0, Lost);
  }

  lemma {:induction false} InTheBand()
    ensures var n, k := |Entries(Start)|, |Recentred|;
            forall i | 0 <= i < k :: MergeMin(n, k) <= |Recentred[i].members| <= SplitCap(n, k)
  {
    ThreeEntries();
    assert SplitCap(3, 2) == 2 && MergeMin(3, 2) == 1;
    hide Entries, SplitCap, MergeMin;
  }

  lemma {:induction false} LostIsThere()
    ensures Holds(Recentred, 0, Lost)
    ensures Gap(Lost.vector, Recentred[0].centroid) == 3.0 && Gap(Lost.vector, Recentred[1].centroid) == 1.0
  {
  }

  lemma {:induction false} Unmoved(d: Dist, before: seq<Cluster>, C: set<string>, after: seq<Cluster>, i: nat, e: Entry)
    requires Reassigned(d, before, C, after) && Holds(before, i, e) && e.id !in C
    ensures Holds(after, i, e)
  {
    hide Entries, Unique, Stems;
    assert Home(d, before, C, i, e) == i;
  }

  // One neighbour would do.
  lemma {:induction false} OneNeighbourFinds()
    ensures "lost" in Candidates(Gap, Recentred, Olds, {0, 1}, {"came"}, 1)
  {
    assert IndexOf(Recentred, 0) == 0;
    assert IndexOf(Recentred[1..], 1) == 0 && IndexOf(Recentred, 1) == 1;
    var r := Ranked(0, 4.0);
    assert Recentred[..1] == [Recentred[0]] && Recentred[..1][..0] == [];
    assert Others(Gap, [], [5.0], 1) == [];
    assert Others(Gap, Recentred[..1], [5.0], 1) == [r];
    assert Others(Gap, Recentred, [5.0], 1) == [r];
    assert [r][1..] == [] && Sort(Nearer, [r]) == [r];
    assert Nearby(Gap, Recentred, [5.0], 1, 1) == [0];
    assert Lost in Recentred[0].members;
    assert "lost" in Pulled(Gap, Recentred, [5.0], 0);
    assert "lost" in Eq2(Gap, Recentred, 1, 1);
  }
}
