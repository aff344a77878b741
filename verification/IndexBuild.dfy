// The vector part of an index build: cluster the live vectors, from scratch or by carrying the
// previous epoch forward, and publish the clusters.

module IndexBuild {
  import opened Types
  import opened KMeans
  import opened Postings
  import opened Reassignment
  import opened Lire
  import opened Epoch
  import opened Sorting

  const SPLIT_CAP_MULTIPLIER := 2
  const MERGE_MIN_DIVISOR := 2

  // ---------------------------------------------------------------- reconciling with the live set

  function KeepIn(members: seq<Entry>, keep: set<string>): seq<Entry>
    decreases |members|
  {
    if members == [] then [] else
    var n := |members| - 1;
    KeepIn(members[..n], keep) + (if members[n].id in keep then [members[n]] else [])
  }

  lemma {:induction false} KeepInNone(keep: set<string>)
    ensures KeepIn([], keep) == []
  {
  }

  lemma {:induction false} KeepInStep(members: seq<Entry>, k: nat, keep: set<string>)
    requires k < |members|
    ensures KeepIn(members[..k + 1], keep) == KeepIn(members[..k], keep) + (if members[k].id in keep then [members[k]] else [])
  {
    assert members[..k + 1][..k] == members[..k];
  }

  lemma {:induction false} KeepInIs(members: seq<Entry>, keep: set<string>)
    ensures forall e :: e in KeepIn(members, keep) <==> e in members && e.id in keep
    ensures multiset(KeepIn(members, keep)) <= multiset(members)
    decreases |members|
  {
    if members != [] {
      var n := |members| - 1;
      assert members == members[..n] + [members[n]];
      KeepInIs(members[..n], keep);
    }
  }

  function KeepAll(cs: seq<Cluster>, keep: set<string>): (r: seq<Cluster>)
    ensures |r| == |cs|
    ensures forall i | 0 <= i < |cs| :: r[i] == cs[i].(members := KeepIn(cs[i].members, keep))
  {
    seq(|cs|, (i: int) requires 0 <= i < |cs| => cs[i].(members := KeepIn(cs[i].members, keep)))
  }

  lemma {:induction false} KeepAllEntries(cs: seq<Cluster>, keep: set<string>)
    ensures Entries(KeepAll(cs, keep)) <= Entries(cs)
    ensures forall e :: e in Entries(KeepAll(cs, keep)) <==> e in Entries(cs) && e.id in keep
    decreases |cs|
  {
    if cs != [] {
      var n := |cs| - 1;
      KeepAllEntries(cs[..n], keep);
      assert KeepAll(cs, keep)[..n] == KeepAll(cs[..n], keep);
      var kept := KeepIn(cs[n].members, keep);
      KeepInIs(cs[n].members, keep);
      assert KeepAll(cs, keep)[n].members == kept;
      assert forall e :: e in multiset(kept) <==> e in kept;
      assert forall e :: e in multiset(cs[n].members) <==> e in cs[n].members;
    }
  }

  lemma {:induction false} UniqueSub(a: multiset<Entry>, b: multiset<Entry>)
    requires a <= b && Unique(b)
    ensures Unique(a)
  {
    forall e | e in a ensures a[e] == 1 && e in b {}
  }

  // Drops every member the live set no longer has.
  method RemoveStale(li: LireIndex, liveSet: set<string>) returns (present: set<string>, touched: set<nat>)
    requires li.Valid() && Unique(Entries(li.clusters))
    modifies li`clusters
    ensures li.Valid() && Unique(Entries(li.clusters))
    ensures li.clusters == KeepAll(old(li.clusters), liveSet)
    ensures present == IdSet(li.clusters) == IdSet(old(li.clusters)) * liveSet
    ensures Traced(old(li.clusters), li.clusters, touched)
  {
    hide Unique, Entries, KeepIn, PresentIn;
    present, touched := {}, {};
    ghost var was := li.clusters;
    PresentNone(was, liveSet);
    var ci := 0;
    while ci < |li.clusters|
      invariant ci <= |was| && |li.clusters| == |was|
      invariant forall i | 0 <= i < ci :: li.clusters[i] == was[i].(members := KeepIn(was[i].members, liveSet))
      invariant forall i | ci <= i < |was| :: li.clusters[i] == was[i]
      invariant present == PresentIn(was, ci, liveSet)
      invariant forall i | 0 <= i < ci && was[i].id !in touched :: li.clusters[i] == was[i]
    {
      var c := li.clusters[ci];
      var kept, found, lost := Partition(c.members, liveSet);
      PresentStep(was, ci, liveSet, present, found);
      present := present + found;
      if lost { touched := touched + {c.id}; }
      li.clusters := li.clusters[ci := c.(members := kept)];
      ci := ci + 1;
    }
    KeepAllEntries(was, liveSet);
    assert li.clusters == KeepAll(was, liveSet);
    UniqueSub(Entries(li.clusters), Entries(was));
    PresentIs(was, liveSet, present);
  }

  ghost function PresentIn(cs: seq<Cluster>, n: nat, keep: set<string>): set<string>
    requires n <= |cs|
  {
    set i, e | 0 <= i < n && e in cs[i].members && e.id in keep :: e.id
  }

  lemma {:induction false} PresentNone(cs: seq<Cluster>, keep: set<string>)
    ensures PresentIn(cs, 0, keep) == {}
  {
  }

  lemma {:induction false} PresentStep(cs: seq<Cluster>, n: nat, keep: set<string>, present: set<string>, found: set<string>)
    requires n < |cs| && present == PresentIn(cs, n, keep)
    requires found == set e | e in cs[n].members && e.id in keep :: e.id
    ensures present + found == PresentIn(cs, n + 1, keep)
  {
  }

  lemma {:induction false} PresentIs(cs: seq<Cluster>, keep: set<string>, present: set<string>)
    requires present == PresentIn(cs, |cs|, keep)
    ensures present == IdSet(KeepAll(cs, keep)) == IdSet(cs) * keep
  {
    hide Entries;
    KeepAllEntries(cs, keep);
    forall x ensures x in present <==> x in IdSet(cs) * keep {
      if x in present {
        var i, e :| 0 <= i < |cs| && e in cs[i].members && e.id in keep && e.id == x;
        EntryHeld(cs, i, e);
      }
      if x in IdSet(cs) * keep {
        var e :| e in Entries(cs) && e.id == x;
        EntryPlace(cs, e);
      }
    }
  }

  method Partition(members: seq<Entry>, keep: set<string>) returns (kept: seq<Entry>, found: set<string>, lost: bool)
    ensures kept == KeepIn(members, keep)
    ensures found == set e | e in members && e.id in keep :: e.id
    ensures !lost ==> kept == members
  {
    hide KeepIn;
    kept, found, lost := [], {}, false;
    KeepInNone(keep);
    var k := 0;
    while k < |members|
      invariant k <= |members| && kept == KeepIn(members[..k], keep)
      invariant found == set e | e in members[..k] && e.id in keep :: e.id
      invariant !lost ==> kept == members[..k]
    {
      assert members[..k + 1] == members[..k] + [members[k]];
      KeepInStep(members, k, keep);
      if members[k].id in keep {
        kept := kept + [members[k]];
        found := found + {members[k].id};
      } else {
        lost := true;
      }
      k := k + 1;
    }
    assert members[..|members|] == members;
  }

  // Updates the stored vector of a carried member in place.
  method RefreshMemberVector(li: LireIndex, id: string, vec: Vector) returns (cid: Option<nat>, changed: bool)
    requires li.Valid() && Unique(Entries(li.clusters))
    modifies li`clusters
    ensures li.Valid() && Unique(Entries(li.clusters)) && IdSet(li.clusters) == IdSet(old(li.clusters))
    ensures cid.Some? <==> id in IdSet(old(li.clusters))
    ensures forall e | e in Entries(li.clusters) :: if e.id == id then e.vector == vec else e in Entries(old(li.clusters))
    ensures cid.Some? && !changed ==> li.clusters == old(li.clusters)
    ensures if cid.Some? then Traced(old(li.clusters), li.clusters, {cid.value}) else li.clusters == old(li.clusters)
  {
    hide Unique, Entries, MemberIndex;
    ghost var was := li.clusters;
    var ci := 0;
    while ci < |li.clusters|
      invariant ci <= |was| && li.clusters == was
      invariant forall i | 0 <= i < ci :: MemberIndex(was[i].members, id) == |was[i].members|
    {
      var k := li.FindMember(ci, id);
      if k < |li.clusters[ci].members| {
        var c := li.clusters[ci];
        changed := c.members[k].vector != vec;
        Refreshed(was, ci, k, vec);
        TracedUpdate(was, ci, c.(members := c.members[k := c.members[k].(vector := vec)]));
        li.clusters := li.clusters[ci := c.(members := c.members[k := c.members[k].(vector := vec)])];
        if !changed {
          assert c.members[k].(vector := vec) == c.members[k];
          assert c.members[k := c.members[k]] == c.members;
          assert was[ci := c] == was;
        }
        return Some(c.id), changed;
      }
      ci := ci + 1;
    }
    NotThere(was, id);
    cid, changed := None, false;
  }

  lemma {:induction false} NotThere(cs: seq<Cluster>, id: string)
    requires forall i | 0 <= i < |cs| :: MemberIndex(cs[i].members, id) == |cs[i].members|
    ensures id !in IdSet(cs)
  {
    hide Entries;
    if e :| e in Entries(cs) && e.id == id {
      EntryPlace(cs, e);
    }
  }

  lemma {:induction false} Refreshed(cs: seq<Cluster>, i: nat, k: nat, vec: Vector)
    requires Unique(Entries(cs)) && i < |cs| && k < |cs[i].members|
    ensures var e := cs[i].members[k];
            var after := cs[i := cs[i].(members := cs[i].members[k := e.(vector := vec)])];
            && Unique(Entries(after)) && IdSet(after) == IdSet(cs) && e.id in IdSet(cs)
            && forall f | f in Entries(after) :: if f.id == e.id then f.vector == vec else f in Entries(cs)
  {
    hide Entries, Unique;
    var e := cs[i].members[k];
    var f := e.(vector := vec);
    RefreshedBag(cs, i, k, f);
    EntryHeld(cs, i, e);
    UniqueSwap(Entries(cs), e, f);
    SwapIds(Entries(cs), e, f);
  }

  lemma {:induction false} RefreshedBag(cs: seq<Cluster>, i: nat, k: nat, f: Entry)
    requires i < |cs| && k < |cs[i].members|
    ensures Entries(cs[i := cs[i].(members := cs[i].members[k := f])]) == Entries(cs) - multiset{cs[i].members[k]} + multiset{f}
  {
    hide Entries;
    var ms := cs[i].members;
    var after := cs[i := cs[i].(members := ms[k := f])];
    EntryHeld(cs, i, ms[k]);
    EntriesUpdate(cs, i, cs[i].(members := ms[k := f]));
    assert ms == ms[..k] + [ms[k]] + ms[k + 1..];
    assert ms[k := f] == ms[..k] + [f] + ms[k + 1..];
    MovedOver(Entries(after), Entries(cs), ms[k], f);
  }

  // Replacing an entry by one of the same id keeps the ids and every other entry.
  lemma {:induction false} SwapIds(es: multiset<Entry>, e: Entry, f: Entry)
    requires Unique(es) && e in es && e.id == f.id
    ensures var r := es - multiset{e} + multiset{f};
            && (set g | g in r :: g.id) == (set g | g in es :: g.id)
            && forall g | g in r :: if g.id == e.id then g == f else g in es
  {
    var r := es - multiset{e} + multiset{f};
    forall g | g in r ensures if g.id == e.id then g == f else g in es {
      if g != f { assert g in es && g != e; }
    }
    forall g | g in es ensures exists h :: h in r && h.id == g.id {
      if g == e { assert f in r; } else { assert g in r; }
    }
  }

  // ---------------------------------------------------------------- the incremental build

  // Every member of the working set is one of ids, with its live vector if it is among the first n.
  ghost predicate Reconciled(cs: seq<Cluster>, prev: set<string>, ids: seq<string>, n: nat, live: Live)
    requires n <= |ids|
  {
    && Unique(Entries(cs))
    && IdSet(cs) == prev + (set id | id in ids[..n])
    && forall e | e in Entries(cs) && e.id in ids[..n] :: e.id in live && live[e.id].vector == Some(e.vector)
  }

  // A vector the previous epoch did not hold at its present position.
  ghost predicate Displaced(prev: seq<Cluster>, e: Entry) {
    !exists f :: f in Entries(prev) && f.id == e.id && f.vector == e.vector
  }

  // Every vector is either on the moved list or where the previous epoch held it.
  ghost predicate Accounted(prev: seq<Cluster>, cs: seq<Cluster>, moved: set<string>) {
    forall e | e in Entries(cs) && e.id !in moved :: !Displaced(prev, e)
  }

  lemma {:induction false} StillAccounted(prev: seq<Cluster>, before: seq<Cluster>, after: seq<Cluster>, moved: set<string>, id: string)
    requires Accounted(prev, before, moved)
    requires forall e | e in Entries(after) && e.id != id :: e in Entries(before)
    ensures Accounted(prev, after, moved + {id})
  {
    hide Entries, Displaced;
  }

  // Brings the working set up to the live set: carried members are refreshed, absent ones inserted.
  // `moved` names every vector the previous epoch did not hold at its present position.
  method ReconcileAll(li: LireIndex, ids: seq<string>, live: Live, present: set<string>, touched0: set<nat>)
    returns (touched: set<nat>, moved: set<string>)
    requires li.Valid() && Unique(Entries(li.clusters)) && present == IdSet(li.clusters)
    requires NoDup(ids) && present <= set id | id in ids
    requires forall id | id in ids :: id in live && live[id].vector.Some?
    modifies li`clusters, li`nextID
    ensures li.Valid() && Reconciled(li.clusters, {}, ids, |ids|, live)
    ensures forall e | e in Entries(li.clusters) && Displaced(old(li.clusters), e) :: e.id in moved
    ensures touched0 <= touched && Traced(old(li.clusters), li.clusters, touched)
  {
    hide Unique, Entries, Traced, Accounted, Displaced, Reconciled, NoDup, IdSet;
    hide LireIndex.Valid, Nearest;
    touched, moved := touched0, {};
    NothingDisplaced(li.clusters);
    NothingReconciled(li.clusters, ids, live);
    TracedSelf(li.clusters);
    ghost var since: set<nat> := {};
    var n := 0;
    while n < |ids|
      invariant n <= |ids| && li.Valid() && Reconciled(li.clusters, present, ids, n, live)
      invariant Accounted(old(li.clusters), li.clusters, moved)
      invariant touched == touched0 + since && Traced(old(li.clusters), li.clusters, since)
    {
      var id := ids[n];
      var vec := live[id].vector.value;
      ghost var before := li.clusters;
      ReconciledUnique(before, present, ids, n, live);
      if id in present {
        var cid, changed := RefreshMemberVector(li, id, vec);
        if cid.Some? {
          touched := touched + {cid.value};
          TracedOn(old(li.clusters), before, li.clusters, since, {cid.value});
          since := since + {cid.value};
          if changed {
            StillAccounted(old(li.clusters), before, li.clusters, moved, id);
            moved := moved + {id};
          }
        }
        RefreshReconciles(before, li.clusters, present, ids, n, live);
      } else {
        var landed := li.InsertNearest(Entry(id, vec, live[id].attrs, 0));
        touched := touched + {landed};
        TracedOn(old(li.clusters), before, li.clusters, since, {landed});
        since := since + {landed};
        StillAccounted(old(li.clusters), before, li.clusters, moved, id);
        moved := moved + {id};
        InsertReconciles(before, li.clusters, present, ids, n, live, Entry(id, vec, live[id].attrs, 0));
      }
      n := n + 1;
    }
    AllReconciled(li.clusters, present, ids, live);
    TracedMore(old(li.clusters), li.clusters, since, touched);
    assert forall e | e in Entries(li.clusters) && Displaced(old(li.clusters), e) :: e.id in moved by {
      AccountedMeans(old(li.clusters), li.clusters, moved);
    }
  }

  lemma {:induction false} NothingReconciled(cs: seq<Cluster>, ids: seq<string>, live: Live)
    requires Unique(Entries(cs))
    ensures Reconciled(cs, IdSet(cs), ids, 0, live)
  {
    hide Unique, Entries, IdSet;
    assert (set id | id in ids[..0]) == {};
  }

  lemma {:induction false} ReconciledUnique(cs: seq<Cluster>, prev: set<string>, ids: seq<string>, n: nat, live: Live)
    requires n <= |ids| && Reconciled(cs, prev, ids, n, live)
    ensures Unique(Entries(cs))
  {
  }

  lemma {:induction false} AllReconciled(cs: seq<Cluster>, prev: set<string>, ids: seq<string>, live: Live)
    requires Reconciled(cs, prev, ids, |ids|, live) && prev <= set id | id in ids
    ensures Reconciled(cs, {}, ids, |ids|, live)
  {
    hide Unique, Entries, IdSet;
    assert ids[..|ids|] == ids;
    assert prev + (set id | id in ids) == {} + (set id | id in ids);
  }

  lemma {:induction false} NothingDisplaced(cs: seq<Cluster>)
    ensures Accounted(cs, cs, {})
  {
    hide Entries;
  }

  lemma {:induction false} AccountedMeans(prev: seq<Cluster>, cs: seq<Cluster>, moved: set<string>)
    requires Accounted(prev, cs, moved)
    ensures forall e | e in Entries(cs) && Displaced(prev, e) :: e.id in moved
  {
    hide Entries, Displaced;
  }

  lemma {:induction false} TracedMore(a: seq<Cluster>, b: seq<Cluster>, t: set<nat>, u: set<nat>)
    requires Traced(a, b, t) && t <= u
    ensures Traced(a, b, u)
  {
  }

  lemma {:induction false} RefreshReconciles(before: seq<Cluster>, after: seq<Cluster>, prev: set<string>, ids: seq<string>, n: nat, live: Live)
    requires n < |ids| && Reconciled(before, prev, ids, n, live) && ids[n] in prev
    requires ids[n] in live && live[ids[n]].vector.Some?
    requires Unique(Entries(after)) && IdSet(after) == IdSet(before)
    requires forall e | e in Entries(after) :: if e.id == ids[n] then e.vector == live[ids[n]].vector.value else e in Entries(before)
    ensures Reconciled(after, prev, ids, n + 1, live)
  {
    hide Unique, Entries, IdSet;
    assert ids[..n + 1] == ids[..n] + [ids[n]];
    forall e | e in Entries(after) && e.id in ids[..n + 1] ensures e.id in live && live[e.id].vector == Some(e.vector) {
      if e.id != ids[n] { assert e.id in ids[..n]; }
    }
  }

  lemma {:induction false} InsertReconciles(before: seq<Cluster>, after: seq<Cluster>, prev: set<string>, ids: seq<string>, n: nat, live: Live, e: Entry)
    requires n < |ids| && NoDup(ids) && Reconciled(before, prev, ids, n, live) && ids[n] !in prev
    requires e.id == ids[n] && e.id in live && live[e.id].vector == Some(e.vector)
    requires Entries(after) == Entries(before) + multiset{e}
    ensures Reconciled(after, prev, ids, n + 1, live)
  {
    hide Entries, Unique, IdSet;
    var upTo := ids[..n + 1];
    assert upTo == ids[..n] + [ids[n]];
    assert e.id !in IdSet(before) by { assert e.id !in ids[..n]; }
    GainsOne(before, after, e);
    assert IdSet(after) == prev + (set id | id in upTo);
    forall f | f in Entries(after) && f.id in upTo ensures f.id in live && live[f.id].vector == Some(f.vector) {
      if f != e {
        assert f in Entries(before) && f.id in IdSet(before) by { HeldId(before, f); }
        assert f.id in ids[..n];
      }
    }
  }

  lemma {:induction false} HeldId(cs: seq<Cluster>, e: Entry)
    requires e in Entries(cs)
    ensures e.id in IdSet(cs)
  {
    hide Entries;
  }

  lemma {:induction false} GainsOne(before: seq<Cluster>, after: seq<Cluster>, e: Entry)
    requires Unique(Entries(before)) && e.id !in IdSet(before) && Entries(after) == Entries(before) + multiset{e}
    ensures Unique(Entries(after)) && IdSet(after) == IdSet(before) + {e.id}
  {
    hide Entries;
    forall f | f in Entries(before) ensures f.id != e.id { assert f.id in IdSet(before); }
    forall x ensures x in IdSet(after) <==> x in IdSet(before) || x == e.id {
      if x in IdSet(before) {
        var f :| f in Entries(before) && f.id == x;
        assert f in Entries(after);
      }
      if x == e.id { assert e in Entries(after); }
    }
  }

  // The posting-length band around the balanced size n / k.
  function SplitCap(n: nat, k: nat): (cap: nat)
    ensures cap >= 1
  {
    var kk := if k < 1 then 1 else k;
    var cap := n / kk * SPLIT_CAP_MULTIPLIER;
    if cap < 1 then 1 else cap
  }

  function MergeMin(n: nat, k: nat): (floor: nat)
    ensures 1 <= floor <= SplitCap(n, k)
  {
    var kk := if k < 1 then 1 else k;
    var floor := n / kk / MERGE_MIN_DIVISOR;
    if floor < 1 then 1 else floor
  }

  // The cap is twice the average length, rounded down to whole averages.
  lemma {:induction false} CapAroundAverage(n: nat, k: nat)
    requires 1 <= k <= n
    ensures SplitCap(n, k) * k <= 2 * n < (SplitCap(n, k) + 2) * k
  {
    var q := n / k;
    QuotientOf(n, k, q);
    QuotientAtLeast(n, k, q, 1);
    var cap := SplitCap(n, k);
    assert cap == 2 * q;
    TwiceTimes(q, k);
    TwiceTimes(q + 1, k);
  }

  lemma {:induction false} TwiceTimes(q: nat, k: nat)
    ensures (2 * q) * k == 2 * (q * k) == q * (2 * k)
  {
  }

  // The floor is half of it.
  lemma {:induction false} FloorAroundAverage(n: nat, k: nat)
    requires 1 <= k && 2 * k <= n
    ensures MergeMin(n, k) * (2 * k) <= n < (MergeMin(n, k) + 1) * (2 * k)
  {
    var q := n / k;
    QuotientOf(n, k, q);
    QuotientAtLeast(n, k, q, 2);
    var h := q / 2;
    assert MergeMin(n, k) == h;
    Scaled(2 * h, q, k);
    Scaled(q + 1, 2 * (h + 1), k);
    TwiceTimes(h, k);
    TwiceTimes(h + 1, k);
  }

  lemma {:induction false} QuotientOf(n: nat, k: nat, q: nat)
    requires k >= 1 && q == n / k
    ensures q * k <= n < (q + 1) * k
  {
  }

  lemma {:induction false} QuotientAtLeast(n: nat, k: nat, q: nat, m: nat)
    requires k >= 1 && m * k <= n < (q + 1) * k
    ensures q >= m
  {
    assert m * k < (q + 1) * k;
  }

  lemma {:induction false} Scaled(a: nat, b: nat, k: nat)
    requires a <= b
    ensures a * k <= b * k
  {
  }

  // The previous epoch as a working set: cluster i keeps id i.
  function Carry(prev: seq<Clustered>): (cs: seq<Cluster>)
    ensures |cs| == |prev|
    ensures forall i | 0 <= i < |cs| :: cs[i] == Cluster(i, prev[i].centroid, prev[i].members)
  {
    seq(|prev|, (i: int) requires 0 <= i < |prev| => Cluster(i, prev[i].centroid, prev[i].members))
  }

  ghost predicate UniqueMembers(cs: seq<Clustered>) {
    forall c, k, c', k' | 0 <= c < |cs| && 0 <= k < |cs[c].members| && 0 <= c' < |cs| && 0 <= k' < |cs[c'].members|
      && cs[c].members[k].id == cs[c'].members[k'].id :: c == c' && k == k'
  }

  ghost predicate SpreadOut(cs: seq<Cluster>) {
    forall c, k, c', k' | 0 <= c < |cs| && 0 <= k < |cs[c].members| && 0 <= c' < |cs| && 0 <= k' < |cs[c'].members|
      && cs[c].members[k].id == cs[c'].members[k'].id :: c == c' && k == k'
  }

  lemma {:induction false} SpreadOutUnique(cs: seq<Cluster>)
    requires SpreadOut(cs)
    ensures Unique(Entries(cs))
    decreases |cs|
  {
    hide Unique, Entries, SpreadOut;
    if cs == [] {
      NoEntries();
    } else {
      var n := |cs| - 1;
      var ms := cs[n].members;
      SpreadOutFirst(cs);
      SpreadOutUnique(cs[..n]);
      OnceInLast(cs);
      forall e, f | e in ms && f in Entries(cs[..n]) ensures f.id != e.id {
        EntryPlace(cs[..n], f);
        var i :| 0 <= i < n && f in cs[..n][i].members;
        ApartFromLast(cs, e, i, f);
      }
      UniqueUnion(Entries(cs[..n]), ms, cs);
      EntriesLast(cs);
    }
  }

  lemma {:induction false} NoEntries()
    ensures Unique(Entries([]))
  {
  }

  lemma {:induction false} EntriesLast(cs: seq<Cluster>)
    requires cs != []
    ensures Entries(cs) == Entries(cs[..|cs| - 1]) + multiset(cs[|cs| - 1].members)
  {
  }

  lemma {:induction false} SpreadOutFirst(cs: seq<Cluster>)
    requires SpreadOut(cs) && cs != []
    ensures SpreadOut(cs[..|cs| - 1])
  {
  }

  // The last posting names each of its ids once, and none of an earlier posting's.
  lemma {:induction false} OnceInLast(cs: seq<Cluster>)
    requires SpreadOut(cs) && cs != []
    ensures var ms := cs[|cs| - 1].members;
            && (forall i, j | 0 <= i < |ms| && 0 <= j < |ms| && ms[i].id == ms[j].id :: i == j)
            && (forall e | e in ms :: multiset(ms)[e] == 1)
  {
    var ms := cs[|cs| - 1].members;
    forall i, j | 0 <= i < |ms| && 0 <= j < |ms| && ms[i].id == ms[j].id ensures i == j {
      assert cs[|cs| - 1].members[i].id == cs[|cs| - 1].members[j].id;
    }
    assert NoDup(ms);
    forall e | e in ms ensures multiset(ms)[e] == 1 {
      var k :| 0 <= k < |ms| && ms[k] == e;
      OnceIn(ms, k);
    }
  }

  lemma {:induction false} ApartFromLast(cs: seq<Cluster>, e: Entry, i: nat, f: Entry)
    requires SpreadOut(cs) && i < |cs| - 1 && e in cs[|cs| - 1].members && f in cs[i].members
    ensures f.id != e.id
  {
    var ms := cs[|cs| - 1].members;
    var k :| 0 <= k < |ms| && ms[k] == e;
    var l :| 0 <= l < |cs[i].members| && cs[i].members[l] == f;
    assert cs[|cs| - 1].members[k].id == cs[i].members[l].id ==> |cs| - 1 == i;
  }

  lemma {:induction false} UniqueUnion(es: multiset<Entry>, ms: seq<Entry>, cs: seq<Cluster>)
    requires Unique(es) && forall e | e in ms :: multiset(ms)[e] == 1
    requires forall e, f | e in ms && f in es :: f.id != e.id
    requires forall i, j | 0 <= i < |ms| && 0 <= j < |ms| && ms[i].id == ms[j].id :: i == j
    ensures Unique(es + multiset(ms))
  {
    var all := es + multiset(ms);
    forall e | e in all ensures all[e] == 1 && (e in ms || e in es) && !(e in ms && e in es) {
      assert e in multiset(ms) <==> e in ms;
    }
    forall e, f | e in all && f in all && e.id == f.id ensures e == f {
      if e in ms && f in ms {
        var i :| 0 <= i < |ms| && ms[i] == e;
        var j :| 0 <= j < |ms| && ms[j] == f;
      }
    }
  }

  // Every displaced vector sits, after the moves, in the posting whose centroid was nearest.
  ghost predicate Rehoused(d: Dist, prev: seq<Cluster>, mid: seq<Cluster>) {
    forall j: nat, f | Holds(mid, j, f) && Displaced(prev, f) :: Nearest(d, mid, f.vector, {}) == Some(j)
  }

  lemma {:induction false} ReassignRehouses(d: Dist, prev: seq<Cluster>, at: seq<Cluster>, mid: seq<Cluster>, C: set<string>, moved: set<string>)
    requires Unique(Entries(at)) && Reassigned(d, at, C, mid) && DistinctIds(at)
    requires Forced(at, |at|, moved) <= C
    requires forall e | e in Entries(at) && Displaced(prev, e) :: e.id in moved
    ensures Rehoused(d, prev, mid)
  {
    hide Unique, Entries, NearestUpTo, Stems, Displaced;
    forall j: nat, f | Holds(mid, j, f) && Displaced(prev, f) ensures Nearest(d, mid, f.vector, {}) == Some(j) {
      var i, e := Origin(d, at, C, mid, j, f);
      EntryHeld(at, i, e);
      DisplacedSame(prev, f, e);
      assert e.id in Forced(at, |at|, moved);
      NearestSome(d, at, e.vector);
      NearestIgnoresMembers(d, mid, at, e.vector, {}, |mid|);
    }
  }

  lemma {:induction false} DisplacedSame(prev: seq<Cluster>, e: Entry, f: Entry)
    requires Displaced(prev, e) && e.id == f.id && e.vector == f.vector
    ensures Displaced(prev, f)
  {
  }

  // Reassigning changes no id and no vector.
  lemma {:induction false} ReassignKeeps(d: Dist, at: seq<Cluster>, C: set<string>, mid: seq<Cluster>)
    requires Unique(Entries(at)) && Reassigned(d, at, C, mid)
    ensures IdSet(mid) == IdSet(at)
  {
    hide Unique, Entries, Home, Reassigned;
    forall x ensures x in IdSet(mid) <==> x in IdSet(at) {
      if f :| f in Entries(mid) && f.id == x {
        EntryPlace(mid, f);
        var j :| 0 <= j < |mid| && f in mid[j].members;
        var i, e := Origin(d, at, C, mid, j, f);
        EntryHeld(at, i, e);
      }
      if e :| e in Entries(at) && e.id == x {
        EntryPlace(at, e);
        var i :| 0 <= i < |at| && e in at[i].members;
        ReassignedPlace(d, at, C, mid, i, e);
      }
    }
  }

  lemma {:induction false} ReassignedPlace(d: Dist, at: seq<Cluster>, C: set<string>, mid: seq<Cluster>, i: nat, e: Entry)
    requires Reassigned(d, at, C, mid) && Holds(at, i, e)
    ensures e.id in IdSet(mid)
  {
    hide Entries, Unique, Nearest;
    var j, f := Home(d, at, C, i, e), Rehomed(d, at, C, i, e);
    assert Holds(mid, j, f);
    EntryHeld(mid, j, f);
  }

  // The working set between the stages of a rebalance: reconciled with the live set, recentred,
  // split, merged, reassigned; and what was touched on the way.
  datatype Stages = Stages(start: seq<Cluster>, touched: set<nat>, recentred: seq<Cluster>, split: seq<Cluster>, splitTouched: set<nat>,
    merged: seq<Cluster>, mergeTouched: set<nat>, moved: seq<Cluster>, dirty: set<nat>)

  // Every stage did its work: the band is n / k around the balanced size, the split respects its cap,
  // the merge its floor, the reassign its candidates, and only changed postings are recentred.
  ghost predicate Rebalanced(d: Dist, st: Stages, olds: map<nat, Vector>, forced: set<string>, end: seq<Cluster>) {
    var n, k := |Entries(st.start)|, |st.recentred|;
    && st.recentred == RecenterIn(st.start, st.touched)
    && Entries(st.split) == Entries(st.recentred) && Traced(st.recentred, st.split, st.splitTouched)
    && (forall i | 0 <= i < |st.split| :: |st.split[i].members| <= SplitCap(n, k))
    && SplitsTo(d, SplitCap(n, k), st.recentred, st.split, st.splitTouched)
    && Entries(st.merged) == Entries(st.split) && Traced(st.split, st.merged, st.mergeTouched)
    && (|st.merged| <= 1 || forall i | 0 <= i < |st.merged| :: |st.merged[i].members| >= MergeMin(n, k))
    && MergesTo(d, MergeMin(n, k), st.split, st.merged, st.mergeTouched)
    && Reassigned(d, st.merged, Candidates(d, st.merged, olds, st.splitTouched + st.mergeTouched + st.touched, forced, 0), st.moved)
    && st.splitTouched + st.mergeTouched + st.touched <= st.dirty
    && (forall i | 0 <= i < |st.moved| && st.moved[i].id !in st.dirty :: st.moved[i] == st.merged[i])
    && end == Pruned(RecenterIn(st.moved, st.dirty))
  }

  // Recentres, splits, merges, reassigns and prunes.
  method Rebalance(li: LireIndex, touched: set<nat>, olds: map<nat, Vector>, forced: set<string>, ghost prev: seq<Cluster>)
    returns (ghost st: Stages)
    requires li.Valid() && Unique(Entries(li.clusters)) && li.reassignTopN == 0
    requires forall e | e in Entries(li.clusters) && Displaced(prev, e) :: e.id in forced
    modifies li`clusters, li`nextID, li`splitCap, li`mergeMin
    ensures li.Valid() && st.start == old(li.clusters) && st.touched == touched
    ensures Rebalanced(li.dist, st, olds, forced, li.clusters)
    ensures Unique(Entries(st.moved)) && Entries(li.clusters) == Entries(st.moved)
    ensures IdSet(st.moved) == IdSet(old(li.clusters)) && Rehoused(li.dist, prev, st.moved)
    ensures forall i | 0 <= i < |li.clusters| :: li.clusters[i].members != []
  {
    hide Unique, Entries, Reassigned, Candidates, Displaced, Rehoused, RecenterIn, Traced, Pruned, SplitCap, MergeMin, SplitsTo, MergesTo;
    ghost var start := li.clusters;
    li.RecenterAll(touched);
    RecenterKeeps(old(li.clusters), touched);
    ghost var recentred := li.clusters;
    var n := li.TotalMembers();
    li.splitCap := SplitCap(n, |li.clusters|);
    li.mergeMin := MergeMin(n, |li.clusters|);
    var splitTouched := li.SplitOversized();
    ghost var split := li.clusters;
    var mergeTouched := li.MergeUnderfull();
    ghost var merged := li.clusters;
    var changed := splitTouched + mergeTouched + touched;
    var dirty;
    ghost var moved;
    dirty, moved := li.Reassign(changed, olds, forced);
    ReassignedWell(li.dist, prev, merged, moved, changed, olds, forced, li.reassignTopN, dirty);
    li.PruneEmpty();
    st := Stages(start, touched, recentred, split, splitTouched, merged, mergeTouched, moved, dirty);
  }

  function CentroidMap(prev: seq<Clustered>): map<nat, Vector> {
    map i | 0 <= i < |prev| :: prev[i].centroid
  }

  // A carried-forward build: reconciled with the live set, then rebalanced, every displaced vector at
  // its nearest posting; published by posting, each with its versions.
  ghost predicate CarriedForward(d: Dist, prev: seq<Clustered>, ids: seq<string>, live: Live,
      centroids: seq<Vector>, memberIDs: seq<seq<string>>, versions: map<string, nat>, st: Stages, forced: set<string>, end: seq<Cluster>) {
    && Reconciled(st.start, {}, ids, |ids|, live) && Traced(Carry(prev), st.start, st.touched)
    && Rebalanced(d, st, CentroidMap(prev), forced, end) && SnapshotOf(end, centroids, memberIDs)
    && Rehoused(d, Carry(prev), st.moved) && IdSet(st.moved) == (set id | id in ids)
    && (forall e | e in Entries(st.moved) :: if e.version != 0 then e.id in versions && versions[e.id] == e.version else e.id !in versions)
  }

  // A build from scratch: round(sqrt(n)) clusters, each the bucket of one k-means cluster, no versions.
  ghost predicate FromScratch(d: Dist, ids: seq<string>, live: Live, centroids: seq<Vector>, memberIDs: seq<seq<string>>, assign: seq<nat>)
    requires forall id | id in ids :: id in live && live[id].vector.Some?
  {
    && |centroids| == |memberIDs| == Clusters(ChooseK(|ids|), |ids|) && |assign| == |ids|
    && (ids != [] ==> IsKMeans(d, LiveVectors(ids, live), ChooseK(|ids|), KMEANS_ITERS, centroids, assign))
    && forall c | 0 <= c < |memberIDs| :: memberIDs[c] == Bucket(ids, assign, c)
  }

  function LiveVectors(ids: seq<string>, live: Live): (r: seq<Vector>)
    requires forall id | id in ids :: id in live && live[id].vector.Some?
    ensures |r| == |ids| && forall i | 0 <= i < |r| :: r[i] == live[ids[i]].vector.value
  {
    seq(|ids|, (i: int) requires 0 <= i < |ids| => assert ids[i] in ids; live[ids[i]].vector.value)
  }

  // Carries the previous epoch forward. It never fails on a non-empty live set, its clusters cover
  // exactly the live ids, and every inserted or moved vector lands at its nearest posting. `st` and
  // `forced` show the stages: a posting not touched before the rebalance is the previous epoch's.
  method IncrementalCluster(d: Dist, prev: seq<Clustered>, ids: seq<string>, live: Live)
    returns (centroids: seq<Vector>, memberIDs: seq<seq<string>>, versions: map<string, nat>, ok: bool, ghost st: Stages, ghost forced: set<string>, ghost end: seq<Cluster>)
    requires NonNegative(d) && UniqueMembers(prev)
    requires NoDup(ids) && ids != [] && forall id | id in ids :: id in live && live[id].vector.Some?
    ensures ok && |centroids| == |memberIDs| && Covers(memberIDs, ids)
    ensures CarriedForward(d, prev, ids, live, centroids, memberIDs, versions, st, forced, end)
  {
    hide Unique, Entries, Covers, Displaced, Rehoused, SnapshotOf, Rebalanced, Traced;
    var li := new LireIndex(d, Carry(prev), |prev|);
    SpreadOutUnique(li.clusters);
    var liveSet := set id | id in ids;
    var present, touched := RemoveStale(li, liveSet);
    ghost var carried := li.clusters;
    ghost var early := touched;
    var moved;
    touched, moved := ReconcileAll(li, ids, live, present, touched);
    TracedOn(Carry(prev), carried, li.clusters, early, touched);
    assert early + touched == touched;
    StaleDisplaced(Carry(prev), liveSet, li.clusters, moved);
    assert ids[..|ids|] == ids;
    forced := moved;
    st := Rebalance(li, touched, CentroidMap(prev), moved, Carry(prev));
    SomethingLeft(li.clusters, ids);
    centroids, memberIDs, versions, ok := li.Snapshot();
    end := li.clusters;
    SnapshotCovers(li.clusters, centroids, memberIDs, ids);
  }

  lemma {:induction false} ReassignedWell(d: Dist, prev: seq<Cluster>, at: seq<Cluster>, mid: seq<Cluster>,
      changed: set<nat>, olds: map<nat, Vector>, moved: set<string>, topN: nat, dirty: set<nat>)
    requires Unique(Entries(at)) && DistinctIds(at)
    requires Reassigned(d, at, Candidates(d, at, olds, changed, moved, topN), mid)
    requires forall e | e in Entries(at) && Displaced(prev, e) :: e.id in moved
    ensures Rehoused(d, prev, mid) && IdSet(mid) == IdSet(at) && Unique(Entries(mid))
    ensures Entries(RecenterIn(mid, dirty)) == Entries(mid)
  {
    hide Unique, Entries, IdSet, Displaced, Rehoused, Eq1All, Eq2All, Forced;
    var C := Candidates(d, at, olds, changed, moved, topN);
    ReassignRehouses(d, prev, at, mid, C, moved);
    ReassignKeeps(d, at, C, mid);
    RecenterKeeps(mid, dirty);
  }

  lemma {:induction false} RecenterKeeps(cs: seq<Cluster>, ids: set<nat>)
    ensures Entries(RecenterIn(cs, ids)) == Entries(cs)
  {
    RecenterIds(cs, ids);
    SameMembers(RecenterIn(cs, ids), cs);
  }

  lemma {:induction false} SomethingLeft(cs: seq<Cluster>, ids: seq<string>)
    requires ids != [] && IdSet(cs) == set id | id in ids
    ensures cs != []
  {
    assert ids[0] in IdSet(cs);
  }

  lemma {:induction false} StaleDisplaced(prev: seq<Cluster>, keep: set<string>, cs: seq<Cluster>, moved: set<string>)
    requires forall e | e in Entries(cs) && Displaced(KeepAll(prev, keep), e) :: e.id in moved
    ensures forall e | e in Entries(cs) && Displaced(prev, e) :: e.id in moved
  {
    hide Entries;
    KeepAllEntries(prev, keep);
  }

  // ---------------------------------------------------------------- the full build

  // round(sqrt(n)), at least 1.
  function ChooseK(n: nat): (k: nat)
    ensures k >= 1
    ensures n > 0 ==> (2 * k - 1) * (2 * k - 1) <= 4 * n < (2 * k + 1) * (2 * k + 1)
  {
    if n == 0 then 1 else RoundRoot(n, 1)
  }

  function RoundRoot(n: nat, k: nat): (r: nat)
    requires k >= 1 && (2 * k - 1) * (2 * k - 1) <= 4 * n
    ensures r >= 1 && (2 * r - 1) * (2 * r - 1) <= 4 * n < (2 * r + 1) * (2 * r + 1)
    decreases 4 * n - k
  {
    if 4 * n < (2 * k + 1) * (2 * k + 1) then k else RoundRoot(n, k + 1)
  }

  method FullCluster(d: Dist, ids: seq<string>, live: Live)
    returns (centroids: seq<Vector>, memberIDs: seq<seq<string>>, ghost assignment: seq<nat>)
    requires NonNegative(d)
    requires NoDup(ids) && forall id | id in ids :: id in live && live[id].vector.Some?
    ensures FromScratch(d, ids, live, centroids, memberIDs, assignment) && Covers(memberIDs, ids)
  {
    hide IsKMeans, Bucket, Count, Covers;
    var points: seq<Vector> := [];
    var i := 0;
    while i < |ids|
      invariant i <= |ids| && |points| == i
      invariant forall j | 0 <= j < i :: points[j] == live[ids[j]].vector.value
    {
      points := points + [live[ids[i]].vector.value];
      i := i + 1;
    }
    var assign;
    assert points == LiveVectors(ids, live);
    centroids, assign := KMeans.KMeans(d, points, ChooseK(|points|), KMEANS_ITERS, 0);
    assignment := assign;
    memberIDs := [];
    var c := 0;
    while c < |centroids|
      invariant c <= |centroids| && |memberIDs| == c
      invariant forall j | 0 <= j < c :: memberIDs[j] == Bucket(ids, assign, j)
    {
      var bucket := BucketOf(ids, assign, c);
      memberIDs := memberIDs + [bucket];
      c := c + 1;
    }
    BucketsCover(ids, assign, memberIDs);
  }

  method BucketOf(ids: seq<string>, assign: seq<nat>, c: nat) returns (bucket: seq<string>)
    requires |ids| == |assign|
    ensures bucket == Bucket(ids, assign, c)
  {
    bucket := [];
    var i := 0;
    while i < |ids|
      invariant i <= |ids| && bucket == Bucket(ids[..i], assign[..i], c)
    {
      assert ids[..i + 1][..i] == ids[..i] && assign[..i + 1][..i] == assign[..i];
      if assign[i] == c { bucket := bucket + [ids[i]]; }
      i := i + 1;
    }
    assert ids[..|ids|] == ids && assign[..|ids|] == assign;
  }

  // A bucket holds the ids assigned to it, each once.
  lemma {:induction false} BucketHolds(ids: seq<string>, assign: seq<nat>, c: nat)
    requires |ids| == |assign| && NoDup(ids)
    ensures var b := Bucket(ids, assign, c);
            NoDup(b) && forall x :: x in b <==> exists i :: 0 <= i < |ids| && ids[i] == x && assign[i] == c
    decreases |ids|
  {
    if ids != [] {
      var n := |ids| - 1;
      BucketHolds(ids[..n], assign[..n], c);
      var b := Bucket(ids, assign, c);
      var p := Bucket(ids[..n], assign[..n], c);
      forall x ensures x in b <==> exists i :: 0 <= i < |ids| && ids[i] == x && assign[i] == c {
        if x in p {
          var i :| 0 <= i < n && ids[..n][i] == x && assign[..n][i] == c;
          assert ids[i] == x;
        }
        if i :| 0 <= i < |ids| && ids[i] == x && assign[i] == c {
          if i < n { assert ids[..n][i] == x && assign[..n][i] == c; }
        }
      }
      assert ids[n] !in p;
    }
  }

  lemma {:induction false} BucketsCover(ids: seq<string>, assign: seq<nat>, memberIDs: seq<seq<string>>)
    requires |ids| == |assign| && NoDup(ids)
    requires forall i | 0 <= i < |assign| :: assign[i] < |memberIDs|
    requires forall c | 0 <= c < |memberIDs| :: Count(assign, c) > 0 && memberIDs[c] == Bucket(ids, assign, c)
    ensures Covers(memberIDs, ids)
  {
    hide Bucket, Count;
    forall c | 0 <= c < |memberIDs| ensures memberIDs[c] != [] && NoDup(memberIDs[c]) {
      BucketSize(ids, assign, c);
      BucketHolds(ids, assign, c);
    }
    forall c, k | 0 <= c < |memberIDs| && 0 <= k < |memberIDs[c]|
      ensures exists i :: 0 <= i < |ids| && ids[i] == memberIDs[c][k] && assign[i] == c
    {
      BucketHolds(ids, assign, c);
      assert memberIDs[c][k] in memberIDs[c];
    }
    forall id | id in ids ensures Listed(memberIDs, id) {
      var i :| 0 <= i < |ids| && ids[i] == id;
      BucketHolds(ids, assign, assign[i]);
      assert id in memberIDs[assign[i]];
    }
    forall c, k, c', k' | 0 <= c < |memberIDs| && 0 <= k < |memberIDs[c]| && 0 <= c' < |memberIDs| && 0 <= k' < |memberIDs[c']|
          && memberIDs[c][k] == memberIDs[c'][k']
      ensures c == c' && k == k'
    {
      var i :| 0 <= i < |ids| && ids[i] == memberIDs[c][k] && assign[i] == c;
      var j :| 0 <= j < |ids| && ids[j] == memberIDs[c'][k'] && assign[j] == c';
      assert i == j;
    }
  }

  // ---------------------------------------------------------------- the build

  // The strategy used, with its intermediate results.
  datatype How = Incremental(st: Stages, forced: set<string>, end: seq<Cluster>) | Full(assign: seq<nat>)

  // The clustering a build publishes: the previous epoch carried forward if it holds any cluster,
  // k-means from scratch otherwise.
  ghost predicate ClusteredAs(d: Dist, prev: Option<seq<Clustered>>, ids: seq<string>, live: Live,
      centroids: seq<Vector>, memberIDs: seq<seq<string>>, versions: map<string, nat>, how: How)
    requires forall id | id in ids :: id in live && live[id].vector.Some?
  {
    && Covers(memberIDs, ids) && |centroids| == |memberIDs|
    && if prev.Some? && prev.value != [] then
         how.Incremental? && CarriedForward(d, prev.value, ids, live, centroids, memberIDs, versions, how.st, how.forced, how.end)
       else how.Full? && FromScratch(d, ids, live, centroids, memberIDs, how.assign) && versions == map[]
  }

  // Either strategy covers exactly the vector-bearing live ids. `prev` is the previous epoch, if
  // there is one and it could be read.
  method ClusterLive(d: Dist, prev: Option<seq<Clustered>>, ids: seq<string>, live: Live)
    returns (centroids: seq<Vector>, memberIDs: seq<seq<string>>, versions: map<string, nat>, ghost how: How)
    requires NonNegative(d) && (prev.Some? ==> UniqueMembers(prev.value))
    requires NoDup(ids) && ids != [] && forall id | id in ids :: id in live && live[id].vector.Some?
    ensures Covers(memberIDs, ids) && |centroids| == |memberIDs|
    ensures ClusteredAs(d, prev, ids, live, centroids, memberIDs, versions, how)
  {
    hide CarriedForward, FromScratch, Covers;
    if prev.Some? && prev.value != [] {
      var ok;
      ghost var st, forced, end;
      centroids, memberIDs, versions, ok, st, forced, end := IncrementalCluster(d, prev.value, ids, live);
      how := Incremental(st, forced, end);
      if ok { return; }
    }
    ghost var assign;
    centroids, memberIDs, assign := FullCluster(d, ids, live);
    ScratchShape(d, ids, live, centroids, memberIDs, assign);
    how := Full(assign);
    versions := map[];
  }

  lemma {:induction false} ScratchShape(d: Dist, ids: seq<string>, live: Live, centroids: seq<Vector>, memberIDs: seq<seq<string>>, assign: seq<nat>)
    requires forall id | id in ids :: id in live && live[id].vector.Some?
    requires FromScratch(d, ids, live, centroids, memberIDs, assign)
    ensures |centroids| == |memberIDs|
  {
  }

  ghost predicate VectorIds(ids: seq<string>, live: Live) {
    Sorted(StrLess, ids) && NoDup(ids) && forall id :: id in ids <==> id in live && live[id].vector.Some?
  }

  // The vector-bearing ids in name order.
  method GatherIds(live: Live) returns (ids: seq<string>)
    ensures VectorIds(ids, live)
  {
    ids := [];
    var todo := live.Keys;
    while todo != {}
      invariant todo <= live.Keys
      invariant NoDup(ids) && forall id :: id in ids <==> id in live && id !in todo && live[id].vector.Some?
    {
      var id :| id in todo;
      if live[id].vector.Some? { ids := ids + [id]; }
      todo := todo - {id};
    }
    ghost var raw := ids;
    ids := Sort(StrLess, ids);
    NamesSorted(raw);
    StillDistinct(raw, ids);
    forall id ensures id in ids <==> id in raw { SameItems(raw, ids, id); }
  }

  // Writes out the clusters one by one, and where each id went.
  method PublishAll(ghost ids: seq<string>, centroids: seq<Vector>, memberIDs: seq<seq<string>>, versions: map<string, nat>, live: Live)
    returns (epoch: seq<Clustered>, clusterOf: map<string, nat>)
    requires Covers(memberIDs, ids) && |centroids| == |memberIDs|
    requires forall id | id in ids :: id in live && live[id].vector.Some?
    ensures |epoch| == |centroids| && Located(memberIDs, |memberIDs|, clusterOf)
    ensures forall c | 0 <= c < |epoch| :: Published(epoch[c], centroids[c], memberIDs[c], live, versions)
  {
    hide Published, Listed;
    epoch, clusterOf := [], map[];
    var c := 0;
    while c < |centroids|
      invariant c <= |centroids| && |epoch| == c
      invariant forall j | 0 <= j < c :: Published(epoch[j], centroids[j], memberIDs[j], live, versions)
      invariant Located(memberIDs, c, clusterOf)
    {
      assert forall k | 0 <= k < |memberIDs[c]| :: memberIDs[c][k] in ids;
      var members, more := PublishCluster(c, memberIDs[c], live, versions, clusterOf);
      LocatedStep(memberIDs, c, ids, clusterOf, more);
      PublishedOne(centroids[c], members, memberIDs[c], live, versions);
      epoch, clusterOf := epoch + [Clustered(centroids[c], members)], more;
      c := c + 1;
    }
  }

  // Clusters the live vectors and publishes them: every live vector in exactly one cluster, with its
  // newest vector and attributes. Without vectors there is no vector index. clusterOf is the map
  // the attribute index prunes by.
  method BuildVectorIndex(d: Dist, prev: Option<seq<Clustered>>, live: Live)
    returns (epoch: seq<Clustered>, clusterOf: map<string, nat>)
    requires NonNegative(d) && (prev.Some? ==> UniqueMembers(prev.value))
    ensures EpochOk(epoch, live) && UniqueMembers(epoch)
    ensures ClusterOfOk(epoch, clusterOf)
    ensures if (forall id | id in live :: live[id].vector.None?) then epoch == [] else PublishedFrom(d, prev, live, epoch)
  {
    hide EpochOk, ClusteredAs, PublishedFrom, Published, CarriedForward, FromScratch, Covers, Located;
    epoch, clusterOf := [], map[];
    var ids := GatherIds(live);
    if |ids| == 0 {
      NoVectors(live, ids);
      return;
    }
    assert ids[0] in ids;
    var centroids, memberIDs, versions;
    ghost var how;
    centroids, memberIDs, versions, how := ClusterLive(d, prev, ids, live);
    epoch, clusterOf := PublishAll(ids, centroids, memberIDs, versions, live);
    PublishedLocated(epoch, centroids, memberIDs, clusterOf, live, versions);
    PublishedOk(epoch, centroids, memberIDs, ids, live, versions);
    assert PublishedFrom(d, prev, live, epoch) by {
      PublishedDone(d, prev, ids, live, centroids, memberIDs, versions, how, epoch);
    }
  }

  // The published epoch is one such clustering, cluster by cluster.
  ghost predicate PublishedFrom(d: Dist, prev: Option<seq<Clustered>>, live: Live, epoch: seq<Clustered>) {
    exists ids, centroids, memberIDs, versions, how :: PublishedAs(d, prev, live, epoch, ids, centroids, memberIDs, versions, how)
  }

  ghost predicate PublishedAs(d: Dist, prev: Option<seq<Clustered>>, live: Live, epoch: seq<Clustered>,
      ids: seq<string>, centroids: seq<Vector>, memberIDs: seq<seq<string>>, versions: map<string, nat>, how: How) {
    && VectorIds(ids, live) && ClusteredAs(d, prev, ids, live, centroids, memberIDs, versions, how)
    && |epoch| == |centroids| == |memberIDs|
    && forall c | 0 <= c < |epoch| :: Published(epoch[c], centroids[c], memberIDs[c], live, versions)
  }

  lemma {:induction false} PublishedDone(d: Dist, prev: Option<seq<Clustered>>, ids: seq<string>, live: Live,
      centroids: seq<Vector>, memberIDs: seq<seq<string>>, versions: map<string, nat>, how: How, epoch: seq<Clustered>)
    requires PublishedAs(d, prev, live, epoch, ids, centroids, memberIDs, versions, how)
    ensures PublishedFrom(d, prev, live, epoch)
  {
    hide PublishedAs;
  }

  lemma {:induction false} PublishedOne(centroid: Vector, members: seq<Entry>, ids: seq<string>, live: Live, versions: map<string, nat>)
    requires |members| == |ids| && forall k | 0 <= k < |ids| :: members[k].id == ids[k] && FreshCopy(members[k], live)
    requires forall k | 0 <= k < |ids| :: members[k].version == if ids[k] in versions then versions[ids[k]] else 0
    ensures Published(Clustered(centroid, members), centroid, ids, live, versions)
  {
  }

  method PublishCluster(c: nat, ids: seq<string>, live: Live, versions: map<string, nat>, clusterOf: map<string, nat>)
    returns (members: seq<Entry>, more: map<string, nat>)
    requires forall k | 0 <= k < |ids| :: ids[k] in live && live[ids[k]].vector.Some?
    ensures |members| == |ids| && forall k | 0 <= k < |ids| :: members[k].id == ids[k] && FreshCopy(members[k], live)
    ensures forall k | 0 <= k < |ids| :: members[k].version == if ids[k] in versions then versions[ids[k]] else 0
    ensures forall id :: id in more <==> id in clusterOf || id in ids
    ensures forall id | id in more :: more[id] == if id in ids then c else clusterOf[id]
  {
    members, more := [], clusterOf;
    var k := 0;
    while k < |ids|
      invariant k <= |ids| && |members| == k
      invariant forall i | 0 <= i < k :: members[i].id == ids[i] && FreshCopy(members[i], live)
      invariant forall i | 0 <= i < k :: members[i].version == if ids[i] in versions then versions[ids[i]] else 0
      invariant forall id :: id in more <==> id in clusterOf || id in ids[..k]
      invariant forall id | id in more :: more[id] == if id in ids[..k] then c else clusterOf[id]
    {
      var id := ids[k];
      assert ids[..k + 1] == ids[..k] + [id];
      members := members + [Entry(id, live[id].vector.value, live[id].attrs, if id in versions then versions[id] else 0)];
      more := more[id := c];
      k := k + 1;
    }
    assert ids[..|ids|] == ids;
  }

  // clusterOf locates exactly the ids of the first n clusters.
  ghost predicate Located(memberIDs: seq<seq<string>>, n: nat, clusterOf: map<string, nat>)
    requires n <= |memberIDs|
  {
    && (forall id | id in clusterOf :: clusterOf[id] < n && id in memberIDs[clusterOf[id]])
    && (forall j, id | 0 <= j < n && id in memberIDs[j] :: id in clusterOf && clusterOf[id] == j)
  }

  lemma {:induction false} LocatedStep(memberIDs: seq<seq<string>>, c: nat, ids: seq<string>, clusterOf: map<string, nat>, more: map<string, nat>)
    requires Covers(memberIDs, ids) && c < |memberIDs| && Located(memberIDs, c, clusterOf)
    requires forall id :: id in more <==> id in clusterOf || id in memberIDs[c]
    requires forall id | id in more :: more[id] == if id in memberIDs[c] then c else clusterOf[id]
    ensures Located(memberIDs, c + 1, more)
  {
    hide Listed;
    forall j, id | 0 <= j < c && id in memberIDs[j] ensures id !in memberIDs[c] {}
  }

  lemma {:induction false} PublishedLocated(epoch: seq<Clustered>, centroids: seq<Vector>, memberIDs: seq<seq<string>>, clusterOf: map<string, nat>, live: Live, versions: map<string, nat>)
    requires |epoch| == |memberIDs| == |centroids| && Located(memberIDs, |memberIDs|, clusterOf)
    requires forall c | 0 <= c < |epoch| :: Published(epoch[c], centroids[c], memberIDs[c], live, versions)
    ensures ClusterOfOk(epoch, clusterOf)
  {
    forall c, e | 0 <= c < |epoch| && e in epoch[c].members ensures e.id in clusterOf && clusterOf[e.id] == c {
      var k :| 0 <= k < |epoch[c].members| && epoch[c].members[k] == e;
      assert memberIDs[c][k] in memberIDs[c];
    }
    forall id | id in clusterOf
      ensures clusterOf[id] < |epoch| && exists e :: e in epoch[clusterOf[id]].members && e.id == id
    {
      var c := clusterOf[id];
      var k :| 0 <= k < |memberIDs[c]| && memberIDs[c][k] == id;
      assert epoch[c].members[k] in epoch[c].members;
    }
  }

  // Cluster c lists its ids in order, each with its live vector and attributes and its version.
  ghost predicate Published(c: Clustered, centroid: Vector, ids: seq<string>, live: Live, versions: map<string, nat>) {
    && c.centroid == centroid && |c.members| == |ids|
    && (forall k | 0 <= k < |ids| :: c.members[k].id == ids[k] && FreshCopy(c.members[k], live))
    && (forall k | 0 <= k < |ids| :: c.members[k].version == if ids[k] in versions then versions[ids[k]] else 0)
  }

  ghost predicate ClusterOfOk(epoch: seq<Clustered>, clusterOf: map<string, nat>) {
    && (forall c, e | 0 <= c < |epoch| && e in epoch[c].members :: e.id in clusterOf && clusterOf[e.id] == c)
    && (forall id | id in clusterOf :: clusterOf[id] < |epoch| && exists e :: e in epoch[clusterOf[id]].members && e.id == id)
  }

  lemma {:induction false} NoVectors(live: Live, ids: seq<string>)
    requires VectorIds(ids, live) && ids == []
    ensures EpochOk([], live) && forall id | id in live :: live[id].vector.None?
  {
    forall id | id in live ensures live[id].vector.None? { assert id !in ids; }
  }

  lemma {:induction false} PublishedOk(epoch: seq<Clustered>, centroids: seq<Vector>, memberIDs: seq<seq<string>>, ids: seq<string>, live: Live, versions: map<string, nat>)
    requires Covers(memberIDs, ids) && VectorIds(ids, live) && |epoch| == |memberIDs| == |centroids|
    requires forall c | 0 <= c < |epoch| :: Published(epoch[c], centroids[c], memberIDs[c], live, versions)
    ensures EpochOk(epoch, live) && UniqueMembers(epoch)
  {
    forall c | 0 <= c < |epoch| ensures epoch[c].members != [] {
      assert memberIDs[c] != [];
    }
    forall id | id in live && live[id].vector.Some? ensures exists c, k :: LiesAt(epoch, c, k, id) {
      assert id in ids;
      assert Listed(memberIDs, id);
      var c :| 0 <= c < |memberIDs| && id in memberIDs[c];
      var k :| 0 <= k < |memberIDs[c]| && memberIDs[c][k] == id;
      assert LiesAt(epoch, c, k, id);
    }
    forall c, k, c', k' | 0 <= c < |epoch| && 0 <= k < |epoch[c].members| && 0 <= c' < |epoch| && 0 <= k' < |epoch[c'].members|
      && epoch[c].members[k].id == epoch[c'].members[k'].id
      ensures c == c' && k == k'
    {
      assert memberIDs[c][k] == memberIDs[c'][k'];
    }
  }
}
