// Reassign as a relation between working sets: which members are re-checked, and where each one goes.

module Reassignment {
  import opened Types
  import opened KMeans
  import opened Postings
  import opened Sorting

  datatype Candidate = Candidate(from: nat, id: string)

  ghost predicate Holds(cs: seq<Cluster>, i: nat, e: Entry) {
    i < |cs| && e in cs[i].members
  }

  ghost predicate SameShape(a: seq<Cluster>, b: seq<Cluster>) {
    |a| == |b| && forall i | 0 <= i < |a| :: a[i].id == b[i].id && a[i].centroid == b[i].centroid
  }

  lemma {:induction false} SameId(cs: seq<Cluster>, i: nat, e: Entry, j: nat, f: Entry)
    requires Unique(Entries(cs)) && Holds(cs, i, e) && Holds(cs, j, f) && e.id == f.id
    ensures i == j && e == f
  {
    var k :| 0 <= k < |cs[i].members| && cs[i].members[k] == e;
    var l :| 0 <= l < |cs[j].members| && cs[j].members[l] == f;
    OnePlace(cs, i, j, k, l);
  }

  // ---------------------------------------------------------------- who is re-checked

  // The postings other than `exclude`, by distance from center.
  function Others(d: Dist, cs: seq<Cluster>, center: Vector, exclude: nat): seq<Ranked>
    decreases |cs|
  {
    if cs == [] then [] else
    var n := |cs| - 1;
    Others(d, cs[..n], center, exclude) + (if cs[n].id == exclude then [] else [Ranked(cs[n].id, d(center, cs[n].centroid))])
  }

  // The topN nearest postings to center, nearest first.
  function Nearby(d: Dist, cs: seq<Cluster>, center: Vector, exclude: nat, topN: nat): seq<nat> {
    Keys(Take(Sort(Nearer, Others(d, cs, center, exclude)), topN))
  }

  // Members of a changed posting that no longer sit strictly nearer than under its old centroid (Eq. 1).
  ghost function Eq1(d: Dist, cs: seq<Cluster>, olds: map<nat, Vector>, id: nat): set<string> {
    var i := IndexOf(cs, id);
    if i == |cs| then {} else
    set e | e in cs[i].members && !(id in olds && d(e.vector, cs[i].centroid) < d(e.vector, olds[id])) :: e.id
  }

  // Members of one posting that a changed centroid got at least as near to as their own (Eq. 2).
  ghost function Pulled(d: Dist, cs: seq<Cluster>, anew: Vector, b: nat): set<string> {
    var i := IndexOf(cs, b);
    if i == |cs| then {} else set e | e in cs[i].members && d(e.vector, anew) <= d(e.vector, cs[i].centroid) :: e.id
  }

  ghost function PulledFrom(d: Dist, cs: seq<Cluster>, anew: Vector, bs: seq<nat>): set<string> {
    set b, x | b in bs && x in Pulled(d, cs, anew, b) :: x
  }

  ghost function Eq2(d: Dist, cs: seq<Cluster>, topN: nat, id: nat): set<string> {
    var i := IndexOf(cs, id);
    if i == |cs| then {} else PulledFrom(d, cs, cs[i].centroid, Nearby(d, cs, cs[i].centroid, id, topN))
  }

  ghost function Forced(cs: seq<Cluster>, n: nat, force: set<string>): set<string>
    requires n <= |cs|
  {
    set i, e | 0 <= i < n && e in cs[i].members && e.id in force :: e.id
  }

  ghost function Eq1All(d: Dist, cs: seq<Cluster>, olds: map<nat, Vector>, ids: set<nat>): set<string> {
    set id, x | id in ids && x in Eq1(d, cs, olds, id) :: x
  }

  ghost function Eq2All(d: Dist, cs: seq<Cluster>, topN: nat, ids: set<nat>): set<string> {
    set id, x | id in ids && x in Eq2(d, cs, topN, id) :: x
  }

  // The members that get the exact re-check: a function of the working set, not of any order of visits.
  ghost function Candidates(d: Dist, cs: seq<Cluster>, olds: map<nat, Vector>, changed: set<nat>, force: set<string>, topN: nat): set<string> {
    Forced(cs, |cs|, force) + Eq1All(d, cs, olds, changed) + Eq2All(d, cs, topN, changed)
  }

  // A gathered list names each id it has seen once, with the posting that holds it.
  ghost predicate Gathered(cs: seq<Cluster>, list: seq<Candidate>, seen: set<string>) {
    && (forall k | 0 <= k < |list| :: Sits(cs, list[k]))
    && (forall k, l | 0 <= k < l < |list| :: list[k].id != list[l].id)
    && seen == set k | 0 <= k < |list| :: list[k].id
  }

  ghost predicate Sits(cs: seq<Cluster>, c: Candidate) {
    var i := IndexOf(cs, c.from);
    i < |cs| && exists e :: e in cs[i].members && e.id == c.id
  }

  lemma {:induction false} GatherOne(cs: seq<Cluster>, list: seq<Candidate>, seen: set<string>, c: Candidate)
    requires Gathered(cs, list, seen) && c.id !in seen && Sits(cs, c)
    ensures Gathered(cs, list + [c], seen + {c.id})
  {
    var more := list + [c];
    assert forall k | 0 <= k < |list| :: more[k] == list[k] && list[k].id in seen;
    assert more[|list|] == c;
    forall x | x in seen + {c.id} ensures x in set k | 0 <= k < |more| :: more[k].id {
      if x in seen {
        var k :| 0 <= k < |list| && list[k].id == x;
        assert more[k].id == x;
      } else {
        assert more[|list|].id == x;
      }
    }
  }

  // ---------------------------------------------------------------- where each member goes

  // Where member e of posting i ends when the ids in C are re-checked: at its nearest posting.
  ghost function Home(d: Dist, cs: seq<Cluster>, C: set<string>, i: nat, e: Entry): nat {
    var r := Nearest(d, cs, e.vector, {});
    if e.id in C && r.Some? then r.value else i
  }

  // What becomes of it: its version rises by one when it changes posting.
  ghost function Rehomed(d: Dist, cs: seq<Cluster>, C: set<string>, i: nat, e: Entry): Entry {
    if Home(d, cs, C, i, e) == i then e else e.(version := e.version + 1)
  }

  // Every member of `before` sits exactly once in `after`, at its home; nothing else does.
  ghost predicate Reassigned(d: Dist, before: seq<Cluster>, C: set<string>, after: seq<Cluster>) {
    && SameShape(before, after)
    && Unique(Entries(after))
    && (forall i, e | Holds(before, i, e) :: Holds(after, Home(d, before, C, i, e), Rehomed(d, before, C, i, e)))
    && (forall j, f | Holds(after, j, f) :: Stems(before, f.id))
  }

  ghost predicate Stems(cs: seq<Cluster>, id: string) {
    exists i, e :: Holds(cs, i, e) && e.id == id
  }

  lemma {:induction false} Stem(cs: seq<Cluster>, id: string) returns (i: nat, e: Entry)
    requires Stems(cs, id)
    ensures Holds(cs, i, e) && e.id == id
  {
    i, e :| Holds(cs, i, e) && e.id == id;
  }

  lemma {:induction false} ReassignedNone(d: Dist, cs: seq<Cluster>)
    requires Unique(Entries(cs))
    ensures Reassigned(d, cs, {}, cs)
  {
  }

  // Every member of the result is the rehomed image of one member.
  lemma {:induction false} Origin(d: Dist, before: seq<Cluster>, C: set<string>, after: seq<Cluster>, j: nat, f: Entry) returns (i: nat, e: Entry)
    requires Reassigned(d, before, C, after) && Holds(after, j, f)
    ensures Holds(before, i, e) && e.id == f.id && j == Home(d, before, C, i, e) && f == Rehomed(d, before, C, i, e)
  {
    hide Entries, Unique, Nearest, Home, Stems;
    i, e := Stem(before, f.id);
    SameId(after, j, f, Home(d, before, C, i, e), Rehomed(d, before, C, i, e));
  }

  lemma {:induction false} OnceEach(cs: seq<Cluster>, i: nat, e: Entry)
    requires Unique(Entries(cs)) && Holds(cs, i, e)
    ensures multiset(cs[i].members)[e] == 1
  {
    hide Entries;
    EntryHeld(cs, i, e);
    EntriesWithout(cs, i);
  }

  // Member e of posting i ends at one place: where it is if it is not re-checked, and otherwise at the
  // posting nearest to it, with its version raised if that is another.
  lemma {:induction false} EndsNearest(d: Dist, before: seq<Cluster>, C: set<string>, after: seq<Cluster>, i: nat, e: Entry) returns (j: nat, f: Entry)
    requires Reassigned(d, before, C, after) && DistinctIds(before) && Holds(before, i, e)
    ensures Holds(after, j, f) && f.id == e.id && f.vector == e.vector && f.attrs == e.attrs
    ensures forall j', f' | Holds(after, j', f') && f'.id == e.id :: j' == j && f' == f
    ensures f.version == if j == i then e.version else e.version + 1
    ensures j < |before| && if e.id !in C then j == i else forall k | 0 <= k < |before| && k != j ::
              d(e.vector, before[j].centroid) < d(e.vector, before[k].centroid)
              || (d(e.vector, before[j].centroid) == d(e.vector, before[k].centroid) && before[j].id < before[k].id)
  {
    hide Entries, Unique, Nearest, Stems;
    j, f := Home(d, before, C, i, e), Rehomed(d, before, C, i, e);
    forall j', f' | Holds(after, j', f') && f'.id == e.id ensures j' == j && f' == f { SameId(after, j', f', j, f); }
    if e.id in C {
      NearestSome(d, before, e.vector);
      NearestIsHome(d, before, e.vector);
    }
  }

  lemma {:induction false} NearestIsHome(d: Dist, cs: seq<Cluster>, v: Vector)
    requires DistinctIds(cs) && Nearest(d, cs, v, {}).Some?
    ensures var j := Nearest(d, cs, v, {}).value;
            j < |cs| && forall k | 0 <= k < |cs| && k != j ::
              d(v, cs[j].centroid) < d(v, cs[k].centroid) || (d(v, cs[j].centroid) == d(v, cs[k].centroid) && cs[j].id < cs[k].id)
  {
    NearestIsLeast(d, cs, v, {}, |cs|);
  }

  // The resulting partition is determined: any two runs that re-check the same ids put the same
  // entries in the same postings, whatever order they visit them in.
  lemma {:induction false} PartitionIsDetermined(d: Dist, before: seq<Cluster>, C: set<string>, a: seq<Cluster>, b: seq<Cluster>)
    requires Reassigned(d, before, C, a) && Reassigned(d, before, C, b)
    ensures |a| == |b| && forall j | 0 <= j < |a| :: multiset(a[j].members) == multiset(b[j].members)
  {
    hide Entries, Unique, Nearest, Home, Rehomed;
    forall j | 0 <= j < |a| ensures multiset(a[j].members) == multiset(b[j].members) {
      forall f ensures multiset(a[j].members)[f] == multiset(b[j].members)[f] {
        if f in a[j].members {
          var i, e := Origin(d, before, C, a, j, f);
          OnceEach(a, j, f);
          OnceEach(b, j, f);
        } else if f in b[j].members {
          var i, e := Origin(d, before, C, b, j, f);
        }
      }
    }
  }

  // ---------------------------------------------------------------- one move

  lemma {:induction false} UniqueSwap(es: multiset<Entry>, e: Entry, f: Entry)
    requires Unique(es) && e in es && e.id == f.id
    ensures Unique(es - multiset{e} + multiset{f})
  {
    var r := es - multiset{e} + multiset{f};
    forall x | x in r ensures r[x] == 1 && (x == f || (x in es && x.id != f.id)) {
      if x != f { assert x in es && x != e; }
    }
  }

  // cs with member k of posting i moved to the end of posting t as f.
  function Relocated(cs: seq<Cluster>, i: nat, k: nat, t: nat, f: Entry): seq<Cluster>
    requires i < |cs| && t < |cs| && i != t && k < |cs[i].members|
  {
    cs[t := cs[t].(members := cs[t].members + [f])][i := cs[i].(members := cs[i].members[..k] + cs[i].members[k + 1..])]
  }

  lemma {:induction false} MovedOver(a: multiset<Entry>, c: multiset<Entry>, m: Entry, f: Entry)
    requires a + multiset{m} == c + multiset{f} && m in c
    ensures a == c - multiset{m} + multiset{f}
  {
    forall x ensures a[x] == (c - multiset{m} + multiset{f})[x] {
      assert (a + multiset{m})[x] == (c + multiset{f})[x];
    }
  }

  lemma {:induction false} RelocatedEntries(cs: seq<Cluster>, i: nat, k: nat, t: nat, f: Entry)
    requires i < |cs| && t < |cs| && i != t && k < |cs[i].members|
    ensures Entries(Relocated(cs, i, k, t, f)) == Entries(cs) - multiset{cs[i].members[k]} + multiset{f}
  {
    hide Entries;
    var mid := cs[t := cs[t].(members := cs[t].members + [f])];
    EntriesGain(cs, t, f);
    var ms := cs[i].members;
    assert ms == ms[..k] + [ms[k]] + ms[k + 1..];
    EntriesUpdate(mid, i, cs[i].(members := ms[..k] + ms[k + 1..]));
    assert multiset(ms) == multiset(ms[..k] + ms[k + 1..]) + multiset{ms[k]};
    EntryHeld(cs, i, ms[k]);
    var rest := Entries(mid[..i] + mid[i + 1..]);
    var after := Relocated(cs, i, k, t, f);
    assert mid[i].members == ms && Entries(cs) + multiset{f} == rest + multiset(ms);
    assert Entries(after) == rest + multiset(ms[..k] + ms[k + 1..]);
    MovedOver(Entries(after), Entries(cs), ms[k], f);
  }

  lemma {:induction false} RelocatedHolds(cs: seq<Cluster>, i: nat, k: nat, t: nat, f: Entry, j: nat, g: Entry)
    requires Unique(Entries(cs)) && i < |cs| && t < |cs| && i != t && k < |cs[i].members|
    ensures Holds(Relocated(cs, i, k, t, f), j, g) <==> (j == t && g == f) || (Holds(cs, j, g) && g != cs[i].members[k])
  {
    hide Entries, Unique;
    var after := Relocated(cs, i, k, t, f);
    var ms := cs[i].members;
    assert ms == ms[..k] + [ms[k]] + ms[k + 1..];
    OnceEach(cs, i, ms[k]);
    assert multiset(ms) == multiset(ms[..k]) + multiset{ms[k]} + multiset(ms[k + 1..]);
    assert ms[k] !in multiset(ms[..k]) && ms[k] !in multiset(ms[k + 1..]);
    assert ms[k] !in ms[..k] + ms[k + 1..];
    if Holds(cs, j, g) && g == ms[k] { SameId(cs, j, g, i, ms[k]); }
    if j == i { assert forall x :: x in ms <==> x == ms[k] || x in ms[..k] + ms[k + 1..]; }
  }

  // A member not re-checked yet is still where it was.
  lemma {:induction false} NotYet(d: Dist, before: seq<Cluster>, done: set<string>, cur: seq<Cluster>, i: nat, e: Entry)
    requires Reassigned(d, before, done, cur) && Holds(before, i, e) && e.id !in done
    ensures Holds(cur, i, e)
  {
    hide Unique, Entries, Nearest, Stems;
  }

  // Re-checking a member that is already home changes nothing.
  lemma {:induction false} StepStays(d: Dist, before: seq<Cluster>, done: set<string>, cur: seq<Cluster>, i: nat, e: Entry)
    requires Unique(Entries(before)) && Reassigned(d, before, done, cur) && Holds(before, i, e) && e.id !in done
    requires Nearest(d, before, e.vector, {}) == Some(i)
    ensures Reassigned(d, before, done + {e.id}, cur)
  {
    hide Unique, Entries, Nearest, Stems;
    forall j, g | Holds(before, j, g)
      ensures Holds(cur, Home(d, before, done + {e.id}, j, g), Rehomed(d, before, done + {e.id}, j, g))
    {
      if g.id == e.id { SameId(before, i, e, j, g); }
    }
  }

  // Re-checking a member that is not home moves it, and only it.
  lemma {:induction false} StepMoves(d: Dist, before: seq<Cluster>, done: set<string>, cur: seq<Cluster>, i: nat, e: Entry, k: nat, t: nat)
    requires Unique(Entries(before)) && Reassigned(d, before, done, cur) && Holds(before, i, e) && e.id !in done
    requires Nearest(d, before, e.vector, {}) == Some(t) && t != i && t < |before|
    requires i < |cur| && k < |cur[i].members| && cur[i].members[k] == e
    ensures var f := e.(version := e.version + 1); t < |cur| && Reassigned(d, before, done + {e.id}, Relocated(cur, i, k, t, f))
  {
    hide Unique, Entries, Nearest, Stems, Relocated, Home, Rehomed;
    var f := e.(version := e.version + 1);
    RelocatedEntries(cur, i, k, t, f);
    EntryHeld(cur, i, e);
    UniqueSwap(Entries(cur), e, f);
    MovedEach(d, before, done, cur, i, e, k, t);
    MovedStems(d, before, done, cur, i, e, k, t);
  }

  lemma {:induction false} MovedEach(d: Dist, before: seq<Cluster>, done: set<string>, cur: seq<Cluster>, i: nat, e: Entry, k: nat, t: nat)
    requires Unique(Entries(before)) && Reassigned(d, before, done, cur) && Holds(before, i, e) && e.id !in done
    requires Nearest(d, before, e.vector, {}) == Some(t) && t != i && t < |before|
    requires i < |cur| && k < |cur[i].members| && cur[i].members[k] == e
    ensures var after := Relocated(cur, i, k, t, e.(version := e.version + 1));
            forall j, g | Holds(before, j, g) ::
              Holds(after, Home(d, before, done + {e.id}, j, g), Rehomed(d, before, done + {e.id}, j, g))
  {
    hide Unique, Entries, Nearest, Stems, Relocated;
    var f := e.(version := e.version + 1);
    forall j, g | Holds(before, j, g)
      ensures Holds(Relocated(cur, i, k, t, f), Home(d, before, done + {e.id}, j, g), Rehomed(d, before, done + {e.id}, j, g))
    {
      RelocatedHolds(cur, i, k, t, f, Home(d, before, done + {e.id}, j, g), Rehomed(d, before, done + {e.id}, j, g));
      if g.id == e.id { SameId(before, i, e, j, g); }
    }
  }

  lemma {:induction false} MovedStems(d: Dist, before: seq<Cluster>, done: set<string>, cur: seq<Cluster>, i: nat, e: Entry, k: nat, t: nat)
    requires Reassigned(d, before, done, cur) && Holds(before, i, e)
    requires t != i && t < |before|
    requires i < |cur| && k < |cur[i].members| && cur[i].members[k] == e
    ensures var after := Relocated(cur, i, k, t, e.(version := e.version + 1));
            SameShape(before, after) && forall j, g | Holds(after, j, g) :: Stems(before, g.id)
  {
    hide Unique, Entries, Nearest, Home;
    var f := e.(version := e.version + 1);
    var after := Relocated(cur, i, k, t, f);
    forall j, g | Holds(after, j, g) ensures Stems(before, g.id) {
      RelocatedHolds(cur, i, k, t, f, j, g);
    }
  }

  // ---------------------------------------------------------------- nearby postings

  ghost predicate IsOther(d: Dist, cs: seq<Cluster>, center: Vector, exclude: nat, x: Ranked) {
    exists i :: 0 <= i < |cs| && cs[i].id != exclude && x == Ranked(cs[i].id, d(center, cs[i].centroid))
  }

  lemma {:induction false} OtherWiden(d: Dist, cs: seq<Cluster>, center: Vector, exclude: nat, x: Ranked)
    requires cs != [] && IsOther(d, cs[..|cs| - 1], center, exclude, x)
    ensures IsOther(d, cs, center, exclude, x) && (DistinctIds(cs) ==> x.key != cs[|cs| - 1].id)
  {
    var p := cs[..|cs| - 1];
    var i :| 0 <= i < |p| && p[i].id != exclude && x == Ranked(p[i].id, d(center, p[i].centroid));
    assert cs[i] == p[i];
  }

  lemma {:induction false} OthersAre(d: Dist, cs: seq<Cluster>, center: Vector, exclude: nat)
    requires DistinctIds(cs)
    ensures forall x | x in Others(d, cs, center, exclude) :: IsOther(d, cs, center, exclude, x)
    ensures DistinctKeys(Others(d, cs, center, exclude))
    decreases |cs|
  {
    if cs != [] {
      var n := |cs| - 1;
      OthersAre(d, cs[..n], center, exclude);
      var p, r := Others(d, cs[..n], center, exclude), Others(d, cs, center, exclude);
      forall x | x in r ensures IsOther(d, cs, center, exclude, x) && (x in p ==> x.key != cs[n].id) {
        if x in p { OtherWiden(d, cs, center, exclude, x); }
      }
      assert forall k | 0 <= k < |p| :: r[k] == p[k] && p[k] in p;
    }
  }

  lemma {:induction false} OthersAll(d: Dist, cs: seq<Cluster>, center: Vector, exclude: nat, i: nat)
    requires i < |cs| && cs[i].id != exclude
    ensures Ranked(cs[i].id, d(center, cs[i].centroid)) in Others(d, cs, center, exclude)
    decreases |cs|
  {
    var n := |cs| - 1;
    if i < n {
      assert cs[..n][i] == cs[i];
      OthersAll(d, cs[..n], center, exclude, i);
    }
  }

  // The nearby postings are the topN nearest ones: any posting left out is farther than all of them,
  // or as far with a higher id.
  lemma {:induction false} NearbyAreNearest(d: Dist, cs: seq<Cluster>, center: Vector, exclude: nat, topN: nat, i: nat, j: nat)
    requires DistinctIds(cs) && i < |cs| && j < |cs|
    requires cs[i].id in Nearby(d, cs, center, exclude, topN)
    requires cs[j].id !in Nearby(d, cs, center, exclude, topN) && cs[j].id != exclude
    ensures d(center, cs[i].centroid) < d(center, cs[j].centroid)
            || (d(center, cs[i].centroid) == d(center, cs[j].centroid) && cs[i].id < cs[j].id)
  {
    hide Others, Sort, IsOther;
    var os := Others(d, cs, center, exclude);
    OthersAre(d, cs, center, exclude);
    OthersAll(d, cs, center, exclude, j);
    var k, l := TakenFirst(os, topN, cs[i].id, Ranked(cs[j].id, d(center, cs[j].centroid)));
    assert os[k] in os;
    IsTheOther(d, cs, center, exclude, i, os[k]);
  }

  // And they are topN of them, or all others if there are fewer.
  lemma {:induction false} NearbyCount(d: Dist, cs: seq<Cluster>, center: Vector, exclude: nat, topN: nat)
    ensures var others := |set i | 0 <= i < |cs| && cs[i].id != exclude|;
            |Nearby(d, cs, center, exclude, topN)| == if topN < others then topN else others
  {
    hide Sort, Others;
    OthersCount(d, cs, center, exclude);
  }

  lemma {:induction false} OthersCount(d: Dist, cs: seq<Cluster>, center: Vector, exclude: nat)
    ensures |Others(d, cs, center, exclude)| == |set i | 0 <= i < |cs| && cs[i].id != exclude|
    decreases |cs|
  {
    var others := set i | 0 <= i < |cs| && cs[i].id != exclude;
    if cs == [] {
      assert others == {};
    } else {
      var n := |cs| - 1;
      OthersCount(d, cs[..n], center, exclude);
      var before := set i | 0 <= i < n && cs[..n][i].id != exclude;
      assert others == if cs[n].id == exclude then before else before + {n};
    }
  }

  lemma {:induction false} IsTheOther(d: Dist, cs: seq<Cluster>, center: Vector, exclude: nat, i: nat, x: Ranked)
    requires DistinctIds(cs) && i < |cs| && IsOther(d, cs, center, exclude, x) && x.key == cs[i].id
    ensures x == Ranked(cs[i].id, d(center, cs[i].centroid))
  {
  }

  // ---------------------------------------------------------------- why the rest need no re-check

  // Posting i is a better home for v than posting j: nearer, or as near with the lower id.
  ghost predicate Better(d: Dist, cs: seq<Cluster>, v: Vector, i: nat, j: nat)
    requires i < |cs| && j < |cs|
  {
    d(v, cs[i].centroid) < d(v, cs[j].centroid) || (d(v, cs[i].centroid) == d(v, cs[j].centroid) && cs[i].id < cs[j].id)
  }

  // A member of a changed posting that Eq. 1 leaves out is at home, if each other posting is either a
  // worse home or no nearer to it than its posting's old centroid was.
  lemma {:induction false} Eq1SkipsHome(d: Dist, cs: seq<Cluster>, olds: map<nat, Vector>, i: nat, e: Entry)
    requires DistinctIds(cs) && Holds(cs, i, e) && e.id !in Eq1(d, cs, olds, cs[i].id)
    requires forall j | 0 <= j < |cs| && j != i ::
               Better(d, cs, e.vector, i, j) || (cs[i].id in olds && d(e.vector, olds[cs[i].id]) <= d(e.vector, cs[j].centroid))
    ensures forall j | 0 <= j < |cs| && j != i :: Better(d, cs, e.vector, i, j)
  {
    IndexOfAt(cs, i);
    NotInEq1(d, cs, olds, i, e);
  }

  lemma {:induction false} NotInEq1(d: Dist, cs: seq<Cluster>, olds: map<nat, Vector>, i: nat, e: Entry)
    requires Holds(cs, i, e) && IndexOf(cs, cs[i].id) == i && e.id !in Eq1(d, cs, olds, cs[i].id)
    ensures cs[i].id in olds && d(e.vector, cs[i].centroid) < d(e.vector, olds[cs[i].id])
  {
  }

  // A member of an unchanged posting that Eq. 2 leaves out is at home, if its posting is still a better
  // home than every other unchanged one, and is among the nearby postings of every changed one.
  lemma {:induction false} Eq2SkipsHome(d: Dist, cs: seq<Cluster>, topN: nat, changed: set<nat>, i: nat, e: Entry)
    requires DistinctIds(cs) && Holds(cs, i, e) && cs[i].id !in changed && e.id !in Eq2All(d, cs, topN, changed)
    requires forall j | 0 <= j < |cs| && j != i && cs[j].id !in changed :: Better(d, cs, e.vector, i, j)
    requires forall j | 0 <= j < |cs| && cs[j].id in changed :: cs[i].id in Nearby(d, cs, cs[j].centroid, cs[j].id, topN)
    ensures forall j | 0 <= j < |cs| && j != i :: Better(d, cs, e.vector, i, j)
  {
    forall j | 0 <= j < |cs| && cs[j].id in changed ensures d(e.vector, cs[i].centroid) < d(e.vector, cs[j].centroid) {
      NotInEq2(d, cs, topN, changed, i, e, j);
    }
  }

  lemma {:induction false} NotInEq2(d: Dist, cs: seq<Cluster>, topN: nat, changed: set<nat>, i: nat, e: Entry, j: nat)
    requires DistinctIds(cs) && Holds(cs, i, e) && j < |cs| && cs[j].id in changed
    requires cs[i].id in Nearby(d, cs, cs[j].centroid, cs[j].id, topN) && e.id !in Eq2All(d, cs, topN, changed)
    ensures d(e.vector, cs[i].centroid) < d(e.vector, cs[j].centroid)
  {
    hide Nearby;
    IndexOfAt(cs, i);
    IndexOfAt(cs, j);
    assert e.id !in Eq2(d, cs, topN, cs[j].id);
    assert e.id !in Pulled(d, cs, cs[j].centroid, cs[i].id);
  }

  // The posting is the nearest there is, the lowest id among equals.
  ghost predicate AtNearest(d: Dist, cs: seq<Cluster>, v: Vector, i: nat) {
    i < |cs| && forall j | 0 <= j < |cs| && j != i :: Better(d, cs, v, i, j)
  }

  // When the pass leaves every member in its nearest posting: exactly when every member it does not
  // look at was there before.
  lemma {:induction false} NearestExactly(d: Dist, before: seq<Cluster>, C: set<string>, after: seq<Cluster>)
    requires DistinctIds(before) && Unique(Entries(before)) && Reassigned(d, before, C, after)
    ensures (forall j, f | Holds(after, j, f) :: AtNearest(d, before, f.vector, j))
            <==> (forall i, e | Holds(before, i, e) && e.id !in C :: AtNearest(d, before, e.vector, i))
  {
    hide Entries, Unique, Home, Rehomed, Stems, Nearest, Reassigned;
    if forall j, f | Holds(after, j, f) :: AtNearest(d, before, f.vector, j) {
      forall i, e | Holds(before, i, e) && e.id !in C ensures AtNearest(d, before, e.vector, i) {
        var j, f := EndsNearest(d, before, C, after, i, e);
        assert AtNearest(d, before, f.vector, j);
      }
    }
    if forall i, e | Holds(before, i, e) && e.id !in C :: AtNearest(d, before, e.vector, i) {
      forall j, f | Holds(after, j, f) ensures AtNearest(d, before, f.vector, j) {
        var i, e := Origin(d, before, C, after, j, f);
        var j', f' := EndsNearest(d, before, C, after, i, e);
        assert j == j' && f == f';
        if e.id !in C { assert AtNearest(d, before, e.vector, i); }
      }
    }
  }

  // Without neighbours to look at, Eq. 2 finds nobody.
  lemma {:induction false} NoNeighbours(d: Dist, cs: seq<Cluster>, ids: set<nat>)
    ensures Eq2All(d, cs, 0, ids) == {}
  {
    forall id | id in ids ensures Eq2(d, cs, 0, id) == {} {
      NobodyPulled(d, cs, id);
    }
  }

  lemma {:induction false} NobodyPulled(d: Dist, cs: seq<Cluster>, id: nat)
    ensures Eq2(d, cs, 0, id) == {}
  {
    var i := IndexOf(cs, id);
    if i < |cs| { assert Nearby(d, cs, cs[i].centroid, id, 0) == []; }
  }

  // What has to hold of a member before the pass for the two equations to miss nothing. It is named to
  // be re-checked, or: in a changed posting, each other posting is a worse home or no nearer than its
  // posting's old centroid was; in any other, it is better there than in every unchanged posting, and
  // its posting is nearby every changed one.
  ghost predicate Accountable(d: Dist, cs: seq<Cluster>, olds: map<nat, Vector>, changed: set<nat>, force: set<string>, topN: nat, i: nat, e: Entry)
    requires i < |cs|
  {
    if e.id in force then true
    else if cs[i].id in changed then
      forall j | 0 <= j < |cs| && j != i ::
        Better(d, cs, e.vector, i, j) || cs[i].id !in olds || d(e.vector, olds[cs[i].id]) <= d(e.vector, cs[j].centroid)
    else
      && (forall j | 0 <= j < |cs| && j != i && cs[j].id !in changed :: Better(d, cs, e.vector, i, j))
      && (forall j | 0 <= j < |cs| && cs[j].id in changed :: cs[i].id in Nearby(d, cs, cs[j].centroid, cs[j].id, topN))
  }

  // The pass restores nearest-posting assignment: if every member is accounted for, every member ends
  // in the posting nearest to it, though only the candidates are looked at.
  lemma {:induction false} NearestRestored(d: Dist, before: seq<Cluster>, olds: map<nat, Vector>, changed: set<nat>, force: set<string>, topN: nat,
      after: seq<Cluster>, j: nat, f: Entry)
    requires DistinctIds(before) && Unique(Entries(before)) && Holds(after, j, f)
    requires Reassigned(d, before, Candidates(d, before, olds, changed, force, topN), after)
    requires forall i, e | Holds(before, i, e) :: Accountable(d, before, olds, changed, force, topN, i, e)
    ensures j < |before| && forall k | 0 <= k < |before| && k != j ::
              d(f.vector, before[j].centroid) < d(f.vector, before[k].centroid)
              || (d(f.vector, before[j].centroid) == d(f.vector, before[k].centroid) && before[j].id < before[k].id)
  {
    hide Entries, Unique, Candidates, Accountable, Home, Rehomed, Stems, Nearest, Nearby;
    var C := Candidates(d, before, olds, changed, force, topN);
    var i, e := Origin(d, before, C, after, j, f);
    var j', f' := EndsNearest(d, before, C, after, i, e);
    assert j == j' && f == f';
    if e.id !in C {
      Skipped(d, before, olds, changed, force, topN, i, e);
      forall k | 0 <= k < |before| && k != j
        ensures d(f.vector, before[j].centroid) < d(f.vector, before[k].centroid)
                || (d(f.vector, before[j].centroid) == d(f.vector, before[k].centroid) && before[j].id < before[k].id)
      {
        assert Better(d, before, e.vector, i, k);
      }
    }
  }

  lemma {:induction false} ForcedHas(cs: seq<Cluster>, force: set<string>, i: nat, e: Entry)
    requires Holds(cs, i, e)
    ensures e.id in force ==> e.id in Forced(cs, |cs|, force)
  {
  }

  lemma {:induction false} Skipped(d: Dist, cs: seq<Cluster>, olds: map<nat, Vector>, changed: set<nat>, force: set<string>, topN: nat, i: nat, e: Entry)
    requires DistinctIds(cs) && Holds(cs, i, e) && Accountable(d, cs, olds, changed, force, topN, i, e)
    requires e.id !in Candidates(d, cs, olds, changed, force, topN)
    ensures forall j | 0 <= j < |cs| && j != i :: Better(d, cs, e.vector, i, j)
  {
    hide Nearby, Eq1, Eq2;
    ForcedHas(cs, force, i, e);
    hide Forced;
    if cs[i].id in changed {
      assert e.id !in Eq1(d, cs, olds, cs[i].id);
      IndexOfAt(cs, i);
      NotInEq1(d, cs, olds, i, e);
      Eq1SkipsHome(d, cs, olds, i, e);
    } else {
      hide Eq1All, Eq2All;
      Eq2SkipsHome(d, cs, topN, changed, i, e);
    }
  }

  // ---------------------------------------------------------------- driving the loop

  lemma {:induction false} NearestSome(d: Dist, cs: seq<Cluster>, v: Vector)
    requires DistinctIds(cs) && cs != []
    ensures Nearest(d, cs, v, {}).Some?
  {
    NearestIsLeast(d, cs, v, {}, |cs|);
    assert cs[0].id !in {};
  }

  // A candidate that has not been handled is found where it was gathered, and its nearest posting
  // is still the one it was at the start.
  lemma {:induction false} Locate(d: Dist, before: seq<Cluster>, done: set<string>, cur: seq<Cluster>, c: Candidate)
    returns (i: nat, e: Entry)
    requires Unique(Entries(before)) && Reassigned(d, before, done, cur) && Sits(before, c) && c.id !in done
    ensures i == IndexOf(cur, c.from) && i < |cur| && Holds(before, i, e) && e.id == c.id
    ensures var k := MemberIndex(cur[i].members, c.id); k < |cur[i].members| && cur[i].members[k] == e
    ensures Nearest(d, cur, e.vector, {}) == Nearest(d, before, e.vector, {})
  {
    hide Unique, Entries, Stems, Home, Rehomed;
    i := IndexOf(before, c.from);
    e :| e in before[i].members && e.id == c.id;
    IndexOfIds(before, cur, c.from);
    NotYet(d, before, done, cur, i, e);
    NearestIgnoresMembers(d, cur, before, e.vector, {}, |cur|);
    var k := MemberIndex(cur[i].members, c.id);
    var g := cur[i].members[k];
    SameId(cur, i, g, i, e);
  }

  // Recentres the named postings.
  function RecenterIn(cs: seq<Cluster>, ids: set<nat>): (r: seq<Cluster>)
    ensures |r| == |cs| && forall i | 0 <= i < |cs| :: r[i] == if cs[i].id in ids then Recentered(cs[i]) else cs[i]
  {
    seq(|cs|, (i: int) requires 0 <= i < |cs| => if cs[i].id in ids then Recentered(cs[i]) else cs[i])
  }

  lemma {:induction false} RecenterOne(cs: seq<Cluster>, ids: set<nat>, i: nat)
    requires DistinctIds(cs) && i < |cs| && cs[i].id !in ids
    ensures var r := RecenterIn(cs, ids);
            r[i := Recentered(r[i])] == RecenterIn(cs, ids + {cs[i].id})
  {
    var r := RecenterIn(cs, ids);
    var q := RecenterIn(cs, ids + {cs[i].id});
    forall j | 0 <= j < |cs| ensures r[i := Recentered(r[i])][j] == q[j] {
      if j != i { assert cs[j].id != cs[i].id; }
    }
  }

  lemma {:induction false} RecenterAbsent(cs: seq<Cluster>, ids: set<nat>, id: nat)
    requires IndexOf(cs, id) == |cs|
    ensures RecenterIn(cs, ids + {id}) == RecenterIn(cs, ids)
  {
    forall j | 0 <= j < |cs| ensures cs[j].id != id {}
  }

  lemma {:induction false} RecenterIds(cs: seq<Cluster>, ids: set<nat>)
    ensures forall i | 0 <= i < |cs| :: RecenterIn(cs, ids)[i].id == cs[i].id && RecenterIn(cs, ids)[i].members == cs[i].members
  {
  }

  // Recentring moves no entry.
  lemma {:induction false} SameMembers(a: seq<Cluster>, b: seq<Cluster>)
    requires |a| == |b| && forall i | 0 <= i < |a| :: a[i].members == b[i].members
    ensures Entries(a) == Entries(b)
    decreases |a|
  {
    if a != [] {
      SameMembers(a[..|a| - 1], b[..|b| - 1]);
    }
  }

  lemma {:induction false} RecenteredAre(cs: seq<Cluster>, ids: set<nat>)
    ensures var r := RecenterIn(cs, ids);
            forall i | 0 <= i < |r| && r[i].id in ids && r[i].members != [] :: r[i].centroid == MeanVec(Vectors(r[i].members))
  {
    hide MeanVec, Vectors;
  }
}
