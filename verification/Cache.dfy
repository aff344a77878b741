// The three-tier read cache: an LRU list in memory over the disk ring over the backend. Only
// write-once keys are read through it.

module Cache {
  import opened Types
  import opened Nvme
  import opened Sorting

  datatype Cached = Cached(key: string, body: Bytes)

  function CachedKeys(s: seq<Cached>): (r: seq<string>)
    ensures |r| == |s| && forall i | 0 <= i < |r| :: r[i] == s[i].key
  {
    seq(|s|, (i: int) requires 0 <= i < |s| => s[i].key)
  }

  // A list without one key.
  function Without(s: seq<string>, k: string): seq<string>
    decreases |s|
  {
    if s == [] then [] else if s[0] == k then Without(s[1..], k) else [s[0]] + Without(s[1..], k)
  }

  // The distinct keys used, most recent first.
  function Recency(uses: seq<string>): seq<string>
    decreases |uses|
  {
    if uses == [] then [] else
    var n := |uses| - 1;
    [uses[n]] + Without(Recency(uses[..n]), uses[n])
  }

  // What fits: the first capacity of them, all of them when unbounded.
  function Fits(s: seq<string>, capacity: nat): seq<string> {
    if capacity == 0 then s else Take(s, capacity)
  }

  lemma {:induction false} NoDupTail(s: seq<string>)
    requires NoDup(s) && s != []
    ensures NoDup(s[1..]) && s[0] !in s[1..] && s == [s[0]] + s[1..]
  {
    var t := s[1..];
    assert forall i | 0 <= i < |t| :: t[i] == s[i + 1];
  }

  lemma {:induction false} NoDupCons(x: string, t: seq<string>)
    requires NoDup(t) && x !in t
    ensures NoDup([x] + t)
  {
  }

  lemma {:induction false} WithoutIs(s: seq<string>, k: string)
    requires NoDup(s)
    ensures NoDup(Without(s, k)) && forall x :: x in Without(s, k) <==> x in s && x != k
    ensures k !in s ==> Without(s, k) == s
    decreases |s|
  {
    hide NoDup;
    if s != [] {
      NoDupTail(s);
      WithoutIs(s[1..], k);
      if s[0] != k { NoDupCons(s[0], Without(s[1..], k)); }
    }
  }

  lemma {:induction false} WithoutAt(s: seq<string>, i: nat)
    requires NoDup(s) && i < |s|
    ensures Without(s, s[i]) == s[..i] + s[i + 1..]
    decreases |s|
  {
    hide NoDup;
    NoDupTail(s);
    if i == 0 {
      WithoutIs(s[1..], s[0]);
      assert s[..0] + s[1..] == s[1..];
    } else {
      WithoutAt(s[1..], i - 1);
      TailCut(s, i);
    }
  }

  lemma {:induction false} TailCut(s: seq<string>, i: nat)
    requires 0 < i < |s|
    ensures s[1..][i - 1] == s[i] && s[i] in s[1..]
    ensures s[..i] + s[i + 1..] == [s[0]] + (s[1..][..i - 1] + s[1..][i..])
  {
    assert s[i + 1..] == s[1..][i..];
    assert s[..i] == [s[0]] + s[1..][..i - 1];
  }

  lemma {:induction false} RecencyNoDup(uses: seq<string>)
    ensures NoDup(Recency(uses))
    decreases |uses|
  {
    if uses != [] {
      var n := |uses| - 1;
      RecencyNoDup(uses[..n]);
      WithoutIs(Recency(uses[..n]), uses[n]);
    }
  }

  lemma {:induction false} RecencyPush(uses: seq<string>, k: string)
    ensures Recency(uses + [k]) == [k] + Without(Recency(uses), k)
  {
    assert (uses + [k])[..|uses|] == uses;
  }

  ghost function Distinct(s: seq<string>): set<string> {
    set k | k in s
  }

  lemma {:induction false} DistinctCons(k: string, s: seq<string>)
    ensures Distinct([k] + s) == {k} + Distinct(s) && Distinct(s + [k]) == {k} + Distinct(s)
  {
  }

  // A key last used at j stands behind exactly those used since.
  lemma {:induction false} RecencyAt(uses: seq<string>, j: nat) returns (i: nat)
    requires j < |uses| && uses[j] !in uses[j + 1..]
    ensures i < |Recency(uses)| && Recency(uses)[i] == uses[j] && Distinct(Recency(uses)[..i]) == Distinct(uses[j + 1..])
    decreases |uses|
  {
    hide NoDup;
    var n := |uses| - 1;
    var before, u := uses[..n], uses[n];
    if j == n {
      i := 0;
      assert Recency(uses)[..0] == [] == uses[n + 1..];
    } else {
      assert uses[j + 1..] == before[j + 1..] + [u];
      assert u in uses[j + 1..];
      var k := RecencyAt(before, j);
      var l := WithoutBefore(Recency(before), u, k);
      i := l + 1;
      assert Recency(uses)[..i] == [u] + Without(Recency(before), u)[..l];
      DistinctCons(u, before[j + 1..]);
      DistinctCons(u, Without(Recency(before), u)[..l]);
    }
  }

  // Where the k-th key ends when another one is taken out.
  lemma {:induction false} WithoutBefore(s: seq<string>, u: string, k: nat) returns (i: nat)
    requires k < |s| && s[k] != u
    ensures i < |Without(s, u)| && Without(s, u)[i] == s[k] && Distinct(Without(s, u)[..i]) == Distinct(s[..k]) - {u}
    decreases |s|
  {
    hide Distinct;
    if k == 0 {
      i := 0;
      assert Without(s, u)[..0] == [] == s[..0];
      NoneDistinct();
    } else {
      var l := WithoutBefore(s[1..], u, k - 1);
      var w := Without(s[1..], u);
      assert s[..k] == [s[0]] + s[1..][..k - 1];
      DistinctCons(s[0], s[1..][..k - 1]);
      if s[0] == u {
        i := l;
      } else {
        i := l + 1;
        assert ([s[0]] + w)[..l + 1] == [s[0]] + w[..l];
        DistinctCons(s[0], w[..l]);
      }
    }
  }

  lemma {:induction false} NoneDistinct()
    ensures Distinct([]) == {}
  {
  }

  // Least recently used, said of the uses alone: a key is held exactly if it has been used, and fewer
  // than capacity other keys have been used since.
  lemma {:induction false} HeldIff(uses: seq<string>, j: nat, capacity: nat)
    requires j < |uses| && uses[j] !in uses[j + 1..] && capacity > 0
    ensures uses[j] in Fits(Recency(uses), capacity) <==> |Distinct(uses[j + 1..])| < capacity
  {
    RecencyNoDup(uses);
    var i := RecencyAt(uses, j);
    var r := Recency(uses);
    hide Recency;
    assert NoDup(r[..i]);
    NoDupSize(r[..i]);
    if i >= capacity {
      forall l | 0 <= l < capacity ensures Fits(r, capacity)[l] != uses[j] { assert r[l] != r[i]; }
    } else {
      assert Fits(r, capacity)[i] == uses[j];
    }
  }

  // And nothing that was never used is.
  lemma {:induction false} HeldWasUsed(uses: seq<string>, k: string, capacity: nat)
    ensures k in Fits(Recency(uses), capacity) ==> k in uses
    decreases |uses|
  {
    if uses != [] {
      var n := |uses| - 1;
      HeldWasUsed(uses[..n], k, 0);
      RecencyNoDup(uses[..n]);
      WithoutIs(Recency(uses[..n]), uses[n]);
    }
  }

  lemma {:induction false} FitsRemoved(r: seq<string>, cap: nat, i: nat)
    requires i < |r| && (cap > 0 ==> i < cap)
    ensures var f := Fits(r, cap);
            f[i] == r[i] && Fits([r[i]] + (r[..i] + r[i + 1..]), cap) == [r[i]] + (f[..i] + f[i + 1..])
  {
    if cap > 0 && |r| > cap {
      assert ([r[i]] + (r[..i] + r[i + 1..]))[..cap] == [r[i]] + (r[..cap][..i] + r[..cap][i + 1..]);
    }
  }

  // Using a cached key moves it to the front of what fits.
  lemma {:induction false} UseHeld(uses: seq<string>, k: string, cap: nat, i: nat)
    requires i < |Fits(Recency(uses), cap)| && Fits(Recency(uses), cap)[i] == k
    ensures var f := Fits(Recency(uses), cap);
            Fits(Recency(uses + [k]), cap) == [k] + (f[..i] + f[i + 1..])
  {
    hide Recency, Without, NoDup;
    var r := Recency(uses);
    RecencyNoDup(uses);
    RecencyPush(uses, k);
    FitsRemoved(r, cap, i);
    WithoutAt(r, i);
  }

  // Using a key that is not cached puts it in front and lets the oldest go.
  lemma {:induction false} UseNew(uses: seq<string>, k: string, cap: nat)
    requires k !in Fits(Recency(uses), cap)
    ensures Fits(Recency(uses + [k]), cap) == Fits([k] + Fits(Recency(uses), cap), cap)
  {
    hide Recency, Without;
    var r := Recency(uses);
    RecencyNoDup(uses);
    RecencyPush(uses, k);
    WithoutIs(r, k);
    if k in r {
      var i :| 0 <= i < |r| && r[i] == k;
      var f := Fits(r, cap);
      assert forall m | 0 <= m < |f| :: f[m] == r[m] && f[m] in f;
      assert cap > 0 && i >= cap;
      WithoutAt(r, i);
      assert Without(r, k) == r[..i] + r[i + 1..];
    }
  }

  // ---------------------------------------------------------------- concurrent readers

  // A read between its atomic steps.
  datatype Read =
    | Started(key: string)
    | PastMemory(key: string)
    | PastRing(key: string)
    | Fetched(key: string, body: Bytes)
    | InHand(key: string, body: Bytes)
    | Answered(key: string, answer: Option<Bytes>)

  // Memory and ring as maps: what either may drop at any moment is left open. The store's methods are
  // runs of these steps by one reader.
  datatype Tiers = Tiers(memory: map<string, Bytes>, ring: map<string, Bytes>, calls: map<nat, Read>)

  datatype Act =
    | Begin(r: nat, key: string)
    | LookMemory(r: nat)
    | LookRing(r: nat)
    | FetchBody(r: nat, ok: bool)
    | PutRing(r: nat, ok: bool)
    | Insert(r: nat)
    | DropMemory(key: string)
    | DropRing(key: string)

  function Do(content: Content, s: Tiers, a: Act): Tiers {
    match a
    case Begin(r, key) => if r in s.calls then s else s.(calls := s.calls[r := Started(key)])
    case LookMemory(r) =>
      if r !in s.calls || !s.calls[r].Started? then s else
      var k := s.calls[r].key;
      s.(calls := s.calls[r := if k in s.memory then Answered(k, Some(s.memory[k])) else PastMemory(k)])
    case LookRing(r) =>
      if r !in s.calls || !s.calls[r].PastMemory? then s else
      var k := s.calls[r].key;
      s.(calls := s.calls[r := if k in s.ring then InHand(k, s.ring[k]) else PastRing(k)])
    case FetchBody(r, ok) =>
      if r !in s.calls || !s.calls[r].PastRing? then s else
      var k := s.calls[r].key;
      s.(calls := s.calls[r := if ok then Fetched(k, content(k)) else Answered(k, None)])
    case PutRing(r, ok) =>
      if r !in s.calls || !s.calls[r].Fetched? then s else
      var k, b := s.calls[r].key, s.calls[r].body;
      s.(calls := s.calls[r := InHand(k, b)], ring := if ok then s.ring[k := b] else s.ring - {k})
    case Insert(r) =>
      if r !in s.calls || !s.calls[r].InHand? then s else
      var k, b := s.calls[r].key, s.calls[r].body;
      s.(calls := s.calls[r := Answered(k, Some(b))], memory := s.memory[k := b])
    case DropMemory(key) => s.(memory := s.memory - {key})
    case DropRing(key) => s.(ring := s.ring - {key})
  }

  function DoAll(content: Content, s: Tiers, acts: seq<Act>): Tiers
    decreases |acts|
  {
    if acts == [] then s else DoAll(content, Do(content, s, acts[0]), acts[1..])
  }

  ghost predicate RightBody(content: Content, r: Read) {
    match r
    case Fetched(k, b) => b == content(k)
    case InHand(k, b) => b == content(k)
    case Answered(k, b) => b.Some? ==> b.value == content(k)
    case _ => true
  }

  ghost predicate AllRight(content: Content, s: Tiers) {
    && (forall k | k in s.memory :: s.memory[k] == content(k))
    && (forall k | k in s.ring :: s.ring[k] == content(k))
    && (forall r | r in s.calls :: RightBody(content, s.calls[r]))
  }

  lemma {:induction false} StepKeepsRight(content: Content, s: Tiers, a: Act)
    requires AllRight(content, s)
    ensures AllRight(content, Do(content, s, a))
  {
  }

  // However lookups, fetches, inserts and evictions of any readers interleave, from any tiers holding
  // right bodies, every answer is the backend's body.
  lemma {:induction false} EveryAnswerIsRight(content: Content, s: Tiers, acts: seq<Act>)
    requires AllRight(content, s)
    ensures AllRight(content, DoAll(content, s, acts))
    ensures var t := DoAll(content, s, acts);
            forall r | r in t.calls && t.calls[r].Answered? && t.calls[r].answer.Some? :: t.calls[r].answer.value == content(t.calls[r].key)
    decreases |acts|
  {
    hide RightBody, Do;
    if acts == [] {
      forall r | r in s.calls && s.calls[r].Answered? && s.calls[r].answer.Some? ensures s.calls[r].answer.value == content(s.calls[r].key) {
        AnswerRight(content, s.calls[r]);
      }
    } else {
      StepKeepsRight(content, s, acts[0]);
      EveryAnswerIsRight(content, Do(content, s, acts[0]), acts[1..]);
    }
  }

  lemma {:induction false} AnswerRight(content: Content, r: Read)
    requires RightBody(content, r) && r.Answered? && r.answer.Some?
    ensures r.answer.value == content(r.key)
  {
  }

  lemma {:induction false} OneMore(content: Content, s: Tiers, acts: seq<Act>, a: Act)
    ensures DoAll(content, s, acts + [a]) == Do(content, DoAll(content, s, acts), a)
    decreases |acts|
  {
    hide Do;
    if acts == [] {
      assert [] + [a] == [a] && [a][1..] == [];
      assert DoAll(content, s, [a]) == DoAll(content, Do(content, s, a), []);
    } else {
      assert (acts + [a])[0] == acts[0] && (acts + [a])[1..] == acts[1..] + [a];
      OneMore(content, Do(content, s, acts[0]), acts[1..], a);
    }
  }

  // One reader, alone with the two tiers.
  ghost predicate Reaches(content: Content, s: Tiers, acts: seq<Act>, memory: map<string, Bytes>, ring: map<string, Bytes>, read: Read) {
    DoAll(content, s, acts) == Tiers(memory, ring, map[0 := read])
  }

  lemma {:induction false} Entered(content: Content, m: map<string, Bytes>, ring: map<string, Bytes>, key: string)
    ensures Reaches(content, Tiers(m, ring, map[]), [Begin(0, key), LookMemory(0)], m, ring,
                    if key in m then Answered(key, Some(m[key])) else PastMemory(key))
  {
    var s := Tiers(m, ring, map[]);
    OneMore(content, s, [Begin(0, key)], LookMemory(0));
    OneMore(content, s, [], Begin(0, key));
    assert [Begin(0, key)] + [LookMemory(0)] == [Begin(0, key), LookMemory(0)] && [] + [Begin(0, key)] == [Begin(0, key)];
    var t := Do(content, s, Begin(0, key));
    assert t.calls == map[0 := Started(key)];
    assert Do(content, t, LookMemory(0)).calls == map[0 := if key in m then Answered(key, Some(m[key])) else PastMemory(key)];
  }

  // The steps of a lookup in the ring that ends in `body`.
  ghost function Looking(key: string, body: Option<Bytes>): seq<Act> {
    if body.Some? then [LookRing(0)] else [DropRing(key), LookRing(0)]
  }

  lemma {:induction false} Looked(content: Content, s: Tiers, acts: seq<Act>, m: map<string, Bytes>, r: map<string, Bytes>, r1: map<string, Bytes>,
                                  key: string, body: Option<Bytes>)
    requires Reaches(content, s, acts, m, r, PastMemory(key))
    requires body.Some? ==> key in r && r[key] == body.value && r1 == r
    requires body.None? ==> r1 == r - {key}
    ensures Reaches(content, s, acts + Looking(key, body), m, r1, if body.Some? then InHand(key, body.value) else PastRing(key))
  {
    hide DoAll;
    if body.Some? {
      OneMore(content, s, acts, LookRing(0));
      assert map[0 := PastMemory(key)][0 := InHand(key, body.value)] == map[0 := InHand(key, body.value)];
    } else {
      OneMore(content, s, acts, DropRing(key));
      OneMore(content, s, acts + [DropRing(key)], LookRing(0));
      assert acts + [DropRing(key)] + [LookRing(0)] == acts + Looking(key, body);
      assert map[0 := PastMemory(key)][0 := PastRing(key)] == map[0 := PastRing(key)];
    }
  }

  lemma {:induction false} FetchedBody(content: Content, s: Tiers, acts: seq<Act>, m: map<string, Bytes>, r: map<string, Bytes>, key: string, ok: bool)
    requires Reaches(content, s, acts, m, r, PastRing(key))
    ensures Reaches(content, s, acts + [FetchBody(0, ok)], m, r, if ok then Fetched(key, content(key)) else Answered(key, None))
  {
    hide DoAll;
    OneMore(content, s, acts, FetchBody(0, ok));
    var read := if ok then Fetched(key, content(key)) else Answered(key, None);
    assert map[0 := PastRing(key)][0 := read] == map[0 := read];
  }

  // The steps of writing the body into the ring: the ring lets another key go.
  lemma {:induction false} Stored(content: Content, s: Tiers, acts: seq<Act>, m: map<string, Bytes>, r: map<string, Bytes>, r1: map<string, Bytes>,
                                  key: string, body: Bytes, ok: bool, evicted: string)
    requires Reaches(content, s, acts, m, r, Fetched(key, body))
    requires evicted != key && r1 == if ok then r[key := body] - {evicted} else r - {key, evicted}
    ensures Reaches(content, s, acts + [PutRing(0, ok), DropRing(evicted)], m, r1, InHand(key, body))
  {
    hide DoAll;
    OneMore(content, s, acts, PutRing(0, ok));
    OneMore(content, s, acts + [PutRing(0, ok)], DropRing(evicted));
    assert acts + [PutRing(0, ok)] + [DropRing(evicted)] == acts + [PutRing(0, ok), DropRing(evicted)];
    assert map[0 := Fetched(key, body)][0 := InHand(key, body)] == map[0 := InHand(key, body)];
    assert r - {key, evicted} == r - {key} - {evicted};
  }

  // The steps of inserting the body: the list may let another key go.
  ghost function Inserting(key: string, dropped: string): seq<Act> {
    if dropped == key then [Insert(0)] else [Insert(0), DropMemory(dropped)]
  }

  lemma {:induction false} Inserted(content: Content, s: Tiers, acts: seq<Act>, m: map<string, Bytes>, m1: map<string, Bytes>, r: map<string, Bytes>,
                                    key: string, body: Bytes, dropped: string)
    requires Reaches(content, s, acts, m, r, InHand(key, body))
    requires m1 == if dropped == key then m[key := body] else m[key := body] - {dropped}
    ensures Reaches(content, s, acts + Inserting(key, dropped), m1, r, Answered(key, Some(body)))
  {
    hide DoAll;
    OneMore(content, s, acts, Insert(0));
    OneMore(content, s, acts + [Insert(0)], DropMemory(dropped));
    assert acts + [Insert(0)] + [DropMemory(dropped)] == acts + [Insert(0), DropMemory(dropped)];
    assert map[0 := InHand(key, body)][0 := Answered(key, Some(body))] == map[0 := Answered(key, Some(body))];
  }

  // ---------------------------------------------------------------- the store

  class Store {
    const capacity: nat
    // The backend: what it holds under each write-once key.
    const content: Content
    const disk: NvmeRing?
    // The list, most recent first, and the keys that have an element in it.
    var lru: seq<Cached>
    var byKey: set<string>
    var dramHits: nat
    var nvmeHits: nat
    var misses: nat
    var evictions: nat
    // The keys served, in order.
    ghost var uses: seq<string>

    // Memory holds exactly the most recently used keys, as many as fit, each with its right body.
    ghost predicate Valid()
      reads this`lru, this`byKey, this`uses
    {
      && CachedKeys(lru) == Fits(Recency(uses), capacity)
      && (forall k :: k in byKey <==> k in CachedKeys(lru))
      && (forall i | 0 <= i < |lru| :: lru[i].body == content(lru[i].key))
    }

    ghost function Memory(): map<string, Bytes>
      reads this`byKey
    {
      map k | k in byKey :: content(k)
    }

    ghost function Ring(): map<string, Bytes>
      reads disk
    {
      if disk == null then map[] else disk.Readable()
    }

    ghost predicate DiskOk()
      reads disk
    {
      disk != null ==> disk.Valid() && disk.content == content
    }

    constructor (capacity: nat, content: Content, disk: NvmeRing?)
      ensures Valid() && lru == [] && this.capacity == capacity && this.content == content && this.disk == disk && uses == []
    {
      this.capacity, this.content, this.disk := capacity, content, disk;
      lru, byKey := [], {};
      dramHits, nvmeHits, misses, evictions := 0, 0, 0, 0;
      uses := [];
    }

    method IndexOfKey(key: string) returns (i: nat)
      requires Valid()
      ensures i <= |lru| && (i < |lru| ==> lru[i].key == key)
      ensures i < |lru| <==> key in byKey
    {
      i := 0;
      while i < |lru|
        invariant i <= |lru| && forall j | 0 <= j < i :: lru[j].key != key
      {
        if lru[i].key == key {
          assert CachedKeys(lru)[i] == key;
          return;
        }
        i := i + 1;
      }
    }

    method MoveToFront(key: string, i: nat, body: Bytes)
      requires Valid() && i < |lru| && lru[i].key == key && body == content(key)
      modifies this`lru, this`uses
      ensures Valid() && uses == old(uses) + [key] && lru[0] == Cached(key, body)
      ensures Memory() == old(Memory())
    {
      hide Recency, Fits;
      ghost var was := CachedKeys(lru);
      UseHeld(uses, key, capacity, i);
      lru := [Cached(key, body)] + (lru[..i] + lru[i + 1..]);
      uses := uses + [key];
      assert CachedKeys(lru) == [key] + (was[..i] + was[i + 1..]);
      Moved(was, i);
    }

    // Adds or refreshes a key at the front, dropping the least recently used over capacity.
    method InsertLocked(key: string, body: Bytes) returns (ghost dropped: string)
      requires Valid() && body == content(key)
      modifies this`lru, this`byKey, this`evictions, this`uses
      ensures Valid() && uses == old(uses) + [key]
      ensures Memory() == if dropped == key then old(Memory())[key := body] else old(Memory())[key := body] - {dropped}
    {
      hide Recency, Fits, NoDup;
      dropped := key;
      var i := IndexOfKey(key);
      if i < |lru| {
        MoveToFront(key, i, body);
        assert Memory() == old(Memory())[key := body];
        return;
      }
      RecencyNoDup(uses);
      PushedFits(uses, key, capacity);
      ghost var full := [key] + CachedKeys(lru);
      lru := [Cached(key, body)] + lru;
      byKey := byKey + {key};
      uses := uses + [key];
      assert CachedKeys(lru) == full;
      assert Memory() == old(Memory())[key := body];
      dropped := EvictOver(full, key);
    }

    // Drops the last of the list if it is over capacity.
    method EvictOver(ghost full: seq<string>, ghost key: string) returns (ghost dropped: string)
      requires CachedKeys(lru) == full && NoDup(full) && forall k :: k in byKey <==> k in full
      requires forall i | 0 <= i < |lru| :: lru[i].body == content(lru[i].key)
      requires full != [] && full[0] == key
      modifies this`lru, this`byKey, this`evictions
      ensures Memory() == if dropped == key then old(Memory()) else old(Memory()) - {dropped}
      ensures CachedKeys(lru) == if capacity > 0 && |full| > capacity then full[..|full| - 1] else full
      ensures forall k :: k in byKey <==> k in CachedKeys(lru)
      ensures forall i | 0 <= i < |lru| :: lru[i].body == content(lru[i].key)
    {
      dropped := key;
      if capacity > 0 && |lru| > capacity {
        var oldest := lru[|lru| - 1];
        dropped := oldest.key;
        assert dropped == full[|full| - 1];
        Dropped(full);
        lru := lru[..|lru| - 1];
        byKey := byKey - {oldest.key};
        evictions := evictions + 1;
        assert CachedKeys(lru) == full[..|full| - 1];
      }
    }

    // Memory, then the ring, then the backend. Whatever is answered is the key's one body; with the
    // backend reachable there always is an answer. `acts` are the steps of one reader that amount to
    // this call, with the evictions it caused.
    method GetCached(key: string, backendOk: bool, readOk: bool, writeOk: bool, persistOk: bool) returns (body: Option<Bytes>, ghost acts: seq<Act>)
      requires Valid() && DiskOk() && key != ""
      modifies this, disk
      ensures Valid() && DiskOk()
      ensures body.Some? ==> body.value == content(key)
      ensures body.None? ==> !backendOk
      ensures uses == if body.Some? then old(uses) + [key] else old(uses)
      ensures dramHits + nvmeHits + misses == old(dramHits + nvmeHits + misses) + 1
      ensures old(key in byKey) ==> body.Some? && dramHits == old(dramHits) + 1
      ensures !old(key in byKey) && old(key in Ring()) && readOk ==> body.Some? && nvmeHits == old(nvmeHits) + 1
      ensures Reaches(content, Tiers(old(Memory()), old(Ring()), map[]), acts, Memory(), Ring(), Answered(key, body))
      ensures body.Some? ==> key in Memory() && Memory()[key] == body.value
      ensures body.Some? && disk != null && writeOk && !old(key in byKey) && !(old(key in Ring()) && readOk) ==>
                key in Ring() && Ring()[key] == body.value
    {
      hide Reaches, Memory, Ring, Valid, DiskOk;
      ghost var start, m, r := Tiers(Memory(), Ring(), map[]), Memory(), Ring();
      Entered(content, m, r, key);
      acts := [Begin(0, key), LookMemory(0)];
      body := LookList(key);
      if body.Some? {
        return;
      }
      body := LookDisk(key, readOk);
      Looked(content, start, acts, m, r, Ring(), key, body);
      acts := acts + Looking(key, body);
      if body.Some? {
        nvmeHits := nvmeHits + 1;
        acts := Settle(start, acts, key, body.value);
        return;
      }
      misses := misses + 1;
      FetchedBody(content, start, acts, m, Ring(), key, backendOk);
      acts := acts + [FetchBody(0, backendOk)];
      body := if backendOk then Some(content(key)) else None;
      if body.None? {
        return;
      }
      acts := PutDisk(start, acts, key, body.value, writeOk, persistOk);
      acts := Settle(start, acts, key, body.value);
    }

    // A lookup in the list: what is found moves to the front.
    method LookList(key: string) returns (body: Option<Bytes>)
      requires Valid()
      modifies this`lru, this`uses, this`dramHits
      ensures Valid() && Memory() == old(Memory())
      ensures body.Some? <==> key in Memory()
      ensures body.Some? <==> key in byKey
      ensures body.Some? ==> Memory()[key] == body.value == content(key) && uses == old(uses) + [key] && dramHits == old(dramHits) + 1
      ensures body.None? ==> uses == old(uses) && dramHits == old(dramHits)
    {
      hide Recency, Fits, CachedKeys;
      body := None;
      var i := IndexOfKey(key);
      if i < |lru| {
        body := Some(lru[i].body);
        MoveToFront(key, i, lru[i].body);
        dramHits := dramHits + 1;
      }
    }

    // A lookup in the ring, if there is one.
    method LookDisk(key: string, readOk: bool) returns (body: Option<Bytes>)
      requires DiskOk() && key != ""
      modifies disk
      ensures DiskOk()
      ensures body.Some? ==> key in old(Ring()) && old(Ring())[key] == body.value == content(key) && Ring() == old(Ring())
      ensures body.None? ==> Ring() == old(Ring()) - {key}
      ensures body.Some? <==> readOk && key in old(Ring())
    {
      body := None;
      if disk != null {
        body := disk.Get(key, readOk);
      }
    }

    // The fetched body goes into the ring, if there is one.
    method PutDisk(ghost start: Tiers, ghost acts0: seq<Act>, key: string, body: Bytes, writeOk: bool, persistOk: bool) returns (ghost acts: seq<Act>)
      requires DiskOk() && key != "" && body == content(key)
      requires Reaches(content, start, acts0, Memory(), Ring(), Fetched(key, body))
      modifies disk
      ensures DiskOk()
      ensures Reaches(content, start, acts, Memory(), Ring(), InHand(key, body))
      ensures disk != null && writeOk ==> key in Ring() && Ring()[key] == body
    {
      hide Reaches, Memory;
      ghost var was := Ring();
      ghost var ok, evicted := false, key + "'";
      if disk != null {
        var stored;
        stored, evicted := disk.Put(key, body, writeOk, persistOk);
        ok := writeOk;
      }
      Stored(content, start, acts0, Memory(), was, Ring(), key, body, ok, evicted);
      acts := acts0 + [PutRing(0, ok), DropRing(evicted)];
    }

    // The body in hand goes into memory and is answered.
    method Settle(ghost start: Tiers, ghost acts0: seq<Act>, key: string, body: Bytes) returns (ghost acts: seq<Act>)
      requires Valid() && body == content(key)
      requires Reaches(content, start, acts0, Memory(), Ring(), InHand(key, body))
      modifies this`lru, this`byKey, this`evictions, this`uses
      ensures Valid() && uses == old(uses) + [key]
      ensures Reaches(content, start, acts, Memory(), Ring(), Answered(key, Some(body)))
      ensures key in Memory() && Memory()[key] == body
    {
      hide Reaches, Memory, Ring, Valid;
      ghost var dropped := InsertLocked(key, body);
      Inserted(content, start, acts0, old(Memory()), Memory(), Ring(), key, body, dropped);
      acts := acts0 + Inserting(key, dropped);
    }
  }

  // After pushing a new key at most one key is over capacity, the last.
  lemma {:induction false} PushedFits(uses: seq<string>, key: string, cap: nat)
    requires NoDup(Recency(uses)) && key !in Fits(Recency(uses), cap)
    ensures var full := [key] + Fits(Recency(uses), cap);
            NoDup(full) && Fits(Recency(uses + [key]), cap) == if cap > 0 && |full| > cap then full[..|full| - 1] else full
  {
    hide Recency;
    UseNew(uses, key, cap);
    NoDupTake(Recency(uses), cap);
    NoDupCons(key, Fits(Recency(uses), cap));
  }

  lemma {:induction false} NoDupTake(s: seq<string>, cap: nat)
    requires NoDup(s)
    ensures NoDup(Fits(s, cap))
  {
  }

  lemma {:induction false} Moved(s: seq<string>, i: nat)
    requires i < |s|
    ensures forall k :: k in [s[i]] + (s[..i] + s[i + 1..]) <==> k in s
  {
    assert s == s[..i] + [s[i]] + s[i + 1..];
  }

  lemma {:induction false} Dropped(s: seq<string>)
    requires s != [] && NoDup(s)
    ensures forall k :: k in s[..|s| - 1] <==> k in s && k != s[|s| - 1]
  {
    assert s == s[..|s| - 1] + [s[|s| - 1]];
  }
}
