// The disk tier: a FIFO ring of slot files with a persisted index. Keys are write-once, so a right
// body never goes stale.

module Nvme {
  import opened Types

  type Bytes = seq<nat>

  // An empty key marks a slot that holds nothing.
  datatype Slot = Slot(key: string, hash: string)

  const EmptySlot := Slot("", "")

  datatype RingIndex = RingIndex(capacity: nat, cursor: nat, slots: seq<Slot>)

  type Hash = string -> string

  // The one body each key ever has.
  type Content = string -> Bytes

  ghost predicate Collisionless(hash: Hash) {
    forall a, b | hash(a) == hash(b) :: a == b
  }

  // Every slot file holds the right body of the key it is named after.
  ghost predicate FilesOk(hash: Hash, content: Content, files: map<string, Bytes>) {
    forall k | hash(k) in files :: files[hash(k)] == content(k)
  }

  // Slots name their files after their keys, and no key has two slots.
  ghost predicate SlotsOk(hash: Hash, slots: seq<Slot>) {
    && (forall i | 0 <= i < |slots| && slots[i].key != "" :: slots[i].hash == hash(slots[i].key))
    && (forall i, j | 0 <= i < j < |slots| && slots[i].key != "" :: slots[i].key != slots[j].key)
  }

  ghost predicate Indexed(slots: seq<Slot>, byKey: map<string, nat>) {
    && (forall k | k in byKey :: byKey[k] < |slots| && slots[byKey[k]].key == k && k != "")
    && (forall i | 0 <= i < |slots| && slots[i].key != "" :: slots[i].key in byKey && byKey[slots[i].key] == i)
  }

  // ---------------------------------------------------------------- the window

  // A list of keys with one key blanked out.
  function Blank(keys: seq<string>, k: string): (r: seq<string>)
    ensures |r| == |keys| && forall i | 0 <= i < |r| :: r[i] == if keys[i] == k then "" else keys[i]
  {
    seq(|keys|, (i: int) requires 0 <= i < |keys| => if keys[i] == k then "" else keys[i])
  }

  // The ring's keys, oldest slot first, after these puts into an empty ring.
  function Kept(puts: seq<string>, cap: nat): (r: seq<string>)
    requires cap > 0
    ensures |r| == cap
    decreases |puts|
  {
    if puts == [] then seq(cap, i => "")
    else
      var k := puts[|puts| - 1];
      Blank(Kept(puts[..|puts| - 1], cap), k)[1..] + [k]
  }

  // What the d-th last put leaves: its key, unless that was put again since.
  function PutKey(puts: seq<string>, d: nat): string {
    var j := |puts| - 1 - d;
    if j < 0 || puts[j] in puts[j + 1..] then "" else puts[j]
  }

  lemma {:induction false} PutKeyPush(p: seq<string>, k: string, d: nat)
    ensures PutKey(p + [k], 0) == k
    ensures PutKey(p + [k], d + 1) == if PutKey(p, d) == k then "" else PutKey(p, d)
  {
    var q := p + [k];
    var j := |p| - 1 - d;
    if j >= 0 { assert q[j + 1..] == p[j + 1..] + [k]; }
  }

  // Slot by slot from the newest.
  lemma {:induction false} KeptAt(puts: seq<string>, cap: nat, d: nat)
    requires cap > 0 && d < cap
    ensures Kept(puts, cap)[cap - 1 - d] == PutKey(puts, d)
    decreases |puts|
  {
    if puts != [] {
      var n := |puts| - 1;
      assert puts == puts[..n] + [puts[n]];
      if d > 0 {
        KeptAt(puts[..n], cap, d - 1);
        PutKeyPush(puts[..n], puts[n], d - 1);
      } else {
        PutKeyPush(puts[..n], puts[n], 0);
      }
    }
  }

  // The keys of the last cap puts.
  ghost function Window(puts: seq<string>, cap: nat): set<string> {
    var last := if |puts| > cap then puts[|puts| - cap..] else puts;
    set k | k in last
  }

  // The ring holds exactly the keys of its last cap puts.
  lemma {:induction false} KeptIsWindow(puts: seq<string>, cap: nat, k: string)
    requires cap > 0 && k != ""
    ensures k in Kept(puts, cap) <==> k in Window(puts, cap)
  {
    hide Kept;
    if k in Kept(puts, cap) {
      var i :| 0 <= i < cap && Kept(puts, cap)[i] == k;
      KeptAt(puts, cap, cap - 1 - i);
      RecentPut(puts, cap, |puts| - cap + i);
    }
    if k in Window(puts, cap) {
      var j := LastOf(puts, if |puts| > cap then |puts| - cap else 0, k);
      KeptAt(puts, cap, |puts| - 1 - j);
    }
  }

  lemma {:induction false} RecentPut(puts: seq<string>, cap: nat, j: nat)
    requires |puts| - cap <= j < |puts|
    ensures puts[j] in Window(puts, cap)
  {
    if |puts| > cap { assert puts[|puts| - cap..][j - (|puts| - cap)] == puts[j]; }
  }

  lemma {:induction false} LastOf(puts: seq<string>, from: nat, k: string) returns (j: nat)
    requires from <= |puts| && k in puts[from..]
    ensures from <= j < |puts| && puts[j] == k && k !in puts[j + 1..]
    decreases |puts| - from
  {
    if k in puts[from + 1..] {
      j := LastOf(puts, from + 1, k);
    } else {
      assert puts[from..] == [puts[from]] + puts[from + 1..];
      j := from;
    }
  }

  // ---------------------------------------------------------------- slots in ring order

  // The slots from the cursor round: oldest first.
  function Round(slots: seq<Slot>, cursor: nat): seq<Slot>
    requires cursor < |slots|
  {
    slots[cursor..] + slots[..cursor]
  }

  function KeysOf(slots: seq<Slot>): (r: seq<string>)
    ensures |r| == |slots| && forall i | 0 <= i < |r| :: r[i] == slots[i].key
  {
    seq(|slots|, (i: int) requires 0 <= i < |slots| => slots[i].key)
  }

  lemma {:induction false} NextCursor(cursor: nat, n: nat)
    requires cursor < n
    ensures (cursor + 1) % n == if cursor + 1 == n then 0 else cursor + 1
  {
  }

  // Writing at the cursor and advancing it drops the oldest slot and adds a newest one.
  lemma {:induction false} RoundPut(slots: seq<Slot>, cursor: nat, x: Slot)
    requires cursor < |slots|
    ensures var next := (cursor + 1) % |slots|;
            next < |slots| && Round(slots[cursor := x], next) == Round(slots, cursor)[1..] + [x]
  {
    NextCursor(cursor, |slots|);
    RoundShift(slots, cursor, x, if cursor + 1 == |slots| then 0 else cursor + 1);
  }

  lemma {:induction false} RoundShift(slots: seq<Slot>, cursor: nat, x: Slot, next: nat)
    requires cursor < |slots| && next == if cursor + 1 == |slots| then 0 else cursor + 1
    ensures Round(slots[cursor := x], next) == Round(slots, cursor)[1..] + [x]
  {
    var s := slots[cursor := x];
    var a, b := Round(s, next), Round(slots, cursor)[1..] + [x];
    assert |a| == |b|;
    forall m | 0 <= m < |a| ensures a[m] == b[m] {
    }
  }

  lemma {:induction false} RoundHas(slots: seq<Slot>, cursor: nat, k: string)
    requires cursor < |slots|
    ensures k in KeysOf(Round(slots, cursor)) <==> k in KeysOf(slots)
  {
    var r := Round(slots, cursor);
    var n := |slots|;
    if k in KeysOf(slots) {
      var i :| 0 <= i < n && KeysOf(slots)[i] == k;
      var m := if i >= cursor then i - cursor else n - cursor + i;
      assert r[m] == slots[i];
      assert KeysOf(r)[m] == k;
    }
    if k in KeysOf(r) {
      var m :| 0 <= m < n && KeysOf(r)[m] == k;
      var i := if m < n - cursor then cursor + m else m - (n - cursor);
      assert r[m] == slots[i];
      assert KeysOf(slots)[i] == k;
    }
  }

  // Clearing the slot of a key blanks it wherever it is in the round.
  lemma {:induction false} RoundClear(slots: seq<Slot>, cursor: nat, i: nat, k: string)
    requires cursor < |slots| && i < |slots| && slots[i].key == k && k != ""
    requires forall j | 0 <= j < |slots| && j != i :: slots[j].key != k
    ensures KeysOf(Round(slots[i := EmptySlot], cursor)) == Blank(KeysOf(Round(slots, cursor)), k)
  {
    var a, b := Round(slots[i := EmptySlot], cursor), Round(slots, cursor);
    forall m | 0 <= m < |a| ensures a[m].key == if b[m].key == k then "" else b[m].key {
      var j := if m < |slots| - cursor then cursor + m else m - (|slots| - cursor);
      assert b[m] == slots[j] && a[m] == slots[i := EmptySlot][j];
    }
  }

  lemma {:induction false} BlankAbsent(keys: seq<string>, k: string)
    requires k !in keys
    ensures Blank(keys, k) == keys
  {
  }

  // ---------------------------------------------------------------- what can be found

  // The keys mapped to a slot whose file is there, with their bodies.
  ghost function Found(hash: Hash, content: Content, byKey: map<string, nat>, files: map<string, Bytes>): map<string, Bytes> {
    map k | k in byKey && hash(k) in files :: content(k)
  }

  lemma {:induction false} FoundForget(hash: Hash, content: Content, byKey: map<string, nat>, files: map<string, Bytes>, key: string)
    ensures Found(hash, content, byKey - {key}, files) == Found(hash, content, byKey, files) - {key}
  {
  }

  lemma {:induction false} FoundDrop(hash: Hash, content: Content, byKey: map<string, nat>, files: map<string, Bytes>, key: string)
    requires Collisionless(hash) && key !in byKey
    ensures Found(hash, content, byKey, files - {hash(key)}) == Found(hash, content, byKey, files)
  {
  }

  lemma {:induction false} FoundWrite(hash: Hash, content: Content, byKey: map<string, nat>, files: map<string, Bytes>, key: string, i: nat, body: Bytes)
    requires Collisionless(hash) && body == content(key)
    ensures Found(hash, content, byKey[key := i], files[hash(key) := body]) == Found(hash, content, byKey, files)[key := body]
  {
  }

  // Forgetting a key that has no slot changes nothing.
  lemma {:induction false} FoundAbsent(hash: Hash, content: Content, byKey: map<string, nat>, files: map<string, Bytes>, key: string)
    requires key !in byKey
    ensures Found(hash, content, byKey, files) - {key} == Found(hash, content, byKey, files)
  {
  }

  lemma {:induction false} FoundIf(hash: Hash, content: Content, byKey: map<string, nat>, files: map<string, Bytes>, key: string)
    ensures key in Found(hash, content, byKey, files) <==> key in byKey && hash(key) in files
  {
  }

  lemma {:induction false} PutOver(m: map<string, Bytes>, key: string, evicted: string, body: Bytes)
    requires key != evicted
    ensures (m - {key} - {evicted})[key := body] == m[key := body] - {evicted}
    ensures m - {key} - {evicted} == m - {key, evicted}
  {
  }

  // ---------------------------------------------------------------- restarting

  // The persisted index is the one of a ring that has taken exactly these puts, and every file it
  // names is there.
  ghost predicate WarmFor(hash: Hash, saved: Option<RingIndex>, files: map<string, Bytes>, cap: nat, puts: seq<string>) {
    && saved.Some? && saved.value.capacity == cap == |saved.value.slots| && cap > 0
    && KeysOf(Round(saved.value.slots, saved.value.cursor % cap)) == Kept(puts, cap)
    && forall i | 0 <= i < cap && saved.value.slots[i].key != "" :: hash(saved.value.slots[i].key) in files
  }

  // ---------------------------------------------------------------- the ring

  class NvmeRing {
    const capacity: nat
    const hash: Hash
    ghost const content: Content
    // The disk: slot files by name, and the persisted index.
    var files: map<string, Bytes>
    var saved: Option<RingIndex>
    var slots: seq<Slot>
    var byKey: map<string, nat>
    var cursor: nat
    var hits: nat
    var misses: nat
    // Since the ring was last empty: the keys put, and whether all I/O succeeded.
    ghost var puts: seq<string>
    ghost var clean: bool

    ghost predicate Valid()
      reads this
    {
      && capacity > 0 && |slots| == capacity && cursor < capacity
      && Collisionless(hash) && FilesOk(hash, content, files)
      && SlotsOk(hash, slots) && Indexed(slots, byKey)
      && (saved.Some? ==> SlotsOk(hash, saved.value.slots))
      && (clean ==> KeysOf(Round(slots, cursor)) == Kept(puts, capacity) && forall k | k in byKey :: hash(k) in files)
    }

    // What a lookup would find, if every file could be read.
    ghost function Readable(): map<string, Bytes>
      reads this
    {
      Found(hash, content, byKey, files)
    }

    // Opens a ring over a directory as it is found: any files with right bodies, and whatever index
    // was persisted last. An index of another shape is ignored; one that a ring wrote after `earlier`
    // puts, over its own files, makes this the ring of those puts.
    constructor (capacity: nat, hash: Hash, ghost content: Content, files: map<string, Bytes>, saved: Option<RingIndex>, ghost earlier: seq<string>)
      requires capacity > 0 && Collisionless(hash) && FilesOk(hash, content, files)
      requires saved.Some? ==> SlotsOk(hash, saved.value.slots)
      ensures Valid() && this.files == files && this.hash == hash && this.content == content && this.capacity == capacity
      ensures saved.Some? && saved.value.capacity == capacity == |saved.value.slots| ==> slots == saved.value.slots
      ensures !(saved.Some? && saved.value.capacity == capacity == |saved.value.slots|) ==> byKey == map[] && puts == [] && clean
      ensures WarmFor(hash, saved, files, capacity, earlier) ==> clean && puts == earlier
    {
      this.capacity, this.hash, this.content := capacity, hash, content;
      this.files, this.saved := files, saved;
      slots, byKey, cursor := seq(capacity, i => EmptySlot), map[], 0;
      hits, misses := 0, 0;
      puts, clean := [], true;
      new;
      assert KeysOf(Round(slots, 0)) == Kept([], capacity);
      Load(earlier);
    }

    method Load(ghost earlier: seq<string>)
      requires Valid() && byKey == map[] && puts == [] && clean
      modifies this`slots, this`byKey, this`cursor, this`puts, this`clean
      ensures Valid()
      ensures WarmFor(hash, saved, files, capacity, earlier) ==> clean && puts == earlier
      ensures saved.Some? && saved.value.capacity == capacity == |saved.value.slots| ==> slots == saved.value.slots
      ensures !(saved.Some? && saved.value.capacity == capacity == |saved.value.slots|) ==>
                slots == old(slots) && byKey == map[] && clean && puts == []
    {
      hide FilesOk, Collisionless, Kept, Round;
      if saved.None? {
        return;
      }
      var idx := saved.value;
      if idx.capacity != capacity || |idx.slots| != capacity {
        return;
      }
      cursor := idx.cursor % capacity;
      slots := idx.slots;
      clean := false;
      var m: map<string, nat> := map[];
      var i := 0;
      while i < |idx.slots|
        invariant i <= |idx.slots|
        invariant forall k | k in m :: m[k] < i && idx.slots[m[k]].key == k && k != ""
        invariant forall j | 0 <= j < i && idx.slots[j].key != "" :: idx.slots[j].key in m && m[idx.slots[j].key] == j
      {
        if idx.slots[i].key != "" {
          m := m[idx.slots[i].key := i];
        }
        i := i + 1;
      }
      byKey := m;
      if WarmFor(hash, saved, files, capacity, earlier) {
        puts, clean := earlier, true;
      }
    }

    method Persist(writeOk: bool) returns (ok: bool)
      requires Valid()
      modifies this`saved
      ensures Valid() && ok == writeOk
      ensures saved == if writeOk then Some(RingIndex(capacity, cursor, slots)) else old(saved)
    {
      if writeOk {
        saved := Some(RingIndex(capacity, cursor, slots));
      }
      ok := writeOk;
    }

    // A hit is always the right body. On a ring with no I/O error it hits exactly the keys of the
    // last `capacity` puts.
    method Get(key: string, readOk: bool) returns (body: Option<Bytes>)
      requires Valid() && key != ""
      modifies this`slots, this`byKey, this`hits, this`misses, this`clean
      ensures Valid()
      ensures body.Some? ==> body.value == content(key)
      ensures clean == (old(clean) && (readOk || key !in old(byKey)))
      ensures old(clean) && readOk ==> (body.Some? <==> key in Window(puts, capacity))
      ensures body.Some? <==> readOk && key in old(Readable())
      ensures Readable() == if body.Some? then old(Readable()) else old(Readable()) - {key}
    {
      hide Kept, FilesOk, Collisionless, SlotsOk, Round, Found;
      FoundIf(hash, content, byKey, files, key);
      if clean {
        KeptIsWindow(puts, capacity, key);
        RoundHas(slots, cursor, key);
        HeldKeys(slots, byKey, key);
      }
      body := None;
      if key !in byKey || slots[byKey[key]].key != key {
        FoundAbsent(hash, content, byKey, files, key);
        misses := misses + 1;
        return;
      }
      var i := byKey[key];
      FileName(hash, slots, i);
      if !readOk || slots[i].hash !in files {
        ForgetSlot(hash, slots, byKey, i);
        FoundForget(hash, content, byKey, files, key);
        byKey := byKey - {key};
        slots := slots[i := EmptySlot];
        misses := misses + 1;
        clean := false;
        return;
      }
      hits := hits + 1;
      RightFile(hash, content, files, key);
      body := Some(files[slots[i].hash]);
    }

    // Writes the body into the oldest slot and advances. With no I/O error the ring then holds
    // exactly the keys of its last `capacity` puts.
    method Put(key: string, body: Bytes, writeOk: bool, persistOk: bool) returns (ok: bool, ghost evicted: string)
      requires Valid() && key != "" && body == content(key)
      modifies this`files, this`saved, this`slots, this`byKey, this`cursor, this`puts, this`clean
      ensures Valid() && ok == (writeOk && persistOk)
      ensures puts == if writeOk then old(puts) + [key] else old(puts)
      ensures clean == (old(clean) && writeOk)
      ensures clean ==> forall k | k != "" :: k in byKey <==> k in Window(puts, capacity)
      ensures clean && ok ==> WarmFor(hash, saved, files, capacity, puts)
      ensures evicted != key
      ensures Readable() == if writeOk then old(Readable())[key := body] - {evicted} else old(Readable()) - {key, evicted}
    {
      hide Kept, FilesOk, Collisionless, SlotsOk, Indexed, Round, Window, Found, WarmFor;
      ClearOld(key);
      var slot := cursor;
      evicted := slots[slot].key;
      EvictOccupant(key);
      ghost var before := slots;
      PutOver(old(Readable()), key, evicted, body);
      if !writeOk {
        ForgetEmpty(hash, slots, slot);
        slots := slots[slot := EmptySlot];
        clean := false;
        ok := false;
        return;
      }
      WriteFile(hash, content, files, key, body);
      FoundWrite(hash, content, byKey, files, key, slot, body);
      files := files[hash(key) := body];
      FillSlot(hash, before, byKey, slot, key);
      RoundPut(before, slot, Slot(key, hash(key)));
      slots := slots[slot := Slot(key, hash(key))];
      byKey := byKey[key := slot];
      cursor := (cursor + 1) % capacity;
      puts := puts + [key];
      if clean {
        KeptPush(old(puts), key, capacity);
        PutKeys(before, slot, Slot(key, hash(key)));
        HoldsWindow(slots, cursor, byKey, puts, capacity);
      }
      ok := Persist(persistOk);
      if clean && ok { StillWarm(hash, slots, byKey, files, saved, capacity, cursor, puts); }
    }

    // Unmaps whatever occupies the slot at the cursor and removes its file.
    method EvictOccupant(key: string)
      requires |slots| == capacity && cursor < capacity && FilesOk(hash, content, files) && Collisionless(hash)
      requires SlotsOk(hash, slots) && Indexed(slots, byKey) && key !in byKey
      requires (clean ==> forall k | k in byKey :: hash(k) in files) && key != ""
      modifies this`files, this`byKey
      ensures FilesOk(hash, content, files) && Indexed(slots[cursor := EmptySlot], byKey) && key !in byKey
      ensures clean ==> forall k | k in byKey :: hash(k) in files
      ensures Readable() == old(Readable()) - {slots[cursor].key} && slots[cursor].key != key
    {
      hide FilesOk, SlotsOk, Indexed, Found;
      var prev := slots[cursor];
      if prev.key != "" {
        FileName(hash, slots, cursor);
        ForgetSlot(hash, slots, byKey, cursor);
        DropFile(hash, content, files, prev.hash);
        FoundForget(hash, content, byKey, files, prev.key);
        FoundDrop(hash, content, byKey - {prev.key}, files, prev.key);
        byKey := byKey - {prev.key};
        files := files - {prev.hash};
      } else {
        BlankSlot(slots, byKey, cursor);
        NoBlankKey(slots, byKey);
        FoundAbsent(hash, content, byKey, files, "");
      }
    }

    // Forgets the slot a key already has, so that it never has two.
    method ClearOld(key: string)
      requires Valid() && key != ""
      modifies this`slots, this`byKey, this`clean
      ensures |slots| == capacity && key !in byKey && byKey.Keys <= old(byKey).Keys && clean == old(clean)
      ensures SlotsOk(hash, slots) && Indexed(slots, byKey)
      ensures Readable() == old(Readable()) - {key}
      ensures clean ==> KeysOf(Round(slots, cursor)) == Blank(Kept(puts, capacity), key) && forall k | k in byKey :: hash(k) in files
    {
      hide Kept, FilesOk, Collisionless, SlotsOk, Round, Found;
      if key in byKey {
        var o := byKey[key];
        ForgetSlot(hash, slots, byKey, o);
        OnlySlot(slots, byKey, o);
        RoundClear(slots, cursor, o, key);
        FoundForget(hash, content, byKey, files, key);
        slots := slots[o := EmptySlot];
        byKey := byKey - {key};
      } else {
        FoundAbsent(hash, content, byKey, files, key);
        RoundHas(slots, cursor, key);
        HeldKeys(slots, byKey, key);
        if clean { BlankAbsent(Kept(puts, capacity), key); }
      }
    }
  }

  // A process that restarts over the files and the index of a ring whose last put went through carries
  // on where it left off.
  method Reopen(ring: NvmeRing) returns (again: NvmeRing)
    requires ring.Valid() && WarmFor(ring.hash, ring.saved, ring.files, ring.capacity, ring.puts)
    ensures fresh(again) && again.Valid() && again.clean && again.puts == ring.puts && again.capacity == ring.capacity
    ensures forall k | k != "" :: k in again.byKey <==> k in Window(ring.puts, ring.capacity)
  {
    hide Kept, Round, Window, FilesOk, Collisionless;
    again := new NvmeRing(ring.capacity, ring.hash, ring.content, ring.files, ring.saved, ring.puts);
    HoldsWindow(again.slots, again.cursor, again.byKey, again.puts, again.capacity);
  }

  lemma {:induction false} StillWarm(hash: Hash, slots: seq<Slot>, byKey: map<string, nat>, files: map<string, Bytes>, saved: Option<RingIndex>,
      cap: nat, cursor: nat, puts: seq<string>)
    requires Indexed(slots, byKey) && forall k | k in byKey :: hash(k) in files
    requires cap == |slots| && cursor < cap && saved == Some(RingIndex(cap, cursor, slots)) && KeysOf(Round(slots, cursor)) == Kept(puts, cap)
    ensures WarmFor(hash, saved, files, cap, puts)
  {
    hide Kept, Round;
  }

  lemma {:induction false} OnlySlot(slots: seq<Slot>, byKey: map<string, nat>, i: nat)
    requires Indexed(slots, byKey) && i < |slots| && slots[i].key != ""
    ensures forall j | 0 <= j < |slots| && j != i :: slots[j].key != slots[i].key
  {
  }

  lemma {:induction false} HeldKeys(slots: seq<Slot>, byKey: map<string, nat>, k: string)
    requires Indexed(slots, byKey) && k != ""
    ensures k in byKey <==> k in KeysOf(slots)
  {
    if k in byKey { assert KeysOf(slots)[byKey[k]] == k; }
  }

  lemma {:induction false} FileName(hash: Hash, slots: seq<Slot>, i: nat)
    requires SlotsOk(hash, slots) && i < |slots| && slots[i].key != ""
    ensures slots[i].hash == hash(slots[i].key)
  {
  }

  lemma {:induction false} ForgetSlot(hash: Hash, slots: seq<Slot>, byKey: map<string, nat>, i: nat)
    requires SlotsOk(hash, slots) && Indexed(slots, byKey) && i < |slots| && slots[i].key != ""
    ensures SlotsOk(hash, slots[i := EmptySlot]) && Indexed(slots[i := EmptySlot], byKey - {slots[i].key})
    ensures slots[i].key in byKey
  {
  }

  lemma {:induction false} NoBlankKey(slots: seq<Slot>, byKey: map<string, nat>)
    requires Indexed(slots, byKey)
    ensures "" !in byKey
  {
  }

  lemma {:induction false} BlankSlot(slots: seq<Slot>, byKey: map<string, nat>, i: nat)
    requires Indexed(slots, byKey) && i < |slots| && slots[i].key == ""
    ensures Indexed(slots[i := EmptySlot], byKey)
  {
  }

  lemma {:induction false} HoldsWindow(slots: seq<Slot>, cursor: nat, byKey: map<string, nat>, puts: seq<string>, cap: nat)
    requires cap > 0 && cursor < |slots| && Indexed(slots, byKey) && KeysOf(Round(slots, cursor)) == Kept(puts, cap)
    ensures forall k | k != "" :: k in byKey <==> k in Window(puts, cap)
  {
    hide Kept, Round, Window, Indexed;
    forall k | k != "" ensures k in byKey <==> k in Window(puts, cap) {
      KeptIsWindow(puts, cap, k);
      RoundHas(slots, cursor, k);
      HeldKeys(slots, byKey, k);
    }
  }

  lemma {:induction false} ForgetEmpty(hash: Hash, slots: seq<Slot>, i: nat)
    requires SlotsOk(hash, slots) && i < |slots|
    ensures SlotsOk(hash, slots[i := EmptySlot])
  {
  }

  lemma {:induction false} FillSlot(hash: Hash, slots: seq<Slot>, byKey: map<string, nat>, i: nat, key: string)
    requires SlotsOk(hash, slots) && i < |slots| && key != ""
    requires Indexed(slots[i := EmptySlot], byKey) && key !in byKey
    ensures SlotsOk(hash, slots[i := Slot(key, hash(key))]) && Indexed(slots[i := Slot(key, hash(key))], byKey[key := i])
  {
    var blank, full := slots[i := EmptySlot], slots[i := Slot(key, hash(key))];
    assert forall j | 0 <= j < |slots| && j != i :: full[j] == blank[j] == slots[j];
    forall j | 0 <= j < |slots| && j != i && slots[j].key != "" ensures slots[j].key != key {
      assert blank[j].key in byKey;
    }
  }

  lemma {:induction false} RightFile(hash: Hash, content: Content, files: map<string, Bytes>, key: string)
    requires FilesOk(hash, content, files) && hash(key) in files
    ensures files[hash(key)] == content(key)
  {
  }

  lemma {:induction false} WriteFile(hash: Hash, content: Content, files: map<string, Bytes>, key: string, body: Bytes)
    requires FilesOk(hash, content, files) && Collisionless(hash) && body == content(key)
    ensures FilesOk(hash, content, files[hash(key) := body])
  {
  }

  lemma {:induction false} DropFile(hash: Hash, content: Content, files: map<string, Bytes>, name: string)
    requires FilesOk(hash, content, files)
    ensures FilesOk(hash, content, files - {name})
  {
  }

  lemma {:induction false} KeptPush(puts: seq<string>, k: string, cap: nat)
    requires cap > 0
    ensures Kept(puts + [k], cap) == Blank(Kept(puts, cap), k)[1..] + [k]
  {
    assert (puts + [k])[..|puts|] == puts;
  }

  lemma {:induction false} PutKeys(slots: seq<Slot>, cursor: nat, x: Slot)
    requires cursor < |slots|
    ensures KeysOf(Round(slots, cursor)[1..] + [x]) == KeysOf(Round(slots, cursor))[1..] + [x.key]
  {
  }
}
