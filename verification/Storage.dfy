// The object store: write-once and compare-and-swap writes over a counter of ETags.
// The conditional writes follow If-Match and If-None-Match (sections 13.1.1 and 13.1.2 of RFC 9110);
// a refused write is the 412 of its section 15.5.13.

module Storage {
  import opened Types

  datatype Obj<+V> = Obj(body: V, etag: nat)

  // A key family of the store. `counter` is the monotonic ETag generator.
  datatype Store<!K(==), +V> = Store(objs: map<K, Obj<V>>, counter: nat)

  function Write<K, V>(s: Store<K, V>, key: K, body: V): Store<K, V> {
    Store(s.objs[key := Obj(body, s.counter + 1)], s.counter + 1)
  }

  // None is the refused write (412).
  function PutIfAbsent<K, V>(s: Store<K, V>, key: K, body: V): Option<Store<K, V>> {
    if key in s.objs then None else Some(Write(s, key, body))
  }

  function PutCas<K, V>(s: Store<K, V>, key: K, body: V, ifMatch: nat): Option<Store<K, V>> {
    if key !in s.objs || s.objs[key].etag != ifMatch then None else Some(Write(s, key, body))
  }

  datatype StoreOp<K, V> =
    | OpPut(key: K, body: V)
    | OpPutIfAbsent(key: K, body: V)
    | OpPutCas(key: K, body: V, ifMatch: nat)

  function Apply<K, V>(s: Store<K, V>, op: StoreOp<K, V>): Store<K, V> {
    match op
    case OpPut(k, b) => Write(s, k, b)
    case OpPutIfAbsent(k, b) => (match PutIfAbsent(s, k, b) case Some(t) => t case None => s)
    case OpPutCas(k, b, e) => (match PutCas(s, k, b, e) case Some(t) => t case None => s)
  }

  function ApplyAll<K, V>(s: Store<K, V>, ops: seq<StoreOp<K, V>>): Store<K, V>
    decreases |ops|
  {
    if ops == [] then s else ApplyAll(Apply(s, ops[0]), ops[1..])
  }

  // Every ETag was issued by the counter, and no two objects carry the same one.
  ghost predicate EtagsIssued<K(!new), V>(s: Store<K, V>) {
    && (forall k | k in s.objs :: 0 < s.objs[k].etag <= s.counter)
    && (forall j, k | j in s.objs && k in s.objs && j != k :: s.objs[j].etag != s.objs[k].etag)
  }

  lemma {:induction false} EtagsStayIssued<K(!new), V>(s: Store<K, V>, ops: seq<StoreOp<K, V>>)
    requires EtagsIssued(s)
    ensures EtagsIssued(ApplyAll(s, ops)) && s.counter <= ApplyAll(s, ops).counter
    ensures s.objs.Keys <= ApplyAll(s, ops).objs.Keys
    decreases |ops|
  {
    if ops != [] {
      EtagsStayIssued(Apply(s, ops[0]), ops[1..]);
    }
  }

  // ETags are never reused: an object whose ETag is one issued before the run is the very object of then.
  // This is what makes an If-Match write an atomic read-modify-write.
  lemma {:induction false} EtagIdentifiesBody<K(!new), V>(s: Store<K, V>, ops: seq<StoreOp<K, V>>, key: K)
    requires EtagsIssued(s) && key in ApplyAll(s, ops).objs
    ensures ApplyAll(s, ops).objs[key].etag <= s.counter ==> key in s.objs && ApplyAll(s, ops).objs[key] == s.objs[key]
    decreases |ops|
  {
    if ops != [] {
      EtagsStayIssued(s, [ops[0]]);
      assert ApplyAll(s, [ops[0]]) == Apply(s, ops[0]);
      EtagIdentifiesBody(Apply(s, ops[0]), ops[1..], key);
    }
  }

  // A write-once key keeps its body as long as every write to it asks for absence.
  lemma {:induction false} WriteOnceKeeps<K(!new), V>(s: Store<K, V>, ops: seq<StoreOp<K, V>>, key: K)
    requires key in s.objs
    requires forall i | 0 <= i < |ops| :: ops[i].key == key ==> ops[i].OpPutIfAbsent?
    ensures key in ApplyAll(s, ops).objs && ApplyAll(s, ops).objs[key] == s.objs[key]
    decreases |ops|
  {
    if ops != [] {
      assert ops[0].key == key ==> ops[0].OpPutIfAbsent?;
      forall i | 0 <= i < |ops[1..]| ensures ops[1..][i].key == key ==> ops[1..][i].OpPutIfAbsent? {
        assert ops[1..][i] == ops[i + 1];
      }
      WriteOnceKeeps(Apply(s, ops[0]), ops[1..], key);
    }
  }

  // The in-memory store. Each method is one critical section of the mutex.
  class MemStore<K(==), V> {
    var objs: map<K, Obj<V>>
    var seqNo: nat

    ghost function Contents(): Store<K, V>
      reads this
    {
      Store(objs, seqNo)
    }

    constructor ()
      ensures Contents() == Store(map[], 0)
    {
      objs := map[];
      seqNo := 0;
    }

    method NextETag() returns (etag: nat)
      modifies this`seqNo
      ensures etag == seqNo == old(seqNo) + 1
    {
      seqNo := seqNo + 1;
      etag := seqNo;
    }

    method StoreBody(key: K, body: V) returns (etag: nat)
      modifies this
      ensures Contents() == Write(old(Contents()), key, body)
      ensures etag == seqNo && objs[key].etag == etag
    {
      etag := NextETag();
      objs := objs[key := Obj(body, etag)];
    }

    method Get(key: K) returns (r: Option<Obj<V>>)
      ensures r == if key in objs then Some(objs[key]) else None
    {
      if key !in objs {
        return None;
      }
      r := Some(objs[key]);
    }

    method PutCAS(key: K, body: V, ifMatch: nat) returns (r: Option<nat>)
      modifies this
      ensures r.Some? <==> old(key in objs && objs[key].etag == ifMatch)
      ensures Contents() == Apply(old(Contents()), OpPutCas(key, body, ifMatch))
      ensures r.Some? ==> key in objs && objs[key] == Obj(body, r.value)
    {
      if key !in objs || objs[key].etag != ifMatch {
        return None;
      }
      var etag := StoreBody(key, body);
      r := Some(etag);
    }

    method PutIfAbsent(key: K, body: V) returns (r: Option<nat>)
      modifies this
      ensures r.Some? <==> key !in old(objs)
      ensures Contents() == Apply(old(Contents()), OpPutIfAbsent(key, body))
      ensures r.Some? ==> key in objs && objs[key] == Obj(body, r.value)
    {
      if key in objs {
        return None;
      }
      var etag := StoreBody(key, body);
      r := Some(etag);
    }

    method Put(key: K, body: V) returns (etag: nat)
      modifies this
      ensures Contents() == Apply(old(Contents()), OpPut(key, body))
      ensures key in objs && objs[key] == Obj(body, etag)
    {
      etag := StoreBody(key, body);
    }
  }
}
