// The attribute index of an epoch: for each indexed field and value, the ordinals of the documents
// that carry it.

module AttributeIndex {
  import opened Types
  import opened Filters
  import opened Sorting
  import Words

  const MIN_FIELD_CARDINALITY := 64

  // ords[o] is the document of ordinal o; clusterOf[o] its cluster, or -1 without a vector.
  datatype AttrsFile = AttrsFile(ords: seq<string>, clusterOf: seq<int>, values: map<string, map<string, seq<nat>>>)

  // Attributes put a document in bucket (field, key). The text field is never indexed.
  predicate Carries(fmt: Format, textField: string, attrs: Attrs, field: string, key: string) {
    field != textField && field in attrs && ValueKey(fmt, attrs[field]) == Some(key)
  }

  ghost predicate InBucket(values: map<string, map<string, seq<nat>>>, field: string, key: string, o: nat) {
    field in values && key in values[field] && o in values[field][key]
  }

  // The distinct values of a field over the live documents.
  ghost function FieldKeys(fmt: Format, textField: string, live: Live, field: string): set<string> {
    set id, k | id in live && k in KeyOf(fmt, textField, live[id].attrs, field) :: k
  }

  function KeyOf(fmt: Format, textField: string, attrs: Attrs, field: string): set<string> {
    if field == textField || field !in attrs then {} else
    match ValueKey(fmt, attrs[field])
    case Some(k) => {k}
    case None => {}
  }

  predicate TooMany(keys: nat, n: nat) { keys > MIN_FIELD_CARDINALITY && keys > n / 2 }

  ghost predicate OrdinalsOk(ords: seq<string>, live: Live) {
    NoDup(ords) && forall id :: id in ords <==> id in live
  }

  // What the index says is what the documents carry, for every field it covers; and it covers every
  // field with some scalar value that does not have too many distinct ones.
  ghost predicate AttrIndexOk(fmt: Format, textField: string, live: Live, clusterOf: map<string, nat>, af: AttrsFile) {
    && OrdinalsOk(af.ords, live)
    && |af.clusterOf| == |af.ords|
    && (forall o | 0 <= o < |af.ords| :: af.clusterOf[o] == if af.ords[o] in clusterOf then clusterOf[af.ords[o]] else -1)
    && (forall f, k | f in af.values && k in af.values[f] :: Words.Ascending(af.values[f][k]))
    && (forall f, k, o: nat | f in af.values :: InBucket(af.values, f, k, o) <==>
          o < |af.ords| && Carries(fmt, textField, live[af.ords[o]].attrs, f, k))
    && (forall f :: f in af.values <==>
          FieldKeys(fmt, textField, live, f) != {} && !TooMany(|FieldKeys(fmt, textField, live, f)|, |live|))
  }

  // ---------------------------------------------------------------- building

  // Every live document gets a dense ordinal in name order.
  method AssignOrdinals(live: Live) returns (ids: seq<string>)
    ensures OrdinalsOk(ids, live) && Sorted(StrLess, ids)
  {
    ids := [];
    var todo := live.Keys;
    while todo != {}
      invariant todo <= live.Keys
      invariant NoDup(ids) && forall id :: id in ids <==> id in live && id !in todo
    {
      var id :| id in todo;
      ids := ids + [id];
      todo := todo - {id};
    }
    ghost var raw := ids;
    ids := Sort(StrLess, ids);
    NamesSorted(raw);
    StillDistinct(raw, ids);
    forall id ensures id in ids <==> id in raw { SameItems(raw, ids, id); }
  }

  // The buckets under construction.
  type Buckets = map<string, map<string, set<nat>>>

  ghost predicate Hit(b: Buckets, field: string, key: string, o: nat) {
    field in b && key in b[field] && o in b[field][key]
  }

  ghost predicate NoEmpty(b: Buckets) {
    forall f | f in b :: b[f] != map[] && forall k | k in b[f] :: b[f][k] != {}
  }

  function AddTo(b: Buckets, field: string, key: string, o: nat): Buckets {
    var fv := if field in b then b[field] else map[];
    var bm := if key in fv then fv[key] else {};
    b[field := fv[key := bm + {o}]]
  }

  lemma {:induction false} AddToIs(b: Buckets, field: string, key: string, o: nat)
    requires NoEmpty(b)
    ensures NoEmpty(AddTo(b, field, key, o))
    ensures forall f, k, p: nat :: Hit(AddTo(b, field, key, o), f, k, p) <==> Hit(b, f, k, p) || (f == field && k == key && p == o)
  {
  }

  // Puts one document in the bucket of each of its scalar fields, in any order of fields.
  method AddDocument(fmt: Format, textField: string, attrs: Attrs, o: nat, b0: Buckets) returns (b: Buckets)
    requires NoEmpty(b0)
    ensures NoEmpty(b)
    ensures forall f, k, p: nat :: Hit(b, f, k, p) <==> Hit(b0, f, k, p) || (p == o && Carries(fmt, textField, attrs, f, k))
  {
    hide NoEmpty, Hit, AddTo;
    b := b0;
    var todo := attrs.Keys;
    while todo != {}
      invariant todo <= attrs.Keys && NoEmpty(b)
      invariant forall f, k, p: nat :: Hit(b, f, k, p) <==>
                  Hit(b0, f, k, p) || (p == o && f !in todo && Carries(fmt, textField, attrs, f, k))
    {
      var field :| field in todo;
      if field != textField {
        var key := ValueKey(fmt, attrs[field]);
        if key.Some? {
          AddToIs(b, field, key.value, o);
          b := AddTo(b, field, key.value, o);
        }
      }
      todo := todo - {field};
    }
  }

  // The ids of a set, ascending.
  method Listed(s: set<nat>) returns (r: seq<nat>)
    ensures Words.Ascending(r) && forall x :: x in r <==> x in s
  {
    hide Words.Ascending;
    Words.AscendingNone();
    r := [];
    var todo := s;
    while todo != {}
      invariant todo <= s && Words.Ascending(r) && forall x :: x in r <==> x in s && x !in todo
    {
      var x: nat :| x in todo;
      var i := Words.Search(r, x);
      Words.NotAt(r, i, x);
      Words.ShiftInAscending(r, i, x);
      r := Words.ShiftIn(r, i, x);
      todo := todo - {x};
    }
  }

  method FreezeField(fv: map<string, set<nat>>) returns (out: map<string, seq<nat>>)
    ensures out.Keys == fv.Keys
    ensures forall k | k in out :: Words.Ascending(out[k]) && forall x :: x in out[k] <==> x in fv[k]
  {
    out := map[];
    var todo := fv.Keys;
    while todo != {}
      invariant todo <= fv.Keys && out.Keys == fv.Keys - todo
      invariant forall k | k in out :: Words.Ascending(out[k]) && forall x :: x in out[k] <==> x in fv[k]
    {
      var k :| k in todo;
      var ids := Listed(fv[k]);
      out := out[k := ids];
      todo := todo - {k};
    }
  }

  // Drops the fields with too many distinct values and lists the rest.
  method Freeze(b: Buckets, n: nat) returns (values: map<string, map<string, seq<nat>>>)
    ensures forall f :: f in values <==> f in b && !TooMany(|b[f]|, n)
    ensures forall f | f in values :: values[f].Keys == b[f].Keys
    ensures forall f, k | f in values && k in values[f] :: Words.Ascending(values[f][k])
    ensures forall f, k, o: nat | f in values :: InBucket(values, f, k, o) <==> Hit(b, f, k, o)
  {
    hide Words.Ascending;
    values := map[];
    var todo := b.Keys;
    while todo != {}
      invariant todo <= b.Keys
      invariant forall f :: f in values <==> f in b && f !in todo && !TooMany(|b[f]|, n)
      invariant forall f | f in values :: values[f].Keys == b[f].Keys
      invariant forall f, k | f in values && k in values[f] ::
                  Words.Ascending(values[f][k]) && forall x :: x in values[f][k] <==> x in b[f][k]
    {
      var f :| f in todo;
      if !TooMany(|b[f]|, n) {
        var out := FreezeField(b[f]);
        values := values[f := out];
      }
      todo := todo - {f};
    }
  }

  method BuildAttributeIndex(fmt: Format, textField: string, live: Live, ids: seq<string>, clusterOf: map<string, nat>) returns (af: AttrsFile)
    requires OrdinalsOk(ids, live)
    ensures AttrIndexOk(fmt, textField, live, clusterOf, af) && af.ords == ids
  {
    var clusters: seq<int> := [];
    var b: Buckets := map[];
    while |clusters| < |ids|
      invariant |clusters| <= |ids| && NoEmpty(b)
      invariant forall o | 0 <= o < |clusters| :: clusters[o] == if ids[o] in clusterOf then clusterOf[ids[o]] else -1
      invariant forall f, k, o: nat :: Hit(b, f, k, o) <==> o < |clusters| && Carries(fmt, textField, live[ids[o]].attrs, f, k)
    {
      var id := ids[|clusters|];
      assert id in ids;
      b := AddDocument(fmt, textField, live[id].attrs, |clusters|, b);
      clusters := clusters + [if id in clusterOf then clusterOf[id] else -1];
    }
    OneEach(ids, live);
    var values := Freeze(b, |ids|);
    af := AttrsFile(ids, clusters, values);
    forall f ensures f in b <==> FieldKeys(fmt, textField, live, f) != {}
             ensures f in b ==> b[f].Keys == FieldKeys(fmt, textField, live, f) {
      KeysOfField(fmt, textField, live, ids, b, f);
    }
    forall f | f in b ensures |b[f]| == |FieldKeys(fmt, textField, live, f)| {
      assert |b[f]| == |b[f].Keys|;
    }
  }

  lemma {:induction false} OneEach(ids: seq<string>, live: Live)
    requires OrdinalsOk(ids, live)
    ensures |ids| == |live|
  {
    NoDupSize(ids);
    assert (set id | id in ids) == live.Keys;
    assert |live| == |live.Keys|;
  }

  lemma {:induction false} KeysOfField(fmt: Format, textField: string, live: Live, ids: seq<string>, b: Buckets, f: string)
    requires OrdinalsOk(ids, live) && NoEmpty(b)
    requires forall f, k, o: nat :: Hit(b, f, k, o) <==> o < |ids| && Carries(fmt, textField, live[ids[o]].attrs, f, k)
    ensures f in b <==> FieldKeys(fmt, textField, live, f) != {}
    ensures f in b ==> b[f].Keys == FieldKeys(fmt, textField, live, f)
  {
    forall k ensures (f in b && k in b[f]) <==> k in FieldKeys(fmt, textField, live, f) {
      if f in b && k in b[f] {
        var o: nat :| o in b[f][k];
        assert Hit(b, f, k, o);
        assert ids[o] in ids && k in KeyOf(fmt, textField, live[ids[o]].attrs, f);
      }
      if k in FieldKeys(fmt, textField, live, f) {
        var id :| id in live && k in KeyOf(fmt, textField, live[id].attrs, f);
        var o :| 0 <= o < |ids| && ids[o] == id;
        assert Hit(b, f, k, o);
      }
    }
    if f in b {
      assert b[f].Keys != {};
      var k :| k in b[f];
      assert k in FieldKeys(fmt, textField, live, f);
    }
  }
}
