// The query planner: compiles a filter to a bitmap of ordinals when the attribute index covers it,
// and decides between filter-first and a pruned search-first scan.

module Planner {
  import opened Types
  import opened Filters
  import opened AttributeIndex
  import opened Bitmaps

  // ords holds exactly the ordinals of the documents the filter matches.
  ghost predicate Compiled(ords: seq<nat>, f: Filter, af: AttrsFile, live: Live) {
    forall o: nat :: o in ords <==> o < |af.ords| && Matches(f, af, live, o)
  }

  ghost predicate Matches(f: Filter, af: AttrsFile, live: Live, o: nat)
    requires o < |af.ords|
  {
    af.ords[o] in live && Match(f, live[af.ords[o]].attrs)
  }

  // What the index can express: scalar equality on covered fields, and non-empty "and" / "or" of such.
  predicate Compilable(fmt: Format, f: Filter, af: AttrsFile)
    decreases f
  {
    if MatchAll(f) then false
    else if f.op == "eq" then f.field in af.values && ValueKey(fmt, f.value).Some?
    else if f.op == "and" || f.op == "or" then f.sub != [] && forall i | 0 <= i < |f.sub| :: Compilable(fmt, f.sub[i], af)
    else false
  }

  // The scalar values of a field over the live documents. The text field has none.
  ghost function ScalarsOf(textField: string, live: Live, field: string): set<Value> {
    set id | id in live && field != textField && field in live[id].attrs && !live[id].attrs[field].Other? :: live[id].attrs[field]
  }

  // The same, from the documents alone: equalities with scalars, over fields that have some scalar
  // value and not too many distinct ones, under any nesting of "and" and "or".
  ghost predicate Indexable(textField: string, live: Live, f: Filter)
    decreases f
  {
    if f.op == "eq" then
      var values := ScalarsOf(textField, live, f.field);
      !f.value.Other? && values != {} && (|values| <= 64 || 2 * |values| <= |live|)
    else
      (f.op == "and" || f.op == "or") && f.sub != [] && forall i | 0 <= i < |f.sub| :: Indexable(textField, live, f.sub[i])
  }

  // The buckets of a set of scalars.
  ghost function BucketsOf(fmt: Format, values: set<Value>): set<string> {
    set v | v in values && ValueKey(fmt, v).Some? :: ValueKey(fmt, v).value
  }

  lemma {:induction false} BucketsCount(fmt: Format, values: set<Value>)
    requires Injective(fmt) && forall v | v in values :: !v.Other?
    ensures |BucketsOf(fmt, values)| == |values|
    decreases |values|
  {
    hide Injective, ValueKey;
    if values == {} {
      assert BucketsOf(fmt, values) == {};
    } else {
      var v :| v in values;
      BucketsCount(fmt, values - {v});
      KeyParts(fmt, v);
      OwnBucket(fmt, values, v);
      assert BucketsOf(fmt, values) == BucketsOf(fmt, values - {v}) + {ValueKey(fmt, v).value} by { ScalarKeys(fmt, values); }
    }
  }

  lemma {:induction false} ScalarKeys(fmt: Format, values: set<Value>)
    requires forall v | v in values :: !v.Other?
    ensures forall v | v in values :: ValueKey(fmt, v).Some?
  {
  }

  // No other scalar shares the bucket.
  lemma {:induction false} OwnBucket(fmt: Format, values: set<Value>, v: Value)
    requires Injective(fmt) && v in values && forall w | w in values :: !w.Other?
    ensures ValueKey(fmt, v).Some? && ValueKey(fmt, v).value !in BucketsOf(fmt, values - {v})
  {
    forall w | w in values && w != v ensures ValueKey(fmt, w) != ValueKey(fmt, v) {
      KeysDecide(fmt, w, v);
    }
  }

  lemma {:induction false} KeysAreBuckets(fmt: Format, textField: string, live: Live, field: string)
    requires Injective(fmt)
    ensures |FieldKeys(fmt, textField, live, field)| == |ScalarsOf(textField, live, field)|
  {
    var values := ScalarsOf(textField, live, field);
    BucketsCount(fmt, values);
    hide Injective;
    var keys := FieldKeys(fmt, textField, live, field);
    forall k ensures k in keys <==> k in BucketsOf(fmt, values) {
      if k in keys {
        var id :| id in live && k in AttributeIndex.KeyOf(fmt, textField, live[id].attrs, field);
        assert live[id].attrs[field] in values;
      }
      if k in BucketsOf(fmt, values) {
        var v :| v in values && ValueKey(fmt, v) == Some(k);
        var id :| id in live && field != textField && field in live[id].attrs && live[id].attrs[field] == v;
        assert k in AttributeIndex.KeyOf(fmt, textField, live[id].attrs, field);
      }
    }
    assert keys == BucketsOf(fmt, values);
  }

  lemma {:induction false} EqCompilable(fmt: Format, textField: string, live: Live, clusterOf: map<string, nat>, af: AttrsFile, f: Filter)
    requires Injective(fmt) && AttrIndexOk(fmt, textField, live, clusterOf, af) && f.op == "eq"
    ensures Compilable(fmt, f, af) <==> Indexable(textField, live, f)
  {
    hide AttrIndexOk, Injective, FieldKeys, ScalarsOf;
    KeysAreBuckets(fmt, textField, live, f.field);
    FieldIn(fmt, textField, live, clusterOf, af, f.field);
  }

  // What the index can express is what the documents make indexable.
  lemma {:induction false} CompilableIff(fmt: Format, textField: string, live: Live, clusterOf: map<string, nat>, af: AttrsFile, f: Filter)
    requires Injective(fmt) && AttrIndexOk(fmt, textField, live, clusterOf, af)
    ensures Compilable(fmt, f, af) <==> Indexable(textField, live, f)
    decreases f
  {
    hide AttrIndexOk, Injective;
    if f.op == "eq" {
      EqCompilable(fmt, textField, live, clusterOf, af, f);
    } else if f.op == "and" || f.op == "or" {
      forall i | 0 <= i < |f.sub| ensures Compilable(fmt, f.sub[i], af) <==> Indexable(textField, live, f.sub[i]) {
        CompilableIff(fmt, textField, live, clusterOf, af, f.sub[i]);
      }
    }
  }

  lemma {:induction false} FieldIn(fmt: Format, textField: string, live: Live, clusterOf: map<string, nat>, af: AttrsFile, field: string)
    requires AttrIndexOk(fmt, textField, live, clusterOf, af)
    ensures var n := |FieldKeys(fmt, textField, live, field)|;
            field in af.values <==> n != 0 && (n <= 64 || 2 * n <= |live|)
  {
    hide FieldKeys;
    assert field in af.values <==> FieldKeys(fmt, textField, live, field) != {} && !TooMany(|FieldKeys(fmt, textField, live, field)|, |live|);
  }

  lemma {:induction false} EqCompiled(fmt: Format, textField: string, live: Live, clusterOf: map<string, nat>, af: AttrsFile, f: Filter, ids: seq<nat>)
    requires Injective(fmt) && AttrIndexOk(fmt, textField, live, clusterOf, af)
    requires f.op == "eq" && f.field in af.values && ValueKey(fmt, f.value).Some?
    requires var k := ValueKey(fmt, f.value).value; ids == if k in af.values[f.field] then af.values[f.field][k] else []
    ensures Compiled(ids, f, af, live)
  {
    hide Injective;
    var k := ValueKey(fmt, f.value).value;
    FieldNotText(fmt, textField, live, clusterOf, af, f.field);
    forall o: nat ensures o in ids <==> o < |af.ords| && Matches(f, af, live, o) {
      assert o in ids <==> InBucket(af.values, f.field, k, o);
      if o < |af.ords| {
        assert af.ords[o] in af.ords;
        var attrs := live[af.ords[o]].attrs;
        if f.field in attrs { KeysDecide(fmt, attrs[f.field], f.value); }
      }
    }
  }

  lemma {:induction false} FieldNotText(fmt: Format, textField: string, live: Live, clusterOf: map<string, nat>, af: AttrsFile, field: string)
    requires AttrIndexOk(fmt, textField, live, clusterOf, af) && field in af.values
    ensures field != textField
  {
    var k :| k in FieldKeys(fmt, textField, live, field);
  }

  // Mirrors Match over the bitmap index. It succeeds exactly when the index covers the filter, and
  // then an ordinal is in the bitmap exactly when Match holds of that document.
  method CompileFilter(fmt: Format, f: Filter, af: AttrsFile, ghost textField: string, ghost live: Live, ghost clusterOf: map<string, nat>)
    returns (b: Bitmap, ok: bool)
    requires Injective(fmt) && AttrIndexOk(fmt, textField, live, clusterOf, af)
    ensures fresh(b) && fresh(b.containers) && b.Valid()
    ensures ok <==> Compilable(fmt, f, af)
    ensures ok ==> Compiled(b.Elems(), f, af, live)
    decreases f, 1
  {
    hide Injective, AttrIndexOk, Compiled, Matches, Bitmap.Elems, Bitmap.Valid;
    ok := false;
    if f.op == "" || f.op == "all" {
      b := new Bitmap();
    } else if f.op == "eq" {
      var key := ValueKey(fmt, f.value);
      if f.field !in af.values || key.None? {
        b := new Bitmap();
        return;
      }
      var fv := af.values[f.field];
      var ids := if key.value in fv then fv[key.value] else [];
      b := FromSorted(ids);
      EqCompiled(fmt, textField, live, clusterOf, af, f, ids);
      SameCompiled(ids, b.Elems(), f, af, live);
      ok := true;
    } else if f.op == "and" {
      b, ok := CompileAnd(fmt, f, af, textField, live, clusterOf);
    } else if f.op == "or" {
      b, ok := CompileOr(fmt, f, af, textField, live, clusterOf);
    } else {
      b := new Bitmap();
    }
  }

  lemma {:induction false} SameCompiled(a: seq<nat>, b: seq<nat>, f: Filter, af: AttrsFile, live: Live)
    requires Compiled(a, f, af, live) && forall o: nat :: o in a <==> o in b
    ensures Compiled(b, f, af, live)
  {
  }

  // The ordinals matching the first n sub-filters, all of them or any of them.
  ghost predicate CompiledAll(ords: seq<nat>, subs: seq<Filter>, n: nat, af: AttrsFile, live: Live)
    requires n <= |subs|
  {
    forall o: nat :: o in ords <==> o < |af.ords| && forall i | 0 <= i < n :: Matches(subs[i], af, live, o)
  }

  ghost predicate CompiledAny(ords: seq<nat>, subs: seq<Filter>, n: nat, af: AttrsFile, live: Live)
    requires n <= |subs|
  {
    forall o: nat :: o in ords <==> o < |af.ords| && exists i :: 0 <= i < n && Matches(subs[i], af, live, o)
  }

  lemma {:induction false} AndStep(acc: seq<nat>, bm: seq<nat>, next: seq<nat>, subs: seq<Filter>, n: nat, af: AttrsFile, live: Live)
    requires n < |subs| && (n == 0 || CompiledAll(acc, subs, n, af, live)) && Compiled(bm, subs[n], af, live)
    requires forall o: nat :: o in next <==> (n == 0 || o in acc) && o in bm
    ensures CompiledAll(next, subs, n + 1, af, live)
  {
    hide Matches;
  }

  lemma {:induction false} OrStep(acc: seq<nat>, bm: seq<nat>, next: seq<nat>, subs: seq<Filter>, n: nat, af: AttrsFile, live: Live)
    requires n < |subs| && CompiledAny(acc, subs, n, af, live) && Compiled(bm, subs[n], af, live)
    requires forall o: nat :: o in next <==> o in acc || o in bm
    ensures CompiledAny(next, subs, n + 1, af, live)
  {
    hide Matches;
    forall o: nat ensures o in next <==> o < |af.ords| && exists i :: 0 <= i < n + 1 && Matches(subs[i], af, live, o) {
      if o < |af.ords| && Matches(subs[n], af, live, o) { assert o in bm; }
    }
  }

  lemma {:induction false} AndDone(ords: seq<nat>, f: Filter, af: AttrsFile, live: Live)
    requires f.op == "and" && f.sub != [] && CompiledAll(ords, f.sub, |f.sub|, af, live)
    ensures Compiled(ords, f, af, live)
  {
    forall o: nat | o < |af.ords|
      ensures Matches(f, af, live, o) <==> forall i | 0 <= i < |f.sub| :: Matches(f.sub[i], af, live, o)
    {
      if forall i | 0 <= i < |f.sub| :: Matches(f.sub[i], af, live, o) { assert Matches(f.sub[0], af, live, o); }
    }
  }

  lemma {:induction false} OrDone(ords: seq<nat>, f: Filter, af: AttrsFile, live: Live)
    requires f.op == "or" && CompiledAny(ords, f.sub, |f.sub|, af, live)
    ensures Compiled(ords, f, af, live)
  {
    forall o: nat | o < |af.ords|
      ensures Matches(f, af, live, o) <==> exists i :: 0 <= i < |f.sub| && Matches(f.sub[i], af, live, o)
    {
      if Matches(f, af, live, o) {
        var i :| 0 <= i < |f.sub| && Match(f.sub[i], live[af.ords[o]].attrs);
        assert Matches(f.sub[i], af, live, o);
      }
    }
  }

  lemma {:induction false} NoneYet(subs: seq<Filter>, af: AttrsFile, live: Live)
    ensures CompiledAny([], subs, 0, af, live)
  {
  }

  method CompileAnd(fmt: Format, f: Filter, af: AttrsFile, ghost textField: string, ghost live: Live, ghost clusterOf: map<string, nat>)
    returns (acc: Bitmap, ok: bool)
    requires Injective(fmt) && AttrIndexOk(fmt, textField, live, clusterOf, af) && f.op == "and"
    ensures fresh(acc) && fresh(acc.containers) && acc.Valid()
    ensures ok <==> Compilable(fmt, f, af)
    ensures ok ==> Compiled(acc.Elems(), f, af, live)
    decreases f, 0
  {
    hide Injective, AttrIndexOk, Compiled, CompiledAll, Matches, Bitmap.Elems, Bitmap.Valid;
    acc := new Bitmap();
    ok := false;
    if |f.sub| == 0 {
      return;
    }
    var i := 0;
    while i < |f.sub|
      invariant i <= |f.sub| && fresh(acc) && fresh(acc.containers) && acc.Valid()
      invariant forall j | 0 <= j < i :: Compilable(fmt, f.sub[j], af)
      invariant i == 0 || CompiledAll(acc.Elems(), f.sub, i, af, live)
    {
      var bm, good := CompileFilter(fmt, f.sub[i], af, textField, live, clusterOf);
      if !good {
        return;
      }
      ghost var was := acc.Elems();
      ghost var more := bm.Elems();
      if i == 0 {
        acc := bm;
      } else {
        acc := acc.And(bm);
      }
      AndStep(was, more, acc.Elems(), f.sub, i, af, live);
      i := i + 1;
    }
    AndDone(acc.Elems(), f, af, live);
    ok := true;
  }

  method CompileOr(fmt: Format, f: Filter, af: AttrsFile, ghost textField: string, ghost live: Live, ghost clusterOf: map<string, nat>)
    returns (acc: Bitmap, ok: bool)
    requires Injective(fmt) && AttrIndexOk(fmt, textField, live, clusterOf, af) && f.op == "or"
    ensures fresh(acc) && fresh(acc.containers) && acc.Valid()
    ensures ok <==> Compilable(fmt, f, af)
    ensures ok ==> Compiled(acc.Elems(), f, af, live)
    decreases f, 0
  {
    hide Injective, AttrIndexOk, Compiled, CompiledAny, Matches, Bitmap.Elems, Bitmap.Valid;
    acc := new Bitmap();
    ok := false;
    if |f.sub| == 0 {
      return;
    }
    NoneYet(f.sub, af, live);
    var i := 0;
    while i < |f.sub|
      invariant i <= |f.sub| && fresh(acc) && fresh(acc.containers) && acc.Valid()
      invariant forall j | 0 <= j < i :: Compilable(fmt, f.sub[j], af)
      invariant CompiledAny(acc.Elems(), f.sub, i, af, live)
    {
      var bm, good := CompileFilter(fmt, f.sub[i], af, textField, live, clusterOf);
      if !good {
        return;
      }
      ghost var was := acc.Elems();
      acc := acc.Or(bm);
      OrStep(was, bm.Elems(), acc.Elems(), f.sub, i, af, live);
      i := i + 1;
    }
    OrDone(acc.Elems(), f, af, live);
    ok := true;
  }

  // ---------------------------------------------------------------- the plan

  // filterFirst gathers from the bitmap; otherwise only the named clusters are worth scanning.
  datatype VectorPlan = NoPlan | Plan(filterFirst: bool, cands: Bitmap, clusters: set<int>)

  // The clusters that hold a matching ordinal.
  ghost function MatchClusters(ords: seq<nat>, af: AttrsFile): set<int> {
    set o | o in ords && o < |af.clusterOf| && af.clusterOf[o] >= 0 :: af.clusterOf[o]
  }

  // Fewer than one document in twenty matches.
  predicate Selective(matching: nat, total: nat) {
    total > 0 && matching as real / total as real < 0.05
  }

  lemma {:induction false} SelectiveIs(matching: nat, total: nat)
    ensures Selective(matching, total) <==> 20 * matching < total
  {
    if total > 0 {
      var m, t := matching as real, total as real;
      TwentiethOf(m, t, m / t);
    }
  }

  lemma {:induction false} TwentiethOf(m: real, t: real, r: real)
    requires t > 0.0 && r == m / t
    ensures r < 0.05 <==> 20.0 * m < t
  {
    assert r * t == m;
    if r < 0.05 {
      assert (0.05 - r) * t > 0.0;
    } else {
      assert (r - 0.05) * t >= 0.0;
    }
  }

  method PlanVectorQuery(fmt: Format, f: Filter, index: Option<AttrsFile>, ghost textField: string, ghost live: Live, ghost clusterOf: map<string, nat>)
    returns (plan: VectorPlan)
    requires Injective(fmt) && (index.Some? ==> AttrIndexOk(fmt, textField, live, clusterOf, index.value))
    ensures plan.NoPlan? <==> MatchAll(f) || index.None? || !Compilable(fmt, f, index.value)
    ensures plan.Plan? ==>
              && fresh(plan.cands) && fresh(plan.cands.containers) && plan.cands.Valid()
              && Compiled(plan.cands.Elems(), f, index.value, live)
              && plan.clusters == MatchClusters(plan.cands.Elems(), index.value)
              && (plan.filterFirst <==> Selective(|plan.cands.Elems()|, |index.value.ords|))
  {
    hide Injective, AttrIndexOk, Compiled, Bitmap.Elems, Bitmap.Valid;
    if f.op == "" || f.op == "all" {
      return NoPlan;
    }
    if index.None? {
      return NoPlan;
    }
    var af := index.value;
    var cands, ok := CompileFilter(fmt, f, af, textField, live, clusterOf);
    if !ok {
      return NoPlan;
    }
    var ords := cands.Each();
    var clusters: set<int> := {};
    var i := 0;
    while i < |ords|
      invariant i <= |ords| && clusters == MatchClusters(ords[..i], af)
    {
      assert ords[..i + 1] == ords[..i] + [ords[i]];
      if ords[i] < |af.clusterOf| {
        var c := af.clusterOf[ords[i]];
        if c >= 0 { clusters := clusters + {c}; }
      }
      i := i + 1;
    }
    assert ords[..|ords|] == ords;
    var n := cands.Len();
    plan := Plan(Selective(n, |af.ords|), cands, clusters);
  }
}
