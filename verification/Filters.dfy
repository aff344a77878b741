// Filters over attributes, and the keys the attribute index buckets values under.

module Filters {
  import opened Types

  // A tagged union by operator name: "eq", "and", "or", "" or "all" for match-all; any other matches nothing.
  datatype Filter = Filter(op: string, field: string, value: Value, sub: seq<Filter>)

  function NumericValue(v: Value): Option<real> {
    match v
    case Num(n) => Some(n)
    case _ => None
  }

  // Numbers compare as numbers; a number never equals a non-number; the rest compares deeply.
  predicate EqualValues(a: Value, b: Value) {
    var x, y := NumericValue(a), NumericValue(b);
    if x.Some? && y.Some? then x.value == y.value
    else if x.Some? != y.Some? then false
    else a == b
  }

  predicate MatchAll(f: Filter) { f.op == "" || f.op == "all" }

  predicate Match(f: Filter, attrs: Attrs)
    decreases f
  {
    if MatchAll(f) then true
    else if f.op == "eq" then f.field in attrs && EqualValues(attrs[f.field], f.value)
    else if f.op == "and" then forall i | 0 <= i < |f.sub| :: Match(f.sub[i], attrs)
    else if f.op == "or" then exists i :: 0 <= i < |f.sub| && Match(f.sub[i], attrs)
    else false
  }

  // Number formatting, of which the index needs only that distinct numbers print differently.
  type Format = real -> string

  ghost predicate Injective(fmt: Format) {
    forall a, b | fmt(a) == fmt(b) :: a == b
  }

  // The bucket of a scalar value; a structured value has none.
  function ValueKey(fmt: Format, v: Value): Option<string> {
    match v
    case Num(n) => Some("n:" + fmt(n))
    case Str(s) => Some("s:" + s)
    case Bool(b) => Some(if b then "b:true" else "b:false")
    case Other(_) => None
  }

  // A key starts with the letter of its kind and ends with the value's own text.
  lemma {:induction false} KeyParts(fmt: Format, v: Value)
    ensures match v
            case Num(n) => var k := ValueKey(fmt, v).value; k[0] == 'n' && k[2..] == fmt(n)
            case Str(s) => var k := ValueKey(fmt, v).value; k[0] == 's' && k[2..] == s
            case Bool(b) => var k := ValueKey(fmt, v).value; k[0] == 'b' && k[2] == if b then 't' else 'f'
            case Other(_) => ValueKey(fmt, v).None?
  {
  }

  // Two values share a bucket exactly when Match takes them for equal.
  lemma {:induction false} KeysDecide(fmt: Format, a: Value, b: Value)
    requires Injective(fmt) && ValueKey(fmt, b).Some?
    ensures ValueKey(fmt, a) == ValueKey(fmt, b) <==> EqualValues(a, b)
  {
    KeyParts(fmt, a);
    KeyParts(fmt, b);
  }
}
