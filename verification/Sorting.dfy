// Sorting by a comparison, as sort.Slice and sort.Strings are used: the result is a permutation,
// it is ordered, and for an order that is total on the elements it is the only such list.

module Sorting {

  // Byte-wise order of strings.
  predicate StrLess(a: string, b: string)
    decreases |a|
  {
    if b == [] then false
    else if a == [] then true
    else a[0] < b[0] || (a[0] == b[0] && StrLess(a[1..], b[1..]))
  }

  lemma {:induction false} StrTotal(a: string, b: string)
    ensures a == b || StrLess(a, b) || StrLess(b, a)
    ensures !(StrLess(a, b) && StrLess(b, a)) && !StrLess(a, a)
    decreases |a|
  {
    if a != [] {
      StrTotal(a[1..], a[1..]);
      if b != [] {
        StrTotal(a[1..], b[1..]);
        if a[0] == b[0] && a[1..] == b[1..] { assert a == [a[0]] + a[1..] == b; }
      }
    }
  }

  // At the first place where two strings differ the lower byte comes first, and a prefix comes before
  // what it is a prefix of.
  lemma {:induction false} StrLessIs(a: string, b: string)
    ensures StrLess(a, b) <==> exists k: nat :: FirstDifference(a, b, k)
    decreases |a|
  {
    if a == [] || b == [] || a[0] != b[0] {
      if b != [] && (a == [] || a[0] < b[0]) { assert FirstDifference(a, b, 0); }
      if k: nat :| FirstDifference(a, b, k) { AgreeBefore(a, b, k); }
    } else {
      StrLessIs(a[1..], b[1..]);
      if k: nat :| FirstDifference(a[1..], b[1..], k) {
        assert a[..k + 1] == [a[0]] + a[1..][..k] && b[..k + 1] == [b[0]] + b[1..][..k];
        assert FirstDifference(a, b, k + 1);
      }
      if k: nat :| FirstDifference(a, b, k) {
        assert k > 0;
        assert a[1..][..k - 1] == a[..k][1..] && b[1..][..k - 1] == b[..k][1..];
        assert FirstDifference(a[1..], b[1..], k - 1);
      }
    }
  }

  lemma {:induction false} AgreeBefore(a: string, b: string, k: nat)
    requires FirstDifference(a, b, k)
    ensures k > 0 ==> a != [] && b != [] && a[0] == b[0]
  {
    if k > 0 { assert a[..k][0] == b[..k][0]; }
  }

  // a and b agree on k bytes; then a ends and b does not, or a goes on lower.
  ghost predicate FirstDifference(a: string, b: string, k: nat) {
    k <= |a| && k < |b| && a[..k] == b[..k] && (k == |a| || a[k] < b[k])
  }

  lemma {:induction false} StrTransitive(a: string, b: string, c: string)
    requires StrLess(a, b) && StrLess(b, c)
    ensures StrLess(a, c)
    decreases |a|
  {
    if a != [] && a[0] == b[0] && b[0] == c[0] { StrTransitive(a[1..], b[1..], c[1..]); }
  }

  ghost predicate TransitiveOrder<T(!new)>(before: (T, T) -> bool) {
    forall a, b, c :: before(a, b) && before(b, c) ==> before(a, c)
  }

  ghost predicate AsymmetricOrder<T(!new)>(before: (T, T) -> bool) {
    forall a, b :: before(a, b) ==> !before(b, a)
  }

  // Any two different elements of xs are ordered one way.
  ghost predicate TotalOn<T(!new)>(before: (T, T) -> bool, xs: seq<T>) {
    forall i, j | 0 <= i < |xs| && 0 <= j < |xs| :: xs[i] == xs[j] || before(xs[i], xs[j]) || before(xs[j], xs[i])
  }

  // No element is preceded by one it should precede.
  ghost predicate Sorted<T(!new)>(before: (T, T) -> bool, xs: seq<T>) {
    forall i, j | 0 <= i < j < |xs| :: !before(xs[j], xs[i])
  }

  function Insert<T>(before: (T, T) -> bool, x: T, xs: seq<T>): (r: seq<T>)
    ensures multiset(r) == multiset(xs) + multiset{x} && |r| == |xs| + 1
    decreases |xs|
  {
    if xs == [] then [x]
    else if before(xs[0], x) then
      var rest := Insert(before, x, xs[1..]);
      assert xs == [xs[0]] + xs[1..];
      [xs[0]] + rest
    else [x] + xs
  }

  function Sort<T>(before: (T, T) -> bool, xs: seq<T>): (r: seq<T>)
    ensures multiset(r) == multiset(xs) && |r| == |xs|
    decreases |xs|
  {
    if xs == [] then [] else
      assert xs == [xs[0]] + xs[1..];
      Insert(before, xs[0], Sort(before, xs[1..]))
  }

  lemma {:induction false} InsertSorted<T(!new)>(before: (T, T) -> bool, x: T, xs: seq<T>)
    requires TransitiveOrder(before) && AsymmetricOrder(before) && Sorted(before, xs)
    requires TotalOn(before, xs + [x])
    ensures Sorted(before, Insert(before, x, xs))
    decreases |xs|
  {
    if xs != [] {
      var r := Insert(before, x, xs);
      var all := xs + [x];
      if before(xs[0], x) {
        assert TotalOn(before, xs[1..] + [x]) by {
          forall i, j | 0 <= i < |xs| && 0 <= j < |xs|
            ensures (xs[1..] + [x])[i] == (xs[1..] + [x])[j] || before((xs[1..] + [x])[i], (xs[1..] + [x])[j])
                    || before((xs[1..] + [x])[j], (xs[1..] + [x])[i])
          {
            assert (xs[1..] + [x])[i] == all[i + 1] && (xs[1..] + [x])[j] == all[j + 1];
          }
        }
        InsertSorted(before, x, xs[1..]);
        var rest := Insert(before, x, xs[1..]);
        forall j | 0 < j < |r| ensures !before(r[j], r[0]) {
          assert r[j] == rest[j - 1] && rest[j - 1] in multiset(rest);
          if r[j] != x {
            assert r[j] in multiset(xs[1..]);
            var k :| 0 <= k < |xs[1..]| && xs[1..][k] == r[j];
            assert xs[k + 1] == r[j];
          }
        }
      } else {
        assert all[0] == xs[0] && all[|xs|] == x;
        assert xs[0] == x || before(x, xs[0]);
        forall j | 0 < j < |r| ensures !before(r[j], x) {
          assert r[j] == xs[j - 1];
          assert j - 1 == 0 || !before(xs[j - 1], xs[0]);
        }
      }
    }
  }

  lemma {:induction false} SubTotal<T(!new)>(before: (T, T) -> bool, xs: seq<T>, ys: seq<T>)
    requires TotalOn(before, xs) && multiset(ys) <= multiset(xs)
    ensures TotalOn(before, ys)
  {
    forall i, j | 0 <= i < |ys| && 0 <= j < |ys|
      ensures ys[i] == ys[j] || before(ys[i], ys[j]) || before(ys[j], ys[i])
    {
      assert ys[i] in multiset(ys) && ys[j] in multiset(ys);
      assert ys[i] in multiset(xs) && ys[j] in multiset(xs);
      var a :| 0 <= a < |xs| && xs[a] == ys[i];
      var b :| 0 <= b < |xs| && xs[b] == ys[j];
    }
  }

  lemma {:induction false} SortSorts<T(!new)>(before: (T, T) -> bool, xs: seq<T>)
    requires TransitiveOrder(before) && AsymmetricOrder(before) && TotalOn(before, xs)
    ensures Sorted(before, Sort(before, xs))
    decreases |xs|
  {
    if xs != [] {
      var rest := Sort(before, xs[1..]);
      assert xs == [xs[0]] + xs[1..];
      SubTotal(before, xs, xs[1..]);
      SortSorts(before, xs[1..]);
      assert multiset(rest + [xs[0]]) == multiset(xs);
      SubTotal(before, xs, rest + [xs[0]]);
      InsertSorted(before, xs[0], rest);
    }
  }

  // Whatever neither precedes the other is interchangeable.
  ghost predicate WeakOrder<T(!new)>(before: (T, T) -> bool) {
    AsymmetricOrder(before) && forall a, b, c :: !before(a, b) && !before(b, c) ==> !before(a, c)
  }

  lemma {:induction false} InsertWeak<T(!new)>(before: (T, T) -> bool, x: T, xs: seq<T>)
    requires WeakOrder(before) && Sorted(before, xs)
    ensures Sorted(before, Insert(before, x, xs))
    decreases |xs|
  {
    if xs != [] {
      var r := Insert(before, x, xs);
      if before(xs[0], x) {
        var rest := Insert(before, x, xs[1..]);
        InsertWeak(before, x, xs[1..]);
        forall j | 0 < j < |r| ensures !before(r[j], r[0]) {
          assert r[j] == rest[j - 1] && rest[j - 1] in multiset(rest);
          if r[j] != x {
            assert r[j] in multiset(xs[1..]);
            var k :| 0 <= k < |xs[1..]| && xs[1..][k] == r[j];
            assert xs[k + 1] == r[j];
          }
        }
      } else {
        forall j | 0 < j < |r| ensures !before(r[j], x) {
          assert r[j] == xs[j - 1];
          assert j - 1 == 0 || !before(xs[j - 1], xs[0]);
        }
      }
    }
  }

  // Sorting by an order with ties: nothing is preceded by what it should precede.
  lemma {:induction false} SortWeak<T(!new)>(before: (T, T) -> bool, xs: seq<T>)
    requires WeakOrder(before)
    ensures Sorted(before, Sort(before, xs))
    decreases |xs|
  {
    if xs != [] {
      SortWeak(before, xs[1..]);
      InsertWeak(before, xs[0], Sort(before, xs[1..]));
    }
  }

  lemma {:induction false} SameHead<T(!new)>(before: (T, T) -> bool, xs: seq<T>, ys: seq<T>)
    requires xs != [] && ys != [] && TotalOn(before, xs)
    requires Sorted(before, xs) && Sorted(before, ys) && multiset(xs) == multiset(ys)
    ensures xs[0] == ys[0]
  {
    assert xs[0] in multiset(ys) && ys[0] in multiset(xs);
    var i :| 0 <= i < |ys| && ys[i] == xs[0];
    var j :| 0 <= j < |xs| && xs[j] == ys[0];
    assert j == 0 || !before(xs[j], xs[0]);
    assert i == 0 || !before(ys[i], ys[0]);
  }

  lemma {:induction false} SortedTail<T(!new)>(before: (T, T) -> bool, xs: seq<T>)
    requires xs != [] && Sorted(before, xs)
    ensures Sorted(before, xs[1..]) && multiset(xs[1..]) == multiset(xs) - multiset{xs[0]}
    ensures multiset(xs[1..]) <= multiset(xs) && xs == [xs[0]] + xs[1..]
  {
    assert xs == [xs[0]] + xs[1..];
  }

  // Two ordered lists of the same elements are the same list.
  lemma {:induction false} SortedUnique<T(!new)>(before: (T, T) -> bool, xs: seq<T>, ys: seq<T>)
    requires TotalOn(before, xs)
    requires Sorted(before, xs) && Sorted(before, ys) && multiset(xs) == multiset(ys)
    ensures xs == ys
    decreases |xs|
  {
    if xs == [] {
      assert |multiset(ys)| == 0;
    } else {
      assert xs[0] in multiset(ys);
      SameHead(before, xs, ys);
      SortedTail(before, xs);
      SortedTail(before, ys);
      SubTotal(before, xs, xs[1..]);
      hide Sorted, TotalOn;
      SortedUnique(before, xs[1..], ys[1..]);
    }
  }

  // Sorting names puts them in byte-wise order.
  lemma {:induction false} NamesSorted(xs: seq<string>)
    ensures Sorted(StrLess, Sort(StrLess, xs))
  {
    hide Sort;
    forall a, b, c | StrLess(a, b) && StrLess(b, c) ensures StrLess(a, c) { StrTransitive(a, b, c); }
    forall a, b | StrLess(a, b) ensures !StrLess(b, a) { StrTotal(a, b); }
    forall i, j | 0 <= i < |xs| && 0 <= j < |xs| ensures xs[i] == xs[j] || StrLess(xs[i], xs[j]) || StrLess(xs[j], xs[i]) {
      StrTotal(xs[i], xs[j]);
    }
    SortSorts(StrLess, xs);
  }

  // ---------------------------------------------------------------- lists without repeats

  ghost predicate NoDup<T(!new)>(xs: seq<T>) {
    forall i, j | 0 <= i < j < |xs| :: xs[i] != xs[j]
  }

  lemma {:induction false} Twice<T>(xs: seq<T>, i: nat, j: nat)
    requires i < j < |xs| && xs[i] == xs[j]
    ensures multiset(xs)[xs[i]] >= 2
  {
    assert xs == xs[..i] + [xs[i]] + xs[i + 1..j] + [xs[j]] + xs[j + 1..];
  }

  lemma {:induction false} OnceIn<T(!new)>(xs: seq<T>, i: nat)
    requires NoDup(xs) && i < |xs|
    ensures multiset(xs)[xs[i]] == 1
  {
    assert xs == xs[..i] + [xs[i]] + xs[i + 1..];
    assert xs[i] !in xs[..i] && xs[i] !in xs[i + 1..];
  }

  lemma {:induction false} StillDistinct<T(!new)>(xs: seq<T>, ys: seq<T>)
    requires NoDup(xs) && multiset(xs) == multiset(ys)
    ensures NoDup(ys)
  {
    forall i, j | 0 <= i < j < |ys| ensures ys[i] != ys[j] {
      if ys[i] == ys[j] {
        Twice(ys, i, j);
        assert ys[i] in multiset(xs);
        var k :| 0 <= k < |xs| && xs[k] == ys[i];
        OnceIn(xs, k);
      }
    }
  }

  lemma {:induction false} NoDupSize<T(!new)>(xs: seq<T>)
    requires NoDup(xs)
    ensures |set x | x in xs| == |xs|
    decreases |xs|
  {
    if xs != [] {
      var n := |xs| - 1;
      NoDupSize(xs[..n]);
      assert xs == xs[..n] + [xs[n]];
      assert (set x | x in xs) == (set x | x in xs[..n]) + {xs[n]};
    }
  }

  lemma {:induction false} SameItems<T>(xs: seq<T>, ys: seq<T>, x: T)
    requires multiset(xs) == multiset(ys)
    ensures x in xs <==> x in ys
  {
    assert x in multiset(xs) <==> x in multiset(ys);
  }

  // Of two orderings of the same elements, the first's head sits somewhere in the second, and the
  // rests are orderings of the same elements.
  lemma {:induction false} PermuteSplit<T>(a: seq<T>, b: seq<T>) returns (i: nat)
    requires multiset(a) == multiset(b) && a != []
    ensures i < |b| && b[i] == a[0] && a == [a[0]] + a[1..] && b == b[..i] + ([b[i]] + b[i + 1..])
    ensures multiset(a[1..]) == multiset(b[..i] + b[i + 1..])
  {
    assert a == [a[0]] + a[1..];
    assert a[0] in multiset(b);
    i :| 0 <= i < |b| && b[i] == a[0];
    var p, q := b[..i], b[i + 1..];
    assert b == p + ([b[i]] + q);
    assert multiset(b) == multiset(p) + multiset{b[i]} + multiset(q);
    assert multiset(a) == multiset{a[0]} + multiset(a[1..]);
    assert multiset(p + q) == multiset(p) + multiset(q);
    assert multiset(a[1..]) == multiset(a) - multiset{a[0]};
    assert multiset(p + q) == multiset(b) - multiset{a[0]};
  }

  // ---------------------------------------------------------------- ranking by distance

  // Something numbered, with its distance; nearest first, the lower number on a tie.
  datatype Ranked = Ranked(key: nat, dist: real)

  predicate Nearer(a: Ranked, b: Ranked) {
    a.dist < b.dist || (a.dist == b.dist && a.key < b.key)
  }

  function Keys(rs: seq<Ranked>): (r: seq<nat>)
    ensures |r| == |rs| && forall i | 0 <= i < |r| :: r[i] == rs[i].key
  {
    seq(|rs|, (i: int) requires 0 <= i < |rs| => rs[i].key)
  }

  function Take<T>(xs: seq<T>, n: nat): (r: seq<T>)
    ensures |r| == (if n < |xs| then n else |xs|) && r <= xs
  {
    if n < |xs| then xs[..n] else xs
  }

  ghost predicate DistinctKeys(rs: seq<Ranked>) {
    forall k, l | 0 <= k < l < |rs| :: rs[k].key != rs[l].key
  }

  // With distinct keys, what makes the first n of the ranking precedes what does not.
  lemma {:induction false} TakenFirst(os: seq<Ranked>, n: nat, key: nat, x: Ranked) returns (k: nat, l: nat)
    requires DistinctKeys(os)
    requires key in Keys(Take(Sort(Nearer, os), n)) && x in os && x.key !in Keys(Take(Sort(Nearer, os), n))
    ensures k < |os| && os[k].key == key && l < |os| && os[l] == x
    ensures os[k].dist < x.dist || (os[k].dist == x.dist && os[k].key < x.key)
  {
    hide Sort;
    var rs := Sort(Nearer, os);
    var ids := Keys(Take(rs, n));
    SortSorts(Nearer, os);
    var a :| 0 <= a < |ids| && ids[a] == key;
    assert rs[a].key == key;
    assert x in multiset(os) && x in multiset(rs);
    var b :| 0 <= b < |rs| && rs[b] == x;
    assert forall m | 0 <= m < |ids| :: ids[m] == rs[m].key;
    assert !Nearer(rs[b], rs[a]);
    assert rs[a] in multiset(rs) && rs[a] in multiset(os);
    k :| 0 <= k < |os| && os[k] == rs[a];
    l :| 0 <= l < |os| && os[l] == x;
  }
}
