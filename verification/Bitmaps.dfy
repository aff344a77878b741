// The roaring-lite bitmap: chunks of 65536 ids, each a sorted array or a dense bitset, changed in
// place, and always the set it stands for.

module Bitmaps {
  import opened Words

  const ARRAY_MAX := 4096
  const DENSE_WORDS := 1024
  const CHUNK := 65536

  // ---------------------------------------------------------------- dense chunks as lists

  // The ids set in the first n words, ascending.
  function DenseElems(dense: seq<bv64>, n: nat): seq<nat>
    requires n <= |dense|
    decreases n
  {
    if n == 0 then [] else DenseElems(dense, n - 1) + WordElems(dense[n - 1], (n - 1) * 64, 64)
  }

  predicate DenseHas(dense: seq<bv64>, x: int) {
    0 <= x < 64 * |dense| && Bit(dense[x / 64], x % 64)
  }

  lemma {:induction false} PrefixAre(dense: seq<bv64>, n: nat)
    requires n <= |dense|
    ensures Ascending(DenseElems(dense, n))
    ensures forall x :: x in DenseElems(dense, n) <==> x < 64 * n && DenseHas(dense, x)
    decreases n
  {
    hide Bit, WordElems, Ascending;
    if n == 0 {
      AscendingNone();
    } else {
      PrefixAre(dense, n - 1);
      var a, b := DenseElems(dense, n - 1), WordElems(dense[n - 1], (n - 1) * 64, 64);
      WordElemsAre(dense[n - 1], (n - 1) * 64, 64);
      AscendingAppend(a, b);
      forall x ensures x in b <==> 64 * (n - 1) <= x < 64 * n && DenseHas(dense, x) {
        if 64 * (n - 1) <= x < 64 * n { WordOf(x, n - 1); }
      }
    }
  }

  lemma {:induction false} WordOf(x: int, w: nat)
    requires 64 * w <= x < 64 * w + 64
    ensures x / 64 == w && x % 64 == x - 64 * w
  {
  }

  lemma {:induction false} DenseElemsAre(dense: seq<bv64>)
    ensures Ascending(DenseElems(dense, |dense|))
    ensures forall x :: x in DenseElems(dense, |dense|) <==> DenseHas(dense, x)
  {
    PrefixAre(dense, |dense|);
  }

  // The number of ids set in the first n words, word by word.
  function DenseCount(dense: seq<bv64>, n: nat): nat
    requires n <= |dense|
    decreases n
  {
    if n == 0 then 0 else DenseCount(dense, n - 1) + OnesCount(dense[n - 1], 64)
  }

  lemma {:induction false} DenseCountIs(dense: seq<bv64>, n: nat)
    requires n <= |dense|
    ensures DenseCount(dense, n) == |DenseElems(dense, n)|
    decreases n
  {
    hide OnesCount, WordElems;
    if n > 0 {
      DenseCountIs(dense, n - 1);
      OnesCountIs(dense[n - 1], (n - 1) * 64, 64);
    }
  }

  lemma {:induction false} DenseElemsPrefix(a: seq<bv64>, b: seq<bv64>, n: nat)
    requires n <= |a| && n <= |b| && a[..n] == b[..n]
    ensures DenseElems(a, n) == DenseElems(b, n) && DenseCount(a, n) == DenseCount(b, n)
    decreases n
  {
    hide OnesCount, WordElems;
    if n > 0 {
      assert a[n - 1] == a[..n][n - 1] == b[..n][n - 1] == b[n - 1];
      assert a[..n - 1] == a[..n][..n - 1] == b[..n][..n - 1] == b[..n - 1];
      DenseElemsPrefix(a, b, n - 1);
    }
  }

  function SetBit(dense: seq<bv64>, x: nat): (r: seq<bv64>)
    requires x < 64 * |dense|
    ensures |r| == |dense|
  {
    dense[x / 64 := OrBit(dense[x / 64], x % 64)]
  }

  // Setting a bit adds that id and no other.
  lemma {:induction false} SetBitIs(dense: seq<bv64>, x: nat)
    requires x < 64 * |dense|
    ensures forall y :: DenseHas(SetBit(dense, x), y) <==> DenseHas(dense, y) || y == x
  {
    hide Bit, OrBit;
    forall y ensures DenseHas(SetBit(dense, x), y) <==> DenseHas(dense, y) || y == x {
      if 0 <= y < 64 * |dense| { SetWord(dense, x / 64, x % 64, y / 64, y % 64); }
    }
  }

  lemma {:induction false} SetWord(dense: seq<bv64>, w: nat, k: nat, v: nat, j: nat)
    requires w < |dense| && v < |dense| && k < 64 && j < 64
    ensures Bit(dense[w := OrBit(dense[w], k)][v], j) <==> Bit(dense[v], j) || (v == w && j == k)
  {
    hide Bit, OrBit;
    if v == w { OrBitIs(dense[w], k, j); }
  }

  function Zeros(n: nat): (r: seq<bv64>)
    ensures |r| == n && forall k | 0 <= k < n :: r[k] == 0
  {
    seq(n, i => 0)
  }

  lemma {:induction false} ZerosHaveNone(n: nat)
    ensures forall x :: !DenseHas(Zeros(n), x)
  {
    hide Bit;
    forall x ensures !DenseHas(Zeros(n), x) {
      if 0 <= x < 64 * n { BitOfZero(x % 64); }
    }
  }

  lemma {:induction false} OrWords(a: seq<bv64>, b: seq<bv64>, c: seq<bv64>)
    requires |a| == |b| == |c| && forall k | 0 <= k < |a| :: c[k] == a[k] | b[k]
    ensures forall x :: DenseHas(c, x) <==> DenseHas(a, x) || DenseHas(b, x)
  {
    hide Bit;
    forall x ensures DenseHas(c, x) <==> DenseHas(a, x) || DenseHas(b, x) {
      if 0 <= x < 64 * |a| { BitOfOr(a[x / 64], b[x / 64], x % 64); }
    }
  }

  lemma {:induction false} AndWords(a: seq<bv64>, b: seq<bv64>, c: seq<bv64>)
    requires |a| == |b| == |c| && forall k | 0 <= k < |a| :: c[k] == a[k] & b[k]
    ensures forall x :: DenseHas(c, x) <==> DenseHas(a, x) && DenseHas(b, x)
  {
    hide Bit;
    forall x ensures DenseHas(c, x) <==> DenseHas(a, x) && DenseHas(b, x) {
      if 0 <= x < 64 * |a| { BitOfAnd(a[x / 64], b[x / 64], x % 64); }
    }
  }

  // Taking the lowest bit out of a word takes its first id.
  lemma {:induction false} PopLowest(w: bv64, base: nat)
    requires w != 0
    ensures WordElems(w, base, 64) == [base + TrailingZeros(w)] + WordElems(w & (w - 1), base, 64)
  {
    hide Bit, TrailingZeros;
    var t := TrailingZeros(w);
    var rest := WordElems(w & (w - 1), base, 64);
    WordElemsAre(w, base, 64);
    WordElemsAre(w & (w - 1), base, 64);
    TrailingZerosIs(w);
    forall k: nat | k < 64 ensures Bit(w & (w - 1), k) <==> Bit(w, k) && k != t { ClearLowest(w, k); }
    forall x | x in rest ensures x > base + t && x in WordElems(w, base, 64) {
      assert Bit(w, x - base);
    }
    AscendingAppend([base + t], rest);
    forall x ensures x in WordElems(w, base, 64) <==> x in [base + t] + rest {
      if base <= x < base + 64 { assert Bit(w & (w - 1), x - base) <==> Bit(w, x - base) && x - base != t; }
    }
    AscendingUnique(WordElems(w, base, 64), [base + t] + rest);
  }

  lemma {:induction false} NoneInZero(base: nat, k: nat)
    requires k <= 64
    ensures WordElems(0, base, k) == []
    decreases k
  {
    hide Bit;
    if k > 0 {
      NoneInZero(base, k - 1);
      BitOfZero(k - 1);
    }
  }

  // Every id of one dense chunk, by scanning words and clearing their lowest bits.
  method ScanDense(dense: seq<bv64>) returns (ids: seq<nat>)
    ensures ids == DenseElems(dense, |dense|)
  {
    hide Bit, WordElems, TrailingZeros;
    ids := [];
    var w := 0;
    while w < |dense|
      invariant w <= |dense| && ids == DenseElems(dense, w)
    {
      var word := dense[w];
      while word != 0
        invariant ids + WordElems(word, w * 64, 64) == DenseElems(dense, w + 1)
        decreases |WordElems(word, w * 64, 64)|
      {
        PopLowest(word, w * 64);
        var bit := TrailingZeros(word);
        assert ids + ([w * 64 + bit] + WordElems(word & (word - 1), w * 64, 64))
            == (ids + [w * 64 + bit]) + WordElems(word & (word - 1), w * 64, 64);
        ids := ids + [w * 64 + bit];
        word := word & (word - 1);
      }
      NoneInZero(w * 64, 64);
      w := w + 1;
    }
  }

  method CountDense(dense: seq<bv64>) returns (card: nat)
    ensures card == |DenseElems(dense, |dense|)|
  {
    hide OnesCount, DenseElems;
    card := 0;
    var w := 0;
    while w < |dense|
      invariant w <= |dense| && card == DenseCount(dense, w)
    {
      card := card + OnesCount(dense[w], 64);
      w := w + 1;
    }
    DenseCountIs(dense, |dense|);
  }

  // ORs a sorted array into a dense chunk.
  method FillArray(dense0: seq<bv64>, arr: seq<nat>) returns (dense: seq<bv64>)
    requires |dense0| == DENSE_WORDS && forall x | x in arr :: x < CHUNK
    ensures |dense| == DENSE_WORDS
    ensures forall x :: DenseHas(dense, x) <==> DenseHas(dense0, x) || x in arr
  {
    hide DenseHas, SetBit;
    dense := dense0;
    var i := 0;
    while i < |arr|
      invariant i <= |arr| && |dense| == DENSE_WORDS
      invariant forall x :: DenseHas(dense, x) <==> DenseHas(dense0, x) || x in arr[..i]
    {
      var lo := arr[i];
      assert arr[..i + 1] == arr[..i] + [lo] && lo in arr;
      SetBitIs(dense, lo);
      dense := SetBit(dense, lo);
      i := i + 1;
    }
    assert arr[..|arr|] == arr;
  }

  method FillDense(dense0: seq<bv64>, other: seq<bv64>) returns (dense: seq<bv64>)
    requires |dense0| == |other|
    ensures |dense| == |dense0|
    ensures forall x :: DenseHas(dense, x) <==> DenseHas(dense0, x) || DenseHas(other, x)
  {
    hide DenseHas;
    dense := dense0;
    var w := 0;
    while w < |dense|
      invariant w <= |dense| == |dense0|
      invariant forall k | 0 <= k < w :: dense[k] == dense0[k] | other[k]
      invariant forall k | w <= k < |dense| :: dense[k] == dense0[k]
    {
      dense := dense[w := dense[w] | other[w]];
      w := w + 1;
    }
    OrWords(dense0, other, dense);
  }

  method AndDense(a: seq<bv64>, b: seq<bv64>) returns (dense: seq<bv64>, card: nat)
    requires |a| == |b|
    ensures |dense| == |a| && card == |DenseElems(dense, |dense|)|
    ensures forall x :: DenseHas(dense, x) <==> DenseHas(a, x) && DenseHas(b, x)
  {
    hide DenseHas, DenseElems, OnesCount;
    dense, card := [], 0;
    while |dense| < |a|
      invariant |dense| <= |a| && card == DenseCount(dense, |dense|)
      invariant forall k | 0 <= k < |dense| :: dense[k] == a[k] & b[k]
    {
      var word := a[|dense|] & b[|dense|];
      DenseElemsPrefix(dense, dense + [word], |dense|);
      card := card + OnesCount(word, 64);
      dense := dense + [word];
    }
    DenseCountIs(dense, |dense|);
    AndWords(a, b, dense);
  }

  // Probes a sorted array against a bitset.
  method IntersectArrayDense(arr: seq<nat>, dense: seq<bv64>) returns (out: seq<nat>)
    requires Ascending(arr)
    ensures Ascending(out) && |out| <= |arr|
    ensures forall x :: x in out <==> x in arr && DenseHas(dense, x)
  {
    hide DenseHas;
    out := [];
    var i := 0;
    while i < |arr|
      invariant i <= |arr| && |out| <= i && Ascending(out)
      invariant forall x :: x in out <==> x in arr[..i] && DenseHas(dense, x)
    {
      assert arr[..i + 1] == arr[..i] + [arr[i]];
      if DenseHas(dense, arr[i]) {
        AscendingAppend(out, [arr[i]]);
        out := out + [arr[i]];
      }
      i := i + 1;
    }
    assert arr[..|arr|] == arr;
  }

  // The two-pointer merge of two sorted arrays.
  method IntersectArrays(a: seq<nat>, b: seq<nat>) returns (out: seq<nat>)
    requires Ascending(a) && Ascending(b)
    ensures Ascending(out) && |out| <= |a|
    ensures forall x :: x in out <==> x in a && x in b
  {
    hide Ascending;
    AscendingNone();
    out := [];
    var i, j := 0, 0;
    assert a[0..] == a && b[0..] == b;
    while i < |a| && j < |b|
      invariant i <= |a| && j <= |b| && |out| <= i && Ascending(out)
      invariant forall x | x in out :: x in a && x in b && (i < |a| ==> x < a[i]) && (j < |b| ==> x < b[j])
      invariant forall x | x in a && x in b :: x in out || (x in a[i..] && x in b[j..])
    {
      TailFrom(a, i);
      TailFrom(b, j);
      if a[i] < b[j] {
        i := i + 1;
      } else if a[i] > b[j] {
        j := j + 1;
      } else {
        AscendingPush(out, a[i]);
        out := out + [a[i]];
        i, j := i + 1, j + 1;
      }
    }
  }

  lemma {:induction false} TailFrom(s: seq<nat>, i: nat)
    requires Ascending(s) && i < |s|
    ensures s[i..] == [s[i]] + s[i + 1..] && (i + 1 < |s| ==> s[i] < s[i + 1])
    ensures var t := s[i + 1..]; forall x | x in t :: x > s[i]
  {
  }

  // ---------------------------------------------------------------- one chunk

  // Exactly one of arr and dense is in use: dense is empty for a sparse chunk.
  class Container {
    var arr: seq<nat>
    var dense: seq<bv64>
    var cardinality: nat

    // The chunk's ids in ascending order: what the container stands for.
    ghost function Elems(): seq<nat>
      reads this
    {
      if dense == [] then arr else DenseElems(dense, |dense|)
    }

    ghost predicate Valid()
      reads this
    {
      && cardinality == |Elems()|
      && if dense == [] then Ascending(arr) && (forall x | x in arr :: x < CHUNK) && |arr| <= ARRAY_MAX
         else |dense| == DENSE_WORDS && arr == []
    }

    lemma {:induction false} ElemsAscend()
      requires Valid()
      ensures Ascending(Elems()) && forall x | x in Elems() :: x < CHUNK
      ensures dense != [] ==> forall x :: x in Elems() <==> DenseHas(dense, x)
    {
      hide Bit, DenseElems;
      if dense != [] { DenseElemsAre(dense); }
    }

    constructor ()
      ensures Valid() && Elems() == []
    {
      arr, dense, cardinality := [], [], 0;
    }

    constructor OfArray(arr: seq<nat>)
      requires Ascending(arr) && (forall x | x in arr :: x < CHUNK) && |arr| <= ARRAY_MAX
      ensures Valid() && Elems() == arr
    {
      this.arr, dense, cardinality := arr, [], |arr|;
    }

    constructor OfDense(dense: seq<bv64>, card: nat)
      requires |dense| == DENSE_WORDS && card == |DenseElems(dense, |dense|)|
      ensures Valid() && this.dense == dense && Elems() == DenseElems(dense, |dense|) && cardinality == card
    {
      hide DenseElems;
      arr, this.dense, cardinality := [], dense, card;
    }

    method Add(lo: nat)
      requires Valid() && lo < CHUNK
      modifies this
      ensures Valid() && forall x :: x in Elems() <==> x in old(Elems()) || x == lo
    {
      hide DenseHas, DenseElems, SetBit;
      ElemsAscend();
      if |dense| != 0 {
        if !DenseHas(dense, lo) {
          SetBitIs(dense, lo);
          ghost var was := Elems();
          dense := SetBit(dense, lo);
          DenseElemsAre(dense);
          AscendingGain(was, Elems(), lo);
          cardinality := cardinality + 1;
        }
        return;
      }
      var i := Search(arr, lo);
      if i < |arr| && arr[i] == lo {
        return;
      }
      ShiftInAscending(arr, i, lo);
      arr := ShiftIn(arr, i, lo);
      cardinality := cardinality + 1;
      if |arr| > ARRAY_MAX {
        ToDense();
      }
    }

    method Contains(lo: nat) returns (found: bool)
      requires Valid() && lo < CHUNK
      ensures found <==> lo in Elems()
    {
      hide DenseHas, DenseElems;
      ElemsAscend();
      if |dense| != 0 {
        return DenseHas(dense, lo);
      }
      var i := Search(arr, lo);
      found := i < |arr| && arr[i] == lo;
    }

    // Promotes a sorted array to a bitset of the same ids.
    method ToDense()
      requires dense == [] && Ascending(arr) && (forall x | x in arr :: x < CHUNK) && cardinality == |arr|
      modifies this
      ensures Valid() && Elems() == old(arr) && dense != []
    {
      hide DenseHas, DenseElems, Ascending;
      ZerosHaveNone(DENSE_WORDS);
      var filled := FillArray(Zeros(DENSE_WORDS), arr);
      DenseElemsAre(filled);
      AscendingUnique(arr, DenseElems(filled, |filled|));
      dense := filled;
      arr := [];
    }

    // Compacts a bitset back to the sorted array of the same ids.
    method ToArray()
      requires Valid() && dense != [] && cardinality <= ARRAY_MAX
      modifies this
      ensures Valid() && Elems() == old(Elems()) && dense == []
    {
      hide DenseElems;
      ElemsAscend();
      arr := ScanDense(dense);
      dense := [];
    }

    // Visits every id in ascending order, offset by the chunk's position.
    method Each(hi: nat) returns (visited: seq<nat>)
      requires Valid()
      ensures visited == Offset(Elems(), hi * CHUNK)
    {
      if |dense| != 0 {
        var ids := ScanDense(dense);
        return Offset(ids, hi * CHUNK);
      }
      visited := Offset(arr, hi * CHUNK);
    }

    method And(other: Container) returns (out: Container, some: bool)
      requires Valid() && other.Valid()
      ensures fresh(out) && out.Valid() && (some <==> out.Elems() != [])
      ensures forall x :: x in out.Elems() <==> x in Elems() && x in other.Elems()
    {
      hide DenseHas, DenseElems, Ascending;
      ElemsAscend();
      other.ElemsAscend();
      if |dense| != 0 && |other.dense| != 0 {
        var both, card := AndDense(dense, other.dense);
        out := new Container.OfDense(both, card);
        out.ElemsAscend();
      } else if |dense| != 0 {
        var hits := IntersectArrayDense(other.arr, dense);
        out := new Container.OfArray(hits);
      } else if |other.dense| != 0 {
        var hits := IntersectArrayDense(arr, other.dense);
        out := new Container.OfArray(hits);
      } else {
        var hits := IntersectArrays(arr, other.arr);
        out := new Container.OfArray(hits);
      }
      some := out.cardinality > 0;
    }

    method Fill(dense0: seq<bv64>) returns (filled: seq<bv64>)
      requires Valid() && |dense0| == DENSE_WORDS
      ensures |filled| == DENSE_WORDS
      ensures forall x :: DenseHas(filled, x) <==> DenseHas(dense0, x) || x in Elems()
    {
      hide DenseHas, DenseElems;
      ElemsAscend();
      if |dense| != 0 {
        filled := FillDense(dense0, dense);
        return;
      }
      filled := FillArray(dense0, arr);
    }

    method Or(other: Container) returns (out: Container)
      requires Valid() && other.Valid()
      ensures fresh(out) && out.Valid()
      ensures forall x :: x in out.Elems() <==> x in Elems() || x in other.Elems()
    {
      hide DenseHas, DenseElems, Ascending;
      ZerosHaveNone(DENSE_WORDS);
      var scratch := Fill(Zeros(DENSE_WORDS));
      scratch := other.Fill(scratch);
      var card := CountDense(scratch);
      out := new Container.OfDense(scratch, card);
      out.ElemsAscend();
      if card <= ARRAY_MAX {
        out.ToArray();
      }
    }

    // A copy that shares nothing with the original.
    method Clone() returns (out: Container)
      requires Valid()
      ensures fresh(out) && out.Valid() && out.Elems() == Elems()
    {
      if |dense| != 0 {
        out := new Container.OfDense(dense, cardinality);
      } else {
        out := new Container.OfArray(arr);
      }
    }
  }

  // ---------------------------------------------------------------- chunks together

  function Offset(s: seq<nat>, base: nat): (r: seq<nat>)
    ensures |r| == |s| && forall i | 0 <= i < |r| :: r[i] == base + s[i]
  {
    seq(|s|, (i: int) requires 0 <= i < |s| => base + s[i])
  }

  lemma {:induction false} OffsetHas(s: seq<nat>, base: nat)
    ensures forall x :: x in Offset(s, base) <==> x >= base && x - base in s
    ensures Ascending(s) ==> Ascending(Offset(s, base))
  {
    var r := Offset(s, base);
    forall x ensures x in r <==> x >= base && x - base in s {
      if x in r {
        var k :| 0 <= k < |r| && r[k] == x;
        assert s[k] == x - base;
      }
      if x >= base && x - base in s {
        var k :| 0 <= k < |s| && s[k] == x - base;
        assert r[k] == x;
      }
    }
  }

  // The ids of a list of chunks, in order.
  function Flatten(keys: seq<nat>, chunks: seq<seq<nat>>): seq<nat>
    requires |keys| == |chunks|
    decreases |keys|
  {
    if keys == [] then [] else
    var n := |keys| - 1;
    Flatten(keys[..n], chunks[..n]) + Offset(chunks[n], keys[n] * CHUNK)
  }

  // Id x = 65536 * hi + lo is in the chunk keyed hi.
  ghost predicate InChunks(keys: seq<nat>, chunks: seq<seq<nat>>, hi: int, lo: int) {
    |keys| == |chunks| && exists i :: 0 <= i < |keys| && keys[i] == hi && lo in chunks[i]
  }

  ghost predicate ChunksOk(keys: seq<nat>, chunks: seq<seq<nat>>) {
    && |keys| == |chunks| && Ascending(keys)
    && forall i | 0 <= i < |chunks| :: ChunkOk(chunks[i])
  }

  ghost predicate ChunkOk(c: seq<nat>) {
    Ascending(c) && forall x | x in c :: x < CHUNK
  }

  // The chunk an id is in, and its place there.
  function Hi(id: nat): nat { id / CHUNK }

  function Lo(id: nat): (lo: nat)
    ensures lo < CHUNK
  {
    id % CHUNK
  }

  lemma {:induction false} SplitId(x: nat, y: nat)
    ensures x == y <==> Hi(x) == Hi(y) && Lo(x) == Lo(y)
    ensures Hi(x) < Hi(y) ==> x < y
  {
  }

  // The ids of well-formed chunks are ascending, and are those whose chunk holds them.
  lemma {:induction false} FlattenIs(keys: seq<nat>, chunks: seq<seq<nat>>)
    requires ChunksOk(keys, chunks)
    ensures Ascending(Flatten(keys, chunks))
    ensures forall x: nat :: x in Flatten(keys, chunks) <==> InChunks(keys, chunks, Hi(x), Lo(x))
    decreases |keys|
  {
    hide Ascending, InChunks, Hi, Lo;
    if keys == [] {
      AscendingNone();
      NoChunks();
    } else {
      var n := |keys| - 1;
      ChunksPrefix(keys, chunks);
      FlattenIs(keys[..n], chunks[..n]);
      var a, b := Flatten(keys[..n], chunks[..n]), Offset(chunks[n], keys[n] * CHUNK);
      OffsetHas(chunks[n], keys[n] * CHUNK);
      forall x: nat ensures x in b <==> Hi(x) == keys[n] && Lo(x) in chunks[n] { LastChunk(keys[n], chunks[n], x); }
      forall x: nat ensures InChunks(keys, chunks, Hi(x), Lo(x)) <==> x in a || x in b {
        InChunksLast(keys, chunks, Hi(x), Lo(x));
      }
      forall x, y | x in a && y in b ensures x < y {
        EarlierKey(keys, chunks, Hi(x), Lo(x));
        SplitId(x, y);
      }
      AscendingAppend(a, b);
    }
  }

  lemma {:induction false} NoChunks()
    ensures forall hi, lo :: !InChunks([], [], hi, lo)
  {
  }

  lemma {:induction false} ChunksPrefix(keys: seq<nat>, chunks: seq<seq<nat>>)
    requires ChunksOk(keys, chunks) && keys != []
    ensures ChunksOk(keys[..|keys| - 1], chunks[..|keys| - 1]) && ChunkOk(chunks[|keys| - 1])
  {
  }

  lemma {:induction false} LastChunk(key: nat, chunk: seq<nat>, x: nat)
    requires ChunkOk(chunk)
    ensures x >= key * CHUNK && x - key * CHUNK in chunk <==> Hi(x) == key && Lo(x) in chunk
  {
  }

  lemma {:induction false} InChunksLast(keys: seq<nat>, chunks: seq<seq<nat>>, hi: int, lo: int)
    requires keys != [] && |keys| == |chunks|
    ensures var n := |keys| - 1;
            InChunks(keys, chunks, hi, lo) <==> InChunks(keys[..n], chunks[..n], hi, lo) || (hi == keys[n] && lo in chunks[n])
  {
    var n := |keys| - 1;
    if InChunks(keys[..n], chunks[..n], hi, lo) {
      var i :| 0 <= i < n && keys[..n][i] == hi && lo in chunks[..n][i];
      assert keys[i] == hi && lo in chunks[i];
    }
    if InChunks(keys, chunks, hi, lo) {
      var i :| 0 <= i < |keys| && keys[i] == hi && lo in chunks[i];
      if i < n { assert keys[..n][i] == hi && lo in chunks[..n][i]; }
    }
  }

  lemma {:induction false} EarlierKey(keys: seq<nat>, chunks: seq<seq<nat>>, hi: int, lo: int)
    requires ChunksOk(keys, chunks) && keys != [] && InChunks(keys[..|keys| - 1], chunks[..|keys| - 1], hi, lo)
    ensures hi < keys[|keys| - 1]
  {
  }

  // ---------------------------------------------------------------- the bitmap

  class Bitmap {
    var keys: seq<nat>
    var containers: seq<Container>

    ghost function Chunks(): (r: seq<seq<nat>>)
      reads this, containers
      ensures |r| == |containers| && forall i | 0 <= i < |r| :: r[i] == containers[i].Elems()
    {
      seq(|containers|, i requires 0 <= i < |containers| reads this, containers => containers[i].Elems())
    }

    ghost predicate Valid()
      reads this, containers
    {
      && |keys| == |containers| && Ascending(keys)
      && (forall i, j | 0 <= i < j < |containers| :: containers[i] != containers[j])
      && (forall i | 0 <= i < |containers| :: containers[i].Valid())
    }

    // The set, as the ascending list of its ids.
    ghost function Elems(): seq<nat>
      requires Valid()
      reads this, containers
    {
      Flatten(keys, Chunks())
    }

    ghost predicate Has(x: nat)
      reads this, containers
    {
      InChunks(keys, Chunks(), Hi(x), Lo(x))
    }

    lemma {:induction false} ChunksAreOk()
      requires Valid()
      ensures ChunksOk(keys, Chunks())
    {
      forall i | 0 <= i < |containers| ensures ChunkOk(Chunks()[i]) { containers[i].ElemsAscend(); }
    }

    lemma {:induction false} ElemsAre()
      requires Valid()
      ensures Ascending(Elems()) && forall x: nat :: x in Elems() <==> Has(x)
    {
      ChunksAreOk();
      FlattenIs(keys, Chunks());
    }

    constructor ()
      ensures Valid() && Elems() == [] && containers == []
    {
      keys, containers := [], [];
    }

    constructor Of(keys: seq<nat>, containers: seq<Container>)
      requires |keys| == |containers| && Ascending(keys)
      requires forall i, j | 0 <= i < j < |containers| :: containers[i] != containers[j]
      requires forall i | 0 <= i < |containers| :: containers[i].Valid()
      ensures Valid() && this.keys == keys && this.containers == containers
    {
      this.keys, this.containers := keys, containers;
    }

    method Add(id: nat)
      requires Valid()
      modifies this, containers
      ensures Valid() && forall x: nat :: x in Elems() <==> x in old(Elems()) || x == id
      ensures forall k | 0 <= k < |containers| :: containers[k] in old(containers) || fresh(containers[k])
    {
      hide Flatten, InChunks, Hi, Lo, Ascending;
      ElemsAre();
      var hi, lo := Hi(id), Lo(id);
      var i := Search(keys, hi);
      if i < |keys| && keys[i] == hi {
        AddTo(i, lo);
      } else {
        Insert(i, hi, lo);
      }
      ElemsAre();
      forall x: nat ensures x in Elems() <==> x in old(Elems()) || x == id { SplitId(x, id); }
    }

    method AddTo(i: nat, lo: nat)
      requires Valid() && i < |containers| && lo < CHUNK
      modifies containers[i]
      ensures Valid()
      ensures forall h, l :: InChunks(keys, Chunks(), h, l) <==> InChunks(keys, old(Chunks()), h, l) || (h == keys[i] && l == lo)
    {
      hide Ascending, InChunks, Container.Valid, Container.Elems;
      ghost var was := Chunks();
      containers[i].Add(lo);
      assert Chunks() == was[i := containers[i].Elems()];
      GrowChunk(keys, was, i, Chunks()[i], lo);
    }

    // A fresh chunk at position i, keeping the keys sorted.
    method Insert(i: nat, hi: nat, lo: nat)
      requires Valid() && i <= |keys| && lo < CHUNK
      requires (forall j | 0 <= j < i :: keys[j] < hi) && (forall j | i <= j < |keys| :: keys[j] > hi)
      modifies this
      ensures Valid()
      ensures forall h, l :: InChunks(keys, Chunks(), h, l) <==> InChunks(old(keys), old(Chunks()), h, l) || (h == hi && l == lo)
      ensures forall k | 0 <= k < |containers| :: containers[k] in old(containers) || fresh(containers[k])
    {
      hide InChunks, Ascending, Container.Valid, Container.Elems;
      ghost var was := Chunks();
      var c := new Container();
      c.Add(lo);
      ShiftInAscending(keys, i, hi);
      keys := ShiftIn(keys, i, hi);
      ghost var held := containers;
      InsertedAt(held, i, c);
      InsertedAt(was, i, c.Elems());
      containers := containers[..i] + [c] + containers[i..];
      InsertedDistinct(held, i, c, containers);
      assert forall j | 0 <= j < |containers| :: containers[j].Valid();
      assert Chunks() == was[..i] + [c.Elems()] + was[i..];
      NewChunk(old(keys), was, i, hi, c.Elems(), lo);
    }

    method Contains(id: nat) returns (found: bool)
      requires Valid()
      ensures found <==> id in Elems()
    {
      hide Flatten, Hi, Lo, Container.Valid, Container.Elems;
      ElemsAre();
      var hi, lo := Hi(id), Lo(id);
      var i := Search(keys, hi);
      if i >= |keys| || keys[i] != hi {
        return false;
      }
      found := containers[i].Contains(lo);
      assert found == (lo in Chunks()[i]);
    }

    // The number of ids, from the cached cardinalities.
    method Len() returns (n: nat)
      requires Valid()
      ensures n == |Elems()|
    {
      hide Ascending, Container.Elems;
      n := 0;
      var i := 0;
      ghost var chunks := Chunks();
      while i < |containers|
        invariant i <= |containers| && n == |Flatten(keys[..i], chunks[..i])|
      {
        assert keys[..i + 1][..i] == keys[..i] && chunks[..i + 1][..i] == chunks[..i];
        n := n + containers[i].cardinality;
        i := i + 1;
      }
      assert keys[..|keys|] == keys && chunks[..|keys|] == chunks;
    }

    // Every id once, ascending.
    method Each() returns (visited: seq<nat>)
      requires Valid()
      ensures visited == Elems()
    {
      hide Ascending, Container.Valid, Container.Elems;
      visited := [];
      var i := 0;
      ghost var chunks := Chunks();
      while i < |keys|
        invariant i <= |keys| && visited == Flatten(keys[..i], chunks[..i])
      {
        assert keys[..i + 1][..i] == keys[..i] && chunks[..i + 1][..i] == chunks[..i];
        var more := containers[i].Each(keys[i]);
        visited := visited + more;
        i := i + 1;
      }
      assert keys[..|keys|] == keys && chunks[..|keys|] == chunks;
    }

    method ToSorted() returns (ids: seq<nat>)
      requires Valid()
      ensures ids == Elems() && Ascending(ids)
    {
      ElemsAre();
      ids := Each();
    }

    // Intersection: the matching chunks of two sorted key lists, intersected, empty ones dropped.
    method And(other: Bitmap) returns (out: Bitmap)
      requires Valid() && other.Valid()
      ensures fresh(out) && fresh(out.containers) && out.Valid()
      ensures forall x: nat :: x in out.Elems() <==> x in Elems() && x in other.Elems()
    {
      hide Flatten, InChunks, Hi, Lo, Ascending, AndSoFar, Container.Valid, Container.Elems;
      ElemsAre();
      other.ElemsAre();
      out := new Bitmap();
      var i, j := 0, 0;
      AndStart(keys, Chunks(), other.keys, other.Chunks());
      while i < |keys| && j < |other.keys|
        invariant i <= |keys| && j <= |other.keys|
        invariant out.Valid() && fresh(out.containers)
        invariant AndSoFar(keys, Chunks(), i, other.keys, other.Chunks(), j, out.keys, out.Chunks())
        modifies out
      {
        if keys[i] < other.keys[j] {
          AndSkip(keys, Chunks(), i, other.keys, other.Chunks(), j, out.keys, out.Chunks());
          i := i + 1;
        } else if keys[i] > other.keys[j] {
          AndSkip(keys, Chunks(), i, other.keys, other.Chunks(), j, out.keys, out.Chunks());
          j := j + 1;
        } else {
          var c, some := containers[i].And(other.containers[j]);
          AndMeet(keys, Chunks(), i, other.keys, other.Chunks(), j, out.keys, out.Chunks(), c.Elems());
          if some {
            out.Append(keys[i], c);
          }
          i, j := i + 1, j + 1;
        }
      }
      out.ElemsAre();
      AndDone(keys, Chunks(), i, other.keys, other.Chunks(), j, out.keys, out.Chunks());
    }

    // Union: every chunk of either, copied, or united where both have it.
    method Or(other: Bitmap) returns (out: Bitmap)
      requires Valid() && other.Valid()
      ensures fresh(out) && fresh(out.containers) && out.Valid()
      ensures forall x: nat :: x in out.Elems() <==> x in Elems() || x in other.Elems()
    {
      hide Flatten, InChunks, Hi, Lo, Ascending, OrSoFar, Container.Valid, Container.Elems;
      ElemsAre();
      other.ElemsAre();
      out := new Bitmap();
      var i, j := 0, 0;
      OrStart(keys, Chunks(), other.keys, other.Chunks());
      while i < |keys| || j < |other.keys|
        invariant i <= |keys| && j <= |other.keys|
        invariant out.Valid() && fresh(out.containers)
        invariant OrSoFar(keys, Chunks(), i, other.keys, other.Chunks(), j, out.keys, out.Chunks())
        decreases |keys| - i + |other.keys| - j
        modifies out
      {
        if j >= |other.keys| || (i < |keys| && keys[i] < other.keys[j]) {
          OrLeft(keys, Chunks(), i, other.keys, other.Chunks(), j, out.keys, out.Chunks());
          out.AppendClone(keys[i], containers[i]);
          i := i + 1;
        } else if i >= |keys| || (j < |other.keys| && other.keys[j] < keys[i]) {
          OrRight(keys, Chunks(), i, other.keys, other.Chunks(), j, out.keys, out.Chunks());
          out.AppendClone(other.keys[j], other.containers[j]);
          j := j + 1;
        } else {
          ghost var ko, co := out.keys, out.Chunks();
          OrBound(keys, Chunks(), i, other.keys, other.Chunks(), j, ko, co);
          var either := out.AppendUnion(keys[i], containers[i], other.containers[j]);
          OrMeet(keys, Chunks(), i, other.keys, other.Chunks(), j, ko, co, either);
          i, j := i + 1, j + 1;
        }
      }
      out.ElemsAre();
      OrDone(keys, Chunks(), i, other.keys, other.Chunks(), j, out.keys, out.Chunks());
    }

    method AppendClone(key: nat, from: Container)
      requires Valid() && from.Valid() && forall k | k in keys :: k < key
      modifies this
      ensures Valid() && keys == old(keys) + [key] && Chunks() == old(Chunks()) + [from.Elems()]
      ensures forall k | 0 <= k < |containers| :: containers[k] in old(containers) || fresh(containers[k])
    {
      hide Ascending, Container.Valid, Container.Elems;
      var c := from.Clone();
      Append(key, c);
    }

    method AppendUnion(key: nat, a: Container, b: Container) returns (ghost either: seq<nat>)
      requires Valid() && a.Valid() && b.Valid() && forall k | k in keys :: k < key
      modifies this
      ensures Valid() && keys == old(keys) + [key] && Chunks() == old(Chunks()) + [either]
      ensures forall x :: x in either <==> x in a.Elems() || x in b.Elems()
      ensures forall k | 0 <= k < |containers| :: containers[k] in old(containers) || fresh(containers[k])
    {
      hide Ascending, Container.Valid, Container.Elems;
      var c := a.Or(b);
      either := c.Elems();
      Append(key, c);
    }

    method Append(key: nat, c: Container)
      requires Valid() && c.Valid() && c !in containers
      requires forall k | k in keys :: k < key
      modifies this
      ensures Valid() && keys == old(keys) + [key] && containers == old(containers) + [c]
      ensures Chunks() == old(Chunks()) + [c.Elems()]
    {
      hide Ascending, Container.Valid, Container.Elems;
      AscendingPush(keys, key);
      keys := keys + [key];
      containers := containers + [c];
    }
  }

  // The merge so far: out holds the common ids of the chunks passed, the rest is still ahead.
  ghost predicate AndSoFar(ka: seq<nat>, ca: seq<seq<nat>>, i: nat, kb: seq<nat>, cb: seq<seq<nat>>, j: nat, ko: seq<nat>, co: seq<seq<nat>>) {
    && (forall k | k in ko :: (i < |ka| ==> k < ka[i]) && (j < |kb| ==> k < kb[j]))
    && (forall h, l :: InChunks(ko, co, h, l) ==> InChunks(ka, ca, h, l) && InChunks(kb, cb, h, l))
    && (forall h, l :: InChunks(ka, ca, h, l) && InChunks(kb, cb, h, l) ==>
          InChunks(ko, co, h, l) || (InTail(ka, i, h) && InTail(kb, j, h)))
  }

  lemma {:induction false} AndStart(ka: seq<nat>, ca: seq<seq<nat>>, kb: seq<nat>, cb: seq<seq<nat>>)
    requires Ascending(ka) && Ascending(kb)
    ensures AndSoFar(ka, ca, 0, kb, cb, 0, [], [])
  {
    hide Ascending;
    forall h | h in ka ensures InTail(ka, 0, h) { HeadLeast(ka, h); }
    forall h | h in kb ensures InTail(kb, 0, h) { HeadLeast(kb, h); }
  }

  lemma {:induction false} HeadLeast(ks: seq<nat>, h: nat)
    requires Ascending(ks) && h in ks
    ensures InTail(ks, 0, h)
  {
  }

  ghost predicate InTail(ks: seq<nat>, i: nat, h: int) {
    i < |ks| && ks[i] <= h
  }

  lemma {:induction false} NextTail(ks: seq<nat>, i: nat, h: int)
    requires Ascending(ks) && i < |ks| && InTail(ks, i, h) && h != ks[i] && h in ks
    ensures InTail(ks, i + 1, h)
  {
    var m :| 0 <= m < |ks| && ks[m] == h;
  }

  lemma {:induction false} KeyOf(ks: seq<nat>, cs: seq<seq<nat>>, h: int, l: int)
    requires InChunks(ks, cs, h, l)
    ensures h in ks
  {
  }

  lemma {:induction false} AndSkip(ka: seq<nat>, ca: seq<seq<nat>>, i: nat, kb: seq<nat>, cb: seq<seq<nat>>, j: nat, ko: seq<nat>, co: seq<seq<nat>>)
    requires Ascending(ka) && Ascending(kb) && i < |ka| && j < |kb| && AndSoFar(ka, ca, i, kb, cb, j, ko, co)
    ensures ka[i] < kb[j] ==> AndSoFar(ka, ca, i + 1, kb, cb, j, ko, co)
    ensures ka[i] > kb[j] ==> AndSoFar(ka, ca, i, kb, cb, j + 1, ko, co)
  {
    hide InChunks, Ascending;
    NextKey(ka, i);
    NextKey(kb, j);
    forall h, l | InChunks(ka, ca, h, l) && InChunks(kb, cb, h, l)
      ensures ka[i] < kb[j] ==> InChunks(ko, co, h, l) || (InTail(ka, i + 1, h) && InTail(kb, j, h))
      ensures ka[i] > kb[j] ==> InChunks(ko, co, h, l) || (InTail(ka, i, h) && InTail(kb, j + 1, h))
    {
      KeyOf(ka, ca, h, l);
      KeyOf(kb, cb, h, l);
      if !InChunks(ko, co, h, l) {
        if ka[i] < kb[j] { NextTail(ka, i, h); }
        if ka[i] > kb[j] { NextTail(kb, j, h); }
      }
    }
  }

  lemma {:induction false} NextKey(ks: seq<nat>, i: nat)
    requires Ascending(ks) && i < |ks|
    ensures i + 1 < |ks| ==> ks[i] < ks[i + 1]
  {
  }

  lemma {:induction false} AtKey(ks: seq<nat>, cs: seq<seq<nat>>, i: nat, l: int)
    requires Ascending(ks) && |ks| == |cs| && i < |ks|
    ensures InChunks(ks, cs, ks[i], l) <==> l in cs[i]
  {
  }

  lemma {:induction false} PushChunk(ks: seq<nat>, cs: seq<seq<nat>>, key: nat, chunk: seq<nat>)
    requires |ks| == |cs|
    ensures forall h, l :: InChunks(ks + [key], cs + [chunk], h, l) <==> InChunks(ks, cs, h, l) || (h == key && l in chunk)
  {
    var ks', cs' := ks + [key], cs + [chunk];
    assert ks'[..|ks|] == ks && cs'[..|ks|] == cs;
    forall h, l ensures InChunks(ks', cs', h, l) <==> InChunks(ks, cs, h, l) || (h == key && l in chunk) {
      InChunksLast(ks', cs', h, l);
    }
  }

  lemma {:induction false} AndMeet(ka: seq<nat>, ca: seq<seq<nat>>, i: nat, kb: seq<nat>, cb: seq<seq<nat>>, j: nat, ko: seq<nat>, co: seq<seq<nat>>, both: seq<nat>)
    requires Ascending(ka) && Ascending(kb) && i < |ka| && j < |kb| && AndSoFar(ka, ca, i, kb, cb, j, ko, co)
    requires |ka| == |ca| && |kb| == |cb| && |ko| == |co| && ka[i] == kb[j]
    requires forall x :: x in both <==> x in ca[i] && x in cb[j]
    ensures both == [] ==> AndSoFar(ka, ca, i + 1, kb, cb, j + 1, ko, co)
    ensures AndSoFar(ka, ca, i + 1, kb, cb, j + 1, ko + [ka[i]], co + [both]) && forall k | k in ko :: k < ka[i]
  {
    hide InChunks, Ascending;
    NextKey(ka, i);
    NextKey(kb, j);
    PushChunk(ko, co, ka[i], both);
    forall h, l | InChunks(ka, ca, h, l) && InChunks(kb, cb, h, l)
      ensures InChunks(ko, co, h, l) || (h == ka[i] && l in both) || (InTail(ka, i + 1, h) && InTail(kb, j + 1, h))
    {
      KeyOf(ka, ca, h, l);
      KeyOf(kb, cb, h, l);
      if !InChunks(ko, co, h, l) {
        if h == ka[i] {
          AtKey(ka, ca, i, l);
          AtKey(kb, cb, j, l);
        } else {
          NextTail(ka, i, h);
          NextTail(kb, j, h);
        }
      }
    }
    forall l | l in both ensures InChunks(ka, ca, ka[i], l) && InChunks(kb, cb, ka[i], l) {
      AtKey(ka, ca, i, l);
      AtKey(kb, cb, j, l);
    }
  }

  lemma {:induction false} AndDone(ka: seq<nat>, ca: seq<seq<nat>>, i: nat, kb: seq<nat>, cb: seq<seq<nat>>, j: nat, ko: seq<nat>, co: seq<seq<nat>>)
    requires AndSoFar(ka, ca, i, kb, cb, j, ko, co) && (i >= |ka| || j >= |kb|)
    ensures forall h, l :: InChunks(ko, co, h, l) <==> InChunks(ka, ca, h, l) && InChunks(kb, cb, h, l)
  {
    hide InChunks;
  }

  lemma {:induction false} InsertedAt<T>(s: seq<T>, i: nat, x: T)
    requires i <= |s|
    ensures var r := s[..i] + [x] + s[i..];
            |r| == |s| + 1 && forall k | 0 <= k < |r| :: r[k] == if k < i then s[k] else if k == i then x else s[k - 1]
  {
  }

  lemma {:induction false} InsertedDistinct<T>(s: seq<T>, i: nat, x: T, r: seq<T>)
    requires i <= |s| && x !in s && forall j, k | 0 <= j < k < |s| :: s[j] != s[k]
    requires r == s[..i] + [x] + s[i..]
    ensures forall j, k | 0 <= j < k < |r| :: r[j] != r[k]
  {
    forall j, k | 0 <= j < k < |r| ensures r[j] != r[k] {
      if j == i {
        assert r[k] == s[k - 1] && s[k - 1] in s;
      } else if k == i {
        assert r[j] == s[j] && s[j] in s;
      }
    }
  }

  lemma {:induction false} GrowChunk(keys: seq<nat>, was: seq<seq<nat>>, i: nat, grown: seq<nat>, lo: nat)
    requires |keys| == |was| && i < |was| && Ascending(keys)
    requires forall x :: x in grown <==> x in was[i] || x == lo
    ensures forall h, l :: InChunks(keys, was[i := grown], h, l) <==> InChunks(keys, was, h, l) || (h == keys[i] && l == lo)
  {
    var now := was[i := grown];
    forall h, l ensures InChunks(keys, now, h, l) <==> InChunks(keys, was, h, l) || (h == keys[i] && l == lo) {
      if InChunks(keys, was, h, l) {
        var j :| 0 <= j < |keys| && keys[j] == h && l in was[j];
        assert l in now[j];
      }
      if h == keys[i] && l == lo { assert l in now[i]; }
    }
  }

  lemma {:induction false} NewChunk(keys: seq<nat>, was: seq<seq<nat>>, i: nat, hi: nat, chunk: seq<nat>, lo: nat)
    requires |keys| == |was| && i <= |was|
    requires forall x :: x in chunk <==> x == lo
    ensures var keys', now := keys[..i] + [hi] + keys[i..], was[..i] + [chunk] + was[i..];
            forall h, l :: InChunks(keys', now, h, l) <==> InChunks(keys, was, h, l) || (h == hi && l == lo)
  {
    var keys', now := keys[..i] + [hi] + keys[i..], was[..i] + [chunk] + was[i..];
    forall h, l ensures InChunks(keys', now, h, l) <==> InChunks(keys, was, h, l) || (h == hi && l == lo) {
      if InChunks(keys, was, h, l) {
        var j :| 0 <= j < |keys| && keys[j] == h && l in was[j];
        var k := if j < i then j else j + 1;
        assert keys'[k] == h && l in now[k];
      }
      if h == hi && l == lo { assert keys'[i] == h && l in now[i]; }
      if InChunks(keys', now, h, l) {
        var k :| 0 <= k < |keys'| && keys'[k] == h && l in now[k];
        var j := if k < i then k else k - 1;
        if k != i { assert keys[j] == h && l in was[j]; }
      }
    }
  }

  // The union so far: out holds the ids of the chunks passed.
  ghost predicate OrSoFar(ka: seq<nat>, ca: seq<seq<nat>>, i: nat, kb: seq<nat>, cb: seq<seq<nat>>, j: nat, ko: seq<nat>, co: seq<seq<nat>>) {
    && (forall k | k in ko :: (i < |ka| ==> k < ka[i]) && (j < |kb| ==> k < kb[j]))
    && (forall h, l :: InChunks(ko, co, h, l) <==>
          (InChunks(ka, ca, h, l) && !InTail(ka, i, h)) || (InChunks(kb, cb, h, l) && !InTail(kb, j, h)))
  }

  lemma {:induction false} OrStart(ka: seq<nat>, ca: seq<seq<nat>>, kb: seq<nat>, cb: seq<seq<nat>>)
    requires Ascending(ka) && Ascending(kb)
    ensures OrSoFar(ka, ca, 0, kb, cb, 0, [], [])
  {
    forall h, l ensures !InChunks([], [], h, l) { NoChunks(); }
    forall h | h in ka ensures InTail(ka, 0, h) { HeadLeast(ka, h); }
    forall h | h in kb ensures InTail(kb, 0, h) { HeadLeast(kb, h); }
  }

  // A key of the list is past position i exactly when it is past i + 1 or is key i.
  lemma {:induction false} Passed(ks: seq<nat>, cs: seq<seq<nat>>, i: nat, h: int, l: int)
    requires Ascending(ks) && |ks| == |cs| && i < |ks| && InChunks(ks, cs, h, l)
    ensures InTail(ks, i, h) <==> InTail(ks, i + 1, h) || h == ks[i]
    ensures h == ks[i] ==> l in cs[i] && !InTail(ks, i + 1, h)
  {
    var m :| 0 <= m < |ks| && ks[m] == h && l in cs[m];
  }

  lemma {:induction false} OrLeft(ka: seq<nat>, ca: seq<seq<nat>>, i: nat, kb: seq<nat>, cb: seq<seq<nat>>, j: nat, ko: seq<nat>, co: seq<seq<nat>>)
    requires Ascending(ka) && |ka| == |ca| && |ko| == |co| && i < |ka| && (j < |kb| ==> ka[i] < kb[j])
    requires OrSoFar(ka, ca, i, kb, cb, j, ko, co)
    ensures OrSoFar(ka, ca, i + 1, kb, cb, j, ko + [ka[i]], co + [ca[i]]) && forall k | k in ko :: k < ka[i]
  {
    hide InChunks, Ascending, InTail;
    NextKey(ka, i);
    PushChunk(ko, co, ka[i], ca[i]);
    forall h, l
      ensures (InChunks(ka, ca, h, l) && !InTail(ka, i + 1, h)) <==> (InChunks(ka, ca, h, l) && !InTail(ka, i, h)) || (h == ka[i] && l in ca[i])
    {
      AtKey(ka, ca, i, l);
      if InChunks(ka, ca, h, l) { Passed(ka, ca, i, h, l); }
    }
  }

  lemma {:induction false} OrRight(ka: seq<nat>, ca: seq<seq<nat>>, i: nat, kb: seq<nat>, cb: seq<seq<nat>>, j: nat, ko: seq<nat>, co: seq<seq<nat>>)
    requires Ascending(kb) && |kb| == |cb| && |ko| == |co| && j < |kb| && (i < |ka| ==> kb[j] < ka[i])
    requires OrSoFar(ka, ca, i, kb, cb, j, ko, co)
    ensures OrSoFar(ka, ca, i, kb, cb, j + 1, ko + [kb[j]], co + [cb[j]]) && forall k | k in ko :: k < kb[j]
  {
    hide InChunks, Ascending, InTail;
    NextKey(kb, j);
    PushChunk(ko, co, kb[j], cb[j]);
    forall h, l
      ensures (InChunks(kb, cb, h, l) && !InTail(kb, j + 1, h)) <==> (InChunks(kb, cb, h, l) && !InTail(kb, j, h)) || (h == kb[j] && l in cb[j])
    {
      AtKey(kb, cb, j, l);
      if InChunks(kb, cb, h, l) { Passed(kb, cb, j, h, l); }
    }
  }

  lemma {:induction false} OrMeet(ka: seq<nat>, ca: seq<seq<nat>>, i: nat, kb: seq<nat>, cb: seq<seq<nat>>, j: nat, ko: seq<nat>, co: seq<seq<nat>>, either: seq<nat>)
    requires Ascending(ka) && Ascending(kb) && |ka| == |ca| && |kb| == |cb| && |ko| == |co|
    requires i < |ka| && j < |kb| && ka[i] == kb[j] && OrSoFar(ka, ca, i, kb, cb, j, ko, co)
    requires forall x :: x in either <==> x in ca[i] || x in cb[j]
    ensures OrSoFar(ka, ca, i + 1, kb, cb, j + 1, ko + [ka[i]], co + [either])
  {
    hide InChunks, Ascending, InTail;
    NextKey(ka, i);
    NextKey(kb, j);
    PushChunk(ko, co, ka[i], either);
    forall h, l
      ensures (InChunks(ka, ca, h, l) && !InTail(ka, i + 1, h)) <==> (InChunks(ka, ca, h, l) && !InTail(ka, i, h)) || (h == ka[i] && l in ca[i])
      ensures (InChunks(kb, cb, h, l) && !InTail(kb, j + 1, h)) <==> (InChunks(kb, cb, h, l) && !InTail(kb, j, h)) || (h == kb[j] && l in cb[j])
    {
      AtKey(ka, ca, i, l);
      AtKey(kb, cb, j, l);
      if InChunks(ka, ca, h, l) { Passed(ka, ca, i, h, l); }
      if InChunks(kb, cb, h, l) { Passed(kb, cb, j, h, l); }
    }
  }

  lemma {:induction false} OrBound(ka: seq<nat>, ca: seq<seq<nat>>, i: nat, kb: seq<nat>, cb: seq<seq<nat>>, j: nat, ko: seq<nat>, co: seq<seq<nat>>)
    requires i < |ka| && OrSoFar(ka, ca, i, kb, cb, j, ko, co)
    ensures forall k | k in ko :: k < ka[i]
  {
    hide InChunks;
  }

  lemma {:induction false} OrDone(ka: seq<nat>, ca: seq<seq<nat>>, i: nat, kb: seq<nat>, cb: seq<seq<nat>>, j: nat, ko: seq<nat>, co: seq<seq<nat>>)
    requires OrSoFar(ka, ca, i, kb, cb, j, ko, co) && i >= |ka| && j >= |kb|
    ensures forall h, l :: InChunks(ko, co, h, l) <==> InChunks(ka, ca, h, l) || InChunks(kb, cb, h, l)
  {
    hide InChunks;
  }

  // Rebuilds a bitmap from its ids, in whatever order they come; an ascending list comes back as it was.
  method FromSorted(ids: seq<nat>) returns (b: Bitmap)
    ensures fresh(b) && fresh(b.containers) && b.Valid()
    ensures forall x: nat :: x in b.Elems() <==> x in ids
    ensures Ascending(ids) ==> b.Elems() == ids
  {
    hide Ascending, Flatten, Bitmap.Elems, Bitmap.Valid;
    b := new Bitmap();
    var i := 0;
    while i < |ids|
      invariant i <= |ids| && b.Valid() && fresh(b) && fresh(b.containers)
      invariant forall x: nat :: x in b.Elems() <==> x in ids[..i]
    {
      assert ids[..i + 1] == ids[..i] + [ids[i]];
      b.Add(ids[i]);
      i := i + 1;
    }
    assert ids[..|ids|] == ids;
    b.ElemsAre();
    BackAsItWas(b.Elems(), ids);
  }

  lemma {:induction false} BackAsItWas(elems: seq<nat>, ids: seq<nat>)
    requires Ascending(elems) && forall x: nat :: x in elems <==> x in ids
    ensures Ascending(ids) ==> elems == ids
  {
    if Ascending(ids) { AscendingUnique(elems, ids); }
  }
}
