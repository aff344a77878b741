// 64-bit words as sets of bit positions, and ascending lists of numbers.

module Words {

  // The six binary digits of a bit position, most significant first.
  datatype Digits = Digits(b5: bool, b4: bool, b3: bool, b2: bool, b1: bool, b0: bool)

  predicate Digit(k: nat, d: nat)
    requires d > 0
  {
    k / d % 2 == 1
  }

  function DigitsOf(k: nat): Digits {
    Digits(Digit(k, 32), Digit(k, 16), Digit(k, 8), Digit(k, 4), Digit(k, 2), Digit(k, 1))
  }

  function Position(d: Digits): (k: nat)
    ensures k < 64
  {
    (if d.b5 then 32 else 0) + (if d.b4 then 16 else 0) + (if d.b3 then 8 else 0)
    + (if d.b2 then 4 else 0) + (if d.b1 then 2 else 0) + (if d.b0 then 1 else 0)
  }

  // 1 shifted into place one digit of its position at a time.
  function Shifted(b5: bool, b4: bool, b3: bool, b2: bool, b1: bool, b0: bool): bv64 {
    var m0: bv64 := if b0 then 2 else 1;
    var m1: bv64 := if b1 then m0 << 2 else m0;
    var m2: bv64 := if b2 then m1 << 4 else m1;
    var m3: bv64 := if b3 then m2 << 8 else m2;
    var m4: bv64 := if b4 then m3 << 16 else m3;
    if b5 then m4 << 32 else m4
  }

  function Staged(d: Digits): bv64 { Shifted(d.b5, d.b4, d.b3, d.b2, d.b1, d.b0) }

  // 1 << k
  function OneBit(k: nat): bv64
    requires k < 64
  {
    Staged(DigitsOf(k))
  }

  predicate Hits(w: bv64, m: bv64) { w & m != 0 }

  predicate Bit(w: bv64, k: nat)
    requires k < 64
  {
    Hits(w, OneBit(k))
  }

  // ---------------------------------------------------------------- positions and digits

  lemma {:induction false} TopDigits(k: nat)
    requires k < 64
    ensures k / 8 == (if Digit(k, 32) then 4 else 0) + (if Digit(k, 16) then 2 else 0) + (if Digit(k, 8) then 1 else 0)
  {
    assert k / 16 == k / 8 / 2;
    assert k / 32 == k / 8 / 4;
  }

  lemma {:induction false} LowDigits(k: nat, q: nat)
    requires q == k / 8
    ensures k == 8 * q + (if Digit(k, 4) then 4 else 0) + (if Digit(k, 2) then 2 else 0) + (if Digit(k, 1) then 1 else 0)
  {
    assert k / 8 == k / 4 / 2;
    assert k / 4 == k / 2 / 2;
  }

  lemma {:induction false} PositionOfDigits(k: nat)
    requires k < 64
    ensures Position(DigitsOf(k)) == k
  {
    hide Digit;
    TopDigits(k);
    LowDigits(k, k / 8);
  }

  lemma {:induction false} DigitsOfPosition(d: Digits)
    ensures DigitsOf(Position(d)) == d
  {
  }

  predicate DigitsLess(a: Digits, b: Digits) {
    (!a.b5 && b.b5) || (a.b5 == b.b5 && ((!a.b4 && b.b4) || (a.b4 == b.b4 && ((!a.b3 && b.b3) || (a.b3 == b.b3
      && ((!a.b2 && b.b2) || (a.b2 == b.b2 && ((!a.b1 && b.b1) || (a.b1 == b.b1 && !a.b0 && b.b0)))))))))
  }

  lemma {:induction false} PositionsLess(a: Digits, b: Digits)
    requires Position(a) < Position(b)
    ensures DigitsLess(a, b)
  {
  }

  // ---------------------------------------------------------------- single bits

  predicate Single(m: bv64) { m != 0 && m & (m - 1) == 0 }

  predicate Less(m: bv64, n: bv64) { m < n }

  lemma {:induction false} ShiftedSingle(b5: bool, b4: bool, b3: bool, b2: bool, b1: bool, b0: bool)
    ensures Single(Shifted(b5, b4, b3, b2, b1, b0))
  {
  }

  // A later position is a larger word.
  lemma {:induction false} ShiftedOrder(b5: bool, b4: bool, b3: bool, b2: bool, b1: bool, b0: bool,
      c5: bool, c4: bool, c3: bool, c2: bool, c1: bool, c0: bool)
    requires DigitsLess(Digits(b5, b4, b3, b2, b1, b0), Digits(c5, c4, c3, c2, c1, c0))
    ensures Less(Shifted(b5, b4, b3, b2, b1, b0), Shifted(c5, c4, c3, c2, c1, c0))
  {
  }

  lemma {:induction false} StagedSingle(d: Digits)
    ensures Single(Staged(d))
  {
    hide Shifted, Single;
    ShiftedSingle(d.b5, d.b4, d.b3, d.b2, d.b1, d.b0);
  }

  lemma {:induction false} StagedOrder(a: Digits, b: Digits)
    requires DigitsLess(a, b)
    ensures Less(Staged(a), Staged(b))
  {
    hide Shifted, Less;
    ShiftedOrder(a.b5, a.b4, a.b3, a.b2, a.b1, a.b0, b.b5, b.b4, b.b3, b.b2, b.b1, b.b0);
  }

  lemma {:induction false} OneBitSingle(k: nat)
    requires k < 64
    ensures Single(OneBit(k))
  {
    hide Staged, Single, DigitsOf;
    StagedSingle(DigitsOf(k));
  }

  lemma {:induction false} OneBitOrder(j: nat, k: nat)
    requires j < k < 64
    ensures Less(OneBit(j), OneBit(k)) && Single(OneBit(j)) && Single(OneBit(k))
  {
    hide Staged, Single, Less, DigitsOf, Position, DigitsLess;
    OneBitSingle(j);
    OneBitSingle(k);
    PositionOfDigits(j);
    PositionOfDigits(k);
    PositionsLess(DigitsOf(j), DigitsOf(k));
    StagedOrder(DigitsOf(j), DigitsOf(k));
  }

  lemma {:induction false} AndSingle(a: bv64, b: bv64, m: bv64)
    requires Single(m)
    ensures Hits(a & b, m) <==> Hits(a, m) && Hits(b, m)
    ensures Hits(a | b, m) <==> Hits(a, m) || Hits(b, m)
  {
  }

  lemma {:induction false} ApartSingle(m: bv64, n: bv64)
    requires Single(m) && Single(n) && Less(m, n)
    ensures !Hits(m, n) && !Hits(n, m)
  {
  }

  lemma {:induction false} HitsSelf(m: bv64)
    requires Single(m)
    ensures Hits(m, m)
  {
  }

  lemma {:induction false} BitOfZero(k: nat)
    requires k < 64
    ensures !Bit(0, k)
  {
    hide OneBit;
  }

  lemma {:induction false} BitOfAnd(a: bv64, b: bv64, k: nat)
    requires k < 64
    ensures Bit(a & b, k) <==> Bit(a, k) && Bit(b, k)
  {
    hide OneBit, Single, Hits;
    OneBitSingle(k);
    AndSingle(a, b, OneBit(k));
  }

  lemma {:induction false} BitOfOr(a: bv64, b: bv64, k: nat)
    requires k < 64
    ensures Bit(a | b, k) <==> Bit(a, k) || Bit(b, k)
  {
    hide OneBit, Single, Hits;
    OneBitSingle(k);
    AndSingle(a, b, OneBit(k));
  }

  lemma {:induction false} BitOfOne(t: nat, k: nat)
    requires t < 64 && k < 64
    ensures Bit(OneBit(t), k) <==> t == k
  {
    hide OneBit, Single, Hits, Less;
    OneBitSingle(k);
    HitsSelf(OneBit(k));
    if t < k {
      OneBitOrder(t, k);
      ApartSingle(OneBit(t), OneBit(k));
    } else if k < t {
      OneBitOrder(k, t);
      ApartSingle(OneBit(k), OneBit(t));
    }
  }

  // w | 1 << k
  function OrBit(w: bv64, k: nat): bv64
    requires k < 64
  {
    w | OneBit(k)
  }

  lemma {:induction false} OrBitIs(w: bv64, k: nat, j: nat)
    requires k < 64 && j < 64
    ensures Bit(OrBit(w, k), j) <==> Bit(w, j) || j == k
  {
    hide Bit, OneBit;
    BitOfOr(w, OneBit(k), j);
    BitOfOne(k, j);
  }

  // ---------------------------------------------------------------- the lowest bit

  // The digits of the position of the lowest set bit, found by halving.
  function Halving(w: bv64): Digits {
    var b5 := w & 0xFFFF_FFFF == 0;
    var w5 := if b5 then w >> 32 else w;
    var b4 := w5 & 0xFFFF == 0;
    var w4 := if b4 then w5 >> 16 else w5;
    var b3 := w4 & 0xFF == 0;
    var w3 := if b3 then w4 >> 8 else w4;
    var b2 := w3 & 0xF == 0;
    var w2 := if b2 then w3 >> 4 else w3;
    var b1 := w2 & 0x3 == 0;
    var w1 := if b1 then w2 >> 2 else w2;
    Digits(b5, b4, b3, b2, b1, w1 & 0x1 == 0)
  }

  function TrailingZeros(w: bv64): (t: nat)
    ensures t < 64
  {
    Position(Halving(w))
  }

  // m is the lowest bit of w.
  predicate Lowest(w: bv64, m: bv64) { Hits(w, m) && !Hits(w, m - 1) }

  // The same bit as a word, half by half from the shortest.
  function Low2(w: bv64): bv64 { if w & 0x1 == 0 then 2 else 1 }

  function Low4(w: bv64): bv64 { if w & 0x3 == 0 then Low2(w >> 2) << 2 else Low2(w) }

  function Low8(w: bv64): bv64 { if w & 0xF == 0 then Low4(w >> 4) << 4 else Low4(w) }

  function Low16(w: bv64): bv64 { if w & 0xFF == 0 then Low8(w >> 8) << 8 else Low8(w) }

  function Low32(w: bv64): bv64 { if w & 0xFFFF == 0 then Low16(w >> 16) << 16 else Low16(w) }

  function Low64(w: bv64): bv64 { if w & 0xFFFF_FFFF == 0 then Low32(w >> 32) << 32 else Low32(w) }

  lemma {:induction false} Low64Is(w: bv64)
    requires w != 0
    ensures Lowest(w, Low64(w))
  {
  }

  lemma {:induction false} HalvingLowest(w: bv64)
    requires w != 0
    ensures Lowest(w, Staged(Halving(w)))
  {
    Low64Is(w);
    hide Lowest;
    assert Staged(Halving(w)) == Low64(w);
  }

  lemma {:induction false} HalvingFinds(w: bv64)
    requires w != 0
    ensures Lowest(w, OneBit(TrailingZeros(w)))
  {
    hide Position, DigitsOf, Staged, Lowest, Halving;
    HalvingLowest(w);
    DigitsOfPosition(Halving(w));
  }

  lemma {:induction false} BelowSingle(w: bv64, m: bv64, n: bv64)
    requires Single(m) && Single(n) && Less(m, n) && Lowest(w, n)
    ensures !Hits(w, m)
  {
  }

  // It is set, and no lower bit is.
  lemma {:induction false} TrailingZerosIs(w: bv64)
    requires w != 0
    ensures var t := TrailingZeros(w); Bit(w, t) && forall j: nat | j < t :: !Bit(w, j)
  {
    hide OneBit, TrailingZeros, Single, Hits, Less;
    HalvingFinds(w);
    var t := TrailingZeros(w);
    forall j: nat | j < t ensures !Bit(w, j) {
      OneBitOrder(j, t);
      BelowSingle(w, OneBit(j), OneBit(t));
    }
  }

  lemma {:induction false} LowestGone(w: bv64, m: bv64)
    requires Single(m) && Lowest(w, m)
    ensures w & (w - 1) == w & !m
  {
  }

  lemma {:induction false} AndNot(w: bv64, m: bv64, n: bv64)
    requires Single(m) && Single(n)
    ensures Hits(w & !m, n) <==> Hits(w, n) && n != m
  {
    if n != m { assert n & m == 0; }
  }

  lemma {:induction false} MinusOne(w: bv64, m: bv64, n: bv64)
    requires Single(m) && Single(n) && Lowest(w, m)
    ensures Hits(w & (w - 1), n) <==> Hits(w, n) && n != m
  {
    hide Single, Lowest, Hits;
    LowestGone(w, m);
    AndNot(w, m, n);
  }

  lemma {:induction false} OneBitDistinct(j: nat, k: nat)
    requires j < 64 && k < 64
    ensures OneBit(j) == OneBit(k) <==> j == k
  {
    hide OneBit;
    if j < k { OneBitOrder(j, k); } else if k < j { OneBitOrder(k, j); }
  }

  // w & (w - 1) clears the lowest set bit and no other.
  lemma {:induction false} ClearLowest(w: bv64, k: nat)
    requires w != 0 && k < 64
    ensures Bit(w & (w - 1), k) <==> Bit(w, k) && k != TrailingZeros(w)
  {
    hide OneBit, Single, TrailingZeros, Lowest, Hits;
    HalvingFinds(w);
    var t := TrailingZeros(w);
    OneBitSingle(t);
    OneBitSingle(k);
    MinusOne(w, OneBit(t), OneBit(k));
    OneBitDistinct(t, k);
  }

  // The positions set below k, offset by base, ascending.
  function WordElems(w: bv64, base: nat, k: nat): seq<nat>
    requires k <= 64
    decreases k
  {
    if k == 0 then [] else WordElems(w, base, k - 1) + (if Bit(w, k - 1) then [base + k - 1] else [])
  }

  // The number of set bits.
  function OnesCount(w: bv64, k: nat): (n: nat)
    requires k <= 64
    decreases k
  {
    if k == 0 then 0 else OnesCount(w, k - 1) + (if Bit(w, k - 1) then 1 else 0)
  }

  lemma {:induction false} OnesCountIs(w: bv64, base: nat, k: nat)
    requires k <= 64
    ensures |WordElems(w, base, k)| == OnesCount(w, k)
    decreases k
  {
    hide Bit;
    if k > 0 { OnesCountIs(w, base, k - 1); }
  }

  lemma {:induction false} WordElemsAre(w: bv64, base: nat, k: nat)
    requires k <= 64
    ensures forall x :: x in WordElems(w, base, k) <==> base <= x < base + k && Bit(w, x - base)
    ensures Ascending(WordElems(w, base, k))
    decreases k
  {
    hide Bit;
    if k > 0 {
      WordElemsAre(w, base, k - 1);
      assert Ascending(WordElems(w, base, k - 1));
      if Bit(w, k - 1) { AscendingAppend(WordElems(w, base, k - 1), [base + k - 1]); }
    }
  }

  // ---------------------------------------------------------------- ascending lists

  ghost predicate Ascending(s: seq<nat>) {
    forall i, j | 0 <= i < j < |s| :: s[i] < s[j]
  }

  lemma {:induction false} AscendingNone()
    ensures Ascending([])
  {
  }

  lemma {:induction false} AscendingAppend(a: seq<nat>, b: seq<nat>)
    requires Ascending(a) && Ascending(b) && forall x, y | x in a && y in b :: x < y
    ensures Ascending(a + b)
  {
    var s := a + b;
    forall i, j | 0 <= i < j < |s| ensures s[i] < s[j] {
      if i < |a| <= j { assert a[i] in a && b[j - |a|] in b; }
    }
  }

  lemma {:induction false} AscendingPush(a: seq<nat>, x: nat)
    requires Ascending(a) && forall y | y in a :: y < x
    ensures Ascending(a + [x])
  {
    AscendingAppend(a, [x]);
  }

  // Two ascending lists with the same members are the same list.
  lemma {:induction false} AscendingUnique(a: seq<nat>, b: seq<nat>)
    requires Ascending(a) && Ascending(b) && forall x :: x in a <==> x in b
    ensures a == b
    decreases |a|
  {
    if b != [] { AscendingTail(b); }
    if a == [] {
      assert b == [];
    } else {
      assert a[0] in b && a[0] in a;
      assert b[0] in a && b[0] in b;
      AscendingTail(a);
      AscendingTail(b);
      AscendingUnique(a[1..], b[1..]);
    }
  }

  lemma {:induction false} AscendingTail(a: seq<nat>)
    requires Ascending(a) && a != []
    ensures Ascending(a[1..]) && a == [a[0]] + a[1..]
    ensures forall x :: x in a[1..] <==> x in a && x != a[0]
    ensures a[0] in a && forall x | x in a :: a[0] <= x
  {
    var b := a[1..];
    assert a == [a[0]] + b;
    assert forall i | 0 <= i < |b| :: b[i] == a[i + 1];
  }

  ghost function MembersOf(a: seq<nat>): set<nat> { set x | x in a }

  // An ascending list is as long as its set of members is large.
  lemma {:induction false} AscendingSize(a: seq<nat>)
    requires Ascending(a)
    ensures |MembersOf(a)| == |a|
    decreases |a|
  {
    if a != [] {
      var n := |a| - 1;
      AscendingSize(a[..n]);
      assert a == a[..n] + [a[n]];
      assert a[n] !in a[..n];
      assert MembersOf(a) == MembersOf(a[..n]) + {a[n]};
    }
  }

  // One more member, one more element.
  lemma {:induction false} AscendingGain(a: seq<nat>, b: seq<nat>, x: nat)
    requires Ascending(a) && Ascending(b) && x !in a && forall y :: y in b <==> y in a || y == x
    ensures |b| == |a| + 1
  {
    hide Ascending;
    AscendingSize(a);
    AscendingSize(b);
    assert MembersOf(b) == MembersOf(a) + {x};
  }

  // The position of the first element not below x, by binary search.
  method Search(s: seq<nat>, x: nat) returns (i: nat)
    requires Ascending(s)
    ensures i <= |s| && (forall j | 0 <= j < i :: s[j] < x) && (forall j | i <= j < |s| :: s[j] >= x)
    ensures (i < |s| && s[i] == x) <==> x in s
  {
    i := 0;
    var j := |s|;
    while i < j
      invariant i <= j <= |s|
      invariant (forall k | 0 <= k < i :: s[k] < x) && (forall k | j <= k < |s| :: s[k] >= x)
    {
      var h := (i + j) / 2;
      if s[h] < x { i := h + 1; } else { j := h; }
    }
  }

  lemma {:induction false} NotAt(s: seq<nat>, i: nat, x: nat)
    requires i <= |s| && x !in s && forall j | i <= j < |s| :: s[j] >= x
    ensures forall j | i <= j < |s| :: s[j] > x
  {
  }

  // s with x put in at position i, by growing, shifting and storing.
  method ShiftIn(s: seq<nat>, i: nat, x: nat) returns (r: seq<nat>)
    requires i <= |s|
    ensures r == s[..i] + [x] + s[i..]
  {
    r := s + [0];
    r := r[..i + 1] + r[i..|s|];
    r := r[i := x];
  }

  lemma {:induction false} ShiftInAscending(s: seq<nat>, i: nat, x: nat)
    requires Ascending(s) && i <= |s| && (forall j | 0 <= j < i :: s[j] < x) && (forall j | i <= j < |s| :: s[j] > x)
    ensures var r := s[..i] + [x] + s[i..];
            Ascending(r) && forall y :: y in r <==> y in s || y == x
  {
    var r := s[..i] + [x] + s[i..];
    assert s == s[..i] + s[i..];
    forall j, k | 0 <= j < k < |r| ensures r[j] < r[k] {
    }
  }
}
