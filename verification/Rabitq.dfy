// The RaBitQ estimator: sign bits of the rotated residual, a query quantized to four bit-planes, and
// an inner product recovered from popcounts. Arithmetic is over the reals.

module Rabitq {
  import opened Types
  import Words
  import Bitmaps

  const BQ_BITS := 4
  const MAX_LEVEL := 15

  type Sqrt = real -> real

  ghost predicate IsSqrt(sqrt: Sqrt) {
    forall x | x > 0.0 :: sqrt(x) > 0.0 && sqrt(x) * sqrt(x) == x
  }

  // The rows of a D x D matrix.
  type Rotation = seq<Vector>

  ghost predicate Square(rot: Rotation, dim: nat) {
    |rot| == dim && forall i | 0 <= i < dim :: |rot[i]| == dim
  }

  // Packed sign bits; ooAlign is the inner product of the reconstructed and the true residual.
  datatype Code = Code(bits: seq<bv64>, residualNorm: real, ooAlign: real)

  datatype QueryCode = QueryCode(planes: seq<seq<bv64>>, residualNorm: real, lower: real, width: real, sumQuant: nat, dim: nat)

  // ---------------------------------------------------------------- sums

  function DotTo(a: Vector, b: Vector, n: nat): real
    requires n <= |a| && n <= |b|
    decreases n
  {
    if n == 0 then 0.0 else DotTo(a, b, n - 1) + a[n - 1] * b[n - 1]
  }

  function Dot(a: Vector, b: Vector): real
    requires |a| == |b|
  {
    DotTo(a, b, |a|)
  }

  // Column j of the first n rows against v.
  function ColumnTo(rot: Rotation, v: Vector, j: nat, n: nat): real
    requires n <= |rot| && n <= |v| && forall i | 0 <= i < n :: j < |rot[i]|
    decreases n
  {
    if n == 0 then 0.0 else ColumnTo(rot, v, j, n - 1) + rot[n - 1][j] * v[n - 1]
  }

  function Apply(rot: Rotation, v: Vector): (r: Vector)
    requires Square(rot, |v|)
    ensures |r| == |v| && forall i | 0 <= i < |r| :: r[i] == Dot(rot[i], v)
  {
    seq(|v|, (i: int) requires 0 <= i < |v| => Dot(rot[i], v))
  }

  function ApplyInverse(rot: Rotation, v: Vector): (r: Vector)
    requires Square(rot, |v|)
    ensures |r| == |v| && forall j | 0 <= j < |r| :: r[j] == ColumnTo(rot, v, j, |v|)
  {
    seq(|v|, (j: int) requires 0 <= j < |v| => ColumnTo(rot, v, j, |v|))
  }

  // The first n columns of x against the first m rows' transposed image of o.
  function CrossTo(rot: Rotation, x: Vector, o: Vector, m: nat, n: nat): real
    requires Square(rot, |x|) && |o| == |x| && m <= |x| && n <= |x|
    decreases n
  {
    if n == 0 then 0.0 else CrossTo(rot, x, o, m, n - 1) + x[n - 1] * ColumnTo(rot, o, n - 1, m)
  }

  lemma {:induction false} CrossRow(rot: Rotation, x: Vector, o: Vector, m: nat, n: nat)
    requires Square(rot, |x|) && |o| == |x| && m < |x| && n <= |x|
    ensures CrossTo(rot, x, o, m + 1, n) == CrossTo(rot, x, o, m, n) + DotTo(rot[m], x, n) * o[m]
    decreases n
  {
    if n > 0 {
      CrossRow(rot, x, o, m, n - 1);
      Expand(x[n - 1], ColumnTo(rot, o, n - 1, m), rot[m][n - 1], o[m], DotTo(rot[m], x, n - 1));
    }
  }

  lemma {:induction false} Expand(x: real, c: real, r: real, k: real, d: real)
    ensures x * (c + r * k) + d * k == x * c + (d + r * x) * k
  {
    assert x * (r * k) == (r * x) * k;
  }

  lemma {:induction false} CrossNone(rot: Rotation, x: Vector, o: Vector, n: nat)
    requires Square(rot, |x|) && |o| == |x| && n <= |x|
    ensures CrossTo(rot, x, o, 0, n) == 0.0
    decreases n
  {
    if n > 0 { CrossNone(rot, x, o, n - 1); }
  }

  lemma {:induction false} CrossIsDot(rot: Rotation, x: Vector, o: Vector, n: nat)
    requires Square(rot, |x|) && |o| == |x| && n <= |x|
    ensures CrossTo(rot, x, o, |x|, n) == DotTo(x, ApplyInverse(rot, o), n)
    decreases n
  {
    if n > 0 { CrossIsDot(rot, x, o, n - 1); }
  }

  lemma {:induction false} RowsAreCross(rot: Rotation, x: Vector, o: Vector, m: nat)
    requires Square(rot, |x|) && |o| == |x| && m <= |x|
    ensures DotTo(Apply(rot, x), o, m) == CrossTo(rot, x, o, m, |x|)
    decreases m
  {
    if m == 0 {
      CrossNone(rot, x, o, |x|);
    } else {
      RowsAreCross(rot, x, o, m - 1);
      CrossRow(rot, x, o, m - 1, |x|);
    }
  }

  // Rotating one side is inverse-rotating the other, for any square matrix.
  lemma {:induction false} RotationMoves(rot: Rotation, x: Vector, o: Vector)
    requires Square(rot, |x|) && |o| == |x|
    ensures Dot(Apply(rot, x), o) == Dot(x, ApplyInverse(rot, o))
  {
    RowsAreCross(rot, x, o, |x|);
    CrossIsDot(rot, x, o, |x|);
  }

  // ---------------------------------------------------------------- packed bits

  function WordCount(dim: nat): nat { (dim + 63) / 64 }

  function Ind(words: seq<bv64>, i: nat): nat { if Bitmaps.DenseHas(words, i) then 1 else 0 }

  // The number of set bits below n.
  function Ones(words: seq<bv64>, n: nat): nat
    decreases n
  {
    if n == 0 then 0 else Ones(words, n - 1) + Ind(words, n - 1)
  }

  lemma {:induction false} OnesInWord(words: seq<bv64>, w: nat, k: nat)
    requires w < |words| && k <= 64
    ensures Ones(words, 64 * w + k) == Ones(words, 64 * w) + Words.OnesCount(words[w], k)
    decreases k
  {
    hide Words.Bit;
    if k > 0 {
      OnesInWord(words, w, k - 1);
      Bitmaps.WordOf(64 * w + k - 1, w);
    }
  }

  // Word by word popcounts count bit by bit.
  lemma {:induction false} PopcountIsOnes(words: seq<bv64>, w: nat)
    requires w <= |words|
    ensures Bitmaps.DenseCount(words, w) == Ones(words, 64 * w)
    decreases w
  {
    hide Words.OnesCount, Ind;
    if w > 0 {
      PopcountIsOnes(words, w - 1);
      OnesInWord(words, w - 1, 64);
    }
  }

  // The padding past the dimension holds no bits.
  ghost predicate Packed(words: seq<bv64>, dim: nat) {
    |words| == WordCount(dim) && forall i | i >= dim :: !Bitmaps.DenseHas(words, i)
  }

  lemma {:induction false} OnesPadding(words: seq<bv64>, dim: nat, n: nat)
    requires dim <= n && forall i | i >= dim :: !Bitmaps.DenseHas(words, i)
    ensures Ones(words, n) == Ones(words, dim)
    decreases n
  {
    if n > dim { OnesPadding(words, dim, n - 1); }
  }

  method Popcount(words: seq<bv64>, dim: nat) returns (n: nat)
    requires Packed(words, dim)
    ensures n == Ones(words, dim)
  {
    n := Bitmaps.CountDense(words);
    Bitmaps.DenseCountIs(words, |words|);
    PopcountIsOnes(words, |words|);
    OnesPadding(words, dim, 64 * |words|);
  }

  method AndPopcount(bits: seq<bv64>, plane: seq<bv64>, dim: nat) returns (n: nat)
    requires Packed(bits, dim) && |plane| == |bits|
    ensures n == OnesBoth(bits, plane, dim)
  {
    var both;
    both, n := Bitmaps.AndDense(bits, plane);
    Bitmaps.DenseCountIs(both, |both|);
    PopcountIsOnes(both, |both|);
    OnesPadding(both, dim, 64 * |both|);
    BothOnes(bits, plane, both, dim);
  }

  function OnesBoth(a: seq<bv64>, b: seq<bv64>, n: nat): nat
    decreases n
  {
    if n == 0 then 0 else OnesBoth(a, b, n - 1) + Ind(a, n - 1) * Ind(b, n - 1)
  }

  lemma {:induction false} BothOnes(a: seq<bv64>, b: seq<bv64>, both: seq<bv64>, n: nat)
    requires forall x :: Bitmaps.DenseHas(both, x) <==> Bitmaps.DenseHas(a, x) && Bitmaps.DenseHas(b, x)
    ensures Ones(both, n) == OnesBoth(a, b, n)
    decreases n
  {
    hide Bitmaps.DenseHas;
    if n > 0 { BothOnes(a, b, both, n - 1); }
  }

  // ---------------------------------------------------------------- the data side

  function Abs(x: real): real { if x < 0.0 then -x else x }

  function SumAbs(v: Vector, n: nat): (s: real)
    requires n <= |v|
    ensures s >= 0.0
    decreases n
  {
    if n == 0 then 0.0 else SumAbs(v, n - 1) + Abs(v[n - 1])
  }

  // Coordinate i of the codebook vector: plus or minus 1 / sqrt(D).
  function XBar(bits: seq<bv64>, inv: real, i: nat): real { if Bitmaps.DenseHas(bits, i) then inv else -inv }

  function Codebook(bits: seq<bv64>, inv: real, dim: nat): (x: Vector)
    ensures |x| == dim && forall i | 0 <= i < dim :: x[i] == XBar(bits, inv, i)
  {
    seq(dim, (i: int) requires 0 <= i < dim => XBar(bits, inv, i))
  }

  // The codebook vector turned by the rotation: what a code stands for.
  ghost function Rebuilt(sqrt: Sqrt, rot: Rotation, bits: seq<bv64>, dim: nat): (o: Vector)
    requires Square(rot, dim) && sqrt(dim as real) != 0.0
    ensures |o| == dim
  {
    Apply(rot, Codebook(bits, 1.0 / sqrt(dim as real), dim))
  }

  // Packs the signs of a vector, one bit per dimension.
  method PackSigns(v: Vector) returns (bits: seq<bv64>)
    ensures Packed(bits, |v|)
    ensures forall i | 0 <= i < |v| :: Bitmaps.DenseHas(bits, i) <==> v[i] >= 0.0
  {
    hide Bitmaps.DenseHas, Bitmaps.SetBit;
    bits := Bitmaps.Zeros(WordCount(|v|));
    Bitmaps.ZerosHaveNone(WordCount(|v|));
    var i := 0;
    while i < |v|
      invariant i <= |v| && |bits| == WordCount(|v|)
      invariant forall x :: Bitmaps.DenseHas(bits, x) <==> 0 <= x < i && v[x] >= 0.0
    {
      if v[i] >= 0.0 {
        Bitmaps.SetBitIs(bits, i);
        bits := Bitmaps.SetBit(bits, i);
      }
      i := i + 1;
    }
  }

  function Diff(v: Vector, centroid: Vector): (r: Vector)
    requires |v| == |centroid|
    ensures |r| == |v| && forall i | 0 <= i < |r| :: r[i] == v[i] - centroid[i]
  {
    seq(|v|, (i: int) requires 0 <= i < |v| => v[i] - centroid[i])
  }

  method Residual(v: Vector, centroid: Vector) returns (r: Vector, norm2: real)
    requires |v| == |centroid|
    ensures r == Diff(v, centroid) && norm2 == Dot(r, r) && norm2 >= 0.0
    ensures norm2 == 0.0 <==> v == centroid
  {
    r, norm2 := [], 0.0;
    while |r| < |v|
      invariant |r| <= |v| && norm2 == DotTo(r, r, |r|) && norm2 >= 0.0
      invariant forall i | 0 <= i < |r| :: r[i] == v[i] - centroid[i]
      invariant norm2 == 0.0 <==> v[..|r|] == centroid[..|r|]
    {
      var d := v[|r|] - centroid[|r|];
      ghost var n := |r|;
      assert v[..n + 1] == v[..n] + [v[n]] && centroid[..n + 1] == centroid[..n] + [centroid[n]];
      assert v[..n + 1] == centroid[..n + 1] <==> v[..n] == centroid[..n] && v[n] == centroid[n];
      DotPrefix(r, r, r + [d], r + [d], n);
      SquareSign(d);
      r := r + [d];
      norm2 := norm2 + Sq(d);
    }
    assert v[..|v|] == v && centroid[..|v|] == centroid;
  }

  function Mul(a: real, b: real): real { a * b }

  function Sq(x: real): real { Mul(x, x) }

  lemma {:induction false} SqPositive(x: real)
    requires x > 0.0
    ensures Sq(x) > 0.0
  {
    hide Mul;
    TimesPositive(x, x);
  }

  lemma {:induction false} TimesPositive(a: real, b: real)
    requires a > 0.0 && b > 0.0
    ensures Mul(a, b) > 0.0
  {
  }

  lemma {:induction false} SqZero()
    ensures Sq(0.0) == 0.0
  {
  }

  lemma {:induction false} SqNegated(x: real)
    ensures Sq(-x) == Sq(x)
  {
  }

  lemma {:induction false} SquareSign(d: real)
    ensures Sq(d) >= 0.0 && (Sq(d) == 0.0 <==> d == 0.0)
  {
    hide Sq;
    if d > 0.0 {
      SqPositive(d);
    } else if d < 0.0 {
      SqPositive(-d);
      SqNegated(d);
    } else {
      SqZero();
    }
  }

  lemma {:induction false} DotPrefix(a: Vector, b: Vector, c: Vector, d: Vector, n: nat)
    requires n <= |a| && n <= |b| && n <= |c| && n <= |d| && a[..n] == c[..n] && b[..n] == d[..n]
    ensures DotTo(a, b, n) == DotTo(c, d, n)
    decreases n
  {
    if n > 0 {
      assert a[..n][n - 1] == c[..n][n - 1] && b[..n][n - 1] == d[..n][n - 1];
      assert a[..n - 1] == a[..n][..n - 1] && c[..n - 1] == c[..n][..n - 1];
      assert b[..n - 1] == b[..n][..n - 1] && d[..n - 1] == d[..n][..n - 1];
      DotPrefix(a, b, c, d, n - 1);
    }
  }

  method Scale(v: Vector, k: real) returns (r: Vector)
    ensures |r| == |v| && forall i | 0 <= i < |v| :: r[i] == v[i] * k
  {
    r := [];
    while |r| < |v|
      invariant |r| <= |v| && forall i | 0 <= i < |r| :: r[i] == v[i] * k
    {
      r := r + [v[|r|] * k];
    }
  }

  // The unit residual: the residual scaled to length one. A vector on the centroid has none.
  method UnitResidual(sqrt: Sqrt, v: Vector, centroid: Vector) returns (unit: Vector, norm: real)
    requires IsSqrt(sqrt) && |v| == |centroid|
    ensures |unit| == |v| && (norm == 0.0 <==> v == centroid) && norm >= 0.0 && norm * norm == Dot(Diff(v, centroid), Diff(v, centroid))
    ensures if v == centroid then forall i | 0 <= i < |v| :: unit[i] == 0.0
            else forall i | 0 <= i < |v| :: unit[i] * norm == v[i] - centroid[i]
  {
    var residual, norm2 := Residual(v, centroid);
    if norm2 == 0.0 {
      ZeroResidual(residual, |v|);
      return residual, 0.0;
    }
    norm := sqrt(norm2);
    unit := Scale(residual, 1.0 / norm);
    forall i | 0 <= i < |v| ensures unit[i] * norm == v[i] - centroid[i] {
      ScaleBack(residual[i], norm);
    }
  }

  lemma {:induction false} ScaleBack(x: real, n: real)
    requires n > 0.0
    ensures x * (1.0 / n) * n == x
  {
    assert 1.0 / n * n == 1.0;
    assert x * (1.0 / n) * n == x * (1.0 / n * n);
  }

  // Encodes a data vector: the signs of its rotated unit residual. The de-bias scalar is the sum of
  // the absolute rotated coordinates over sqrt(D), so it is never negative.
  method EncodeRaBitQ(sqrt: Sqrt, v: Vector, centroid: Vector, rot: Rotation) returns (code: Code, ghost rotated: Vector)
    requires IsSqrt(sqrt) && |v| == |centroid| && Square(rot, |v|)
    ensures Packed(code.bits, |v|) && |rotated| == |v|
    ensures forall i | 0 <= i < |v| :: Bitmaps.DenseHas(code.bits, i) <==> rotated[i] >= 0.0
    ensures code.residualNorm * code.residualNorm == Dot(Diff(v, centroid), Diff(v, centroid)) && code.residualNorm >= 0.0
    ensures v == centroid ==> code.ooAlign == 0.0 && forall i | 0 <= i < |v| :: rotated[i] == 0.0
    ensures v != centroid ==> code.ooAlign == SumAbs(rotated, |v|) / sqrt(|v| as real) >= 0.0
    ensures v != centroid ==>
              exists unit: Vector :: IsUnit(unit, code.residualNorm, v, centroid) && rotated == ApplyInverse(rot, unit)
                && sqrt(|v| as real) != 0.0 && code.ooAlign == Dot(Rebuilt(sqrt, rot, code.bits, |v|), unit)
  {
    hide Bitmaps.DenseHas, Dot, DotTo, Rebuilt;
    var o, norm := UnitResidual(sqrt, v, centroid);
    if norm == 0.0 {
      var bits := PackSigns(o);
      return Code(bits, 0.0, 0.0), o;
    }
    rotated := ApplyInverse(rot, o);
    var turned := ApplyInverse(rot, o);
    var bits := PackSigns(turned);
    var align := Align(sqrt, bits, rot, o);
    code := Code(bits, norm, align);
    assert IsUnit(o, norm, v, centroid);
  }

  ghost predicate IsUnit(unit: Vector, norm: real, v: Vector, centroid: Vector) {
    |unit| == |v| == |centroid| && forall i | 0 <= i < |v| :: unit[i] * norm == v[i] - centroid[i]
  }

  // The inner product of the reconstructed codebook vector and the residual.
  method Align(sqrt: Sqrt, bits: seq<bv64>, rot: Rotation, o: Vector) returns (align: real)
    requires IsSqrt(sqrt) && Square(rot, |o|) && |o| > 0
    requires forall i | 0 <= i < |o| :: Bitmaps.DenseHas(bits, i) <==> ApplyInverse(rot, o)[i] >= 0.0
    ensures align == SumAbs(ApplyInverse(rot, o), |o|) / sqrt(|o| as real) >= 0.0
    ensures align == Dot(Rebuilt(sqrt, rot, bits, |o|), o)
  {
    hide Bitmaps.DenseHas, DotTo, SumAbs, ColumnTo;
    var dim := |o|;
    var inv := 1.0 / sqrt(dim as real);
    var xbar: Vector := [];
    while |xbar| < dim
      invariant |xbar| <= dim && forall i | 0 <= i < |xbar| :: xbar[i] == XBar(bits, inv, i)
    {
      xbar := xbar + [XBar(bits, inv, |xbar|)];
    }
    assert xbar == Codebook(bits, inv, dim);
    var obar := Apply(rot, xbar);
    align := Dot(obar, o);
    RotationMoves(rot, xbar, o);
    AlignIs(bits, inv, xbar, ApplyInverse(rot, o), dim);
    DivAsTimes(SumAbs(ApplyInverse(rot, o), dim), sqrt(dim as real));
  }

  lemma {:induction false} ZeroResidual(r: Vector, n: nat)
    requires n <= |r| && DotTo(r, r, n) == 0.0
    ensures forall i | 0 <= i < n :: r[i] == 0.0
    decreases n
  {
    if n > 0 {
      DotSquares(r, n - 1);
      SquareSign(r[n - 1]);
      ZeroResidual(r, n - 1);
    }
  }

  lemma {:induction false} DotSquares(r: Vector, n: nat)
    requires n <= |r|
    ensures DotTo(r, r, n) >= 0.0
    decreases n
  {
    if n > 0 {
      DotSquares(r, n - 1);
      SquareSign(r[n - 1]);
    }
  }

  lemma {:induction false} AlignIs(bits: seq<bv64>, inv: real, xbar: Vector, rotated: Vector, n: nat)
    requires n <= |xbar| && n <= |rotated|
    requires forall i | 0 <= i < |xbar| :: xbar[i] == XBar(bits, inv, i)
    requires forall i | 0 <= i < |rotated| :: Bitmaps.DenseHas(bits, i) <==> rotated[i] >= 0.0
    ensures DotTo(xbar, rotated, n) == SumAbs(rotated, n) * inv
    decreases n
  {
    hide Bitmaps.DenseHas;
    if n > 0 {
      AlignIs(bits, inv, xbar, rotated, n - 1);
      var x, y := xbar[n - 1], rotated[n - 1];
      assert x * y == Abs(y) * inv;
      Distribute(SumAbs(rotated, n - 1), Abs(y), inv);
    }
  }

  lemma {:induction false} Distribute(a: real, b: real, k: real)
    ensures (a + b) * k == a * k + b * k
  {
  }

  lemma {:induction false} DivAsTimes(a: real, s: real)
    requires s > 0.0 && a >= 0.0
    ensures a * (1.0 / s) == a / s && a / s >= 0.0
  {
  }

  // ---------------------------------------------------------------- the query side

  function Pow2(j: nat): nat
    decreases j
  {
    if j == 0 then 1 else 2 * Pow2(j - 1)
  }

  // Bit j of a quantization level.
  function LevelBit(level: nat, j: nat): (b: nat)
    requires j < BQ_BITS
    ensures b <= 1
  {
    if j == 0 then level % 2 else if j == 1 then level / 2 % 2 else if j == 2 then level / 4 % 2 else level / 8 % 2
  }

  // A level of four bits is the sum of its bits.
  lemma {:induction false} LevelBits(level: nat)
    requires level <= MAX_LEVEL
    ensures level == LevelBit(level, 0) + 2 * LevelBit(level, 1) + 4 * LevelBit(level, 2) + 8 * LevelBit(level, 3)
  {
  }

  ghost predicate LevelsOk(levels: seq<nat>) {
    forall i | 0 <= i < |levels| :: levels[i] <= MAX_LEVEL
  }

  // Plane j holds bit j of every level.
  ghost predicate PlanesOk(planes: seq<seq<bv64>>, levels: seq<nat>, dim: nat) {
    && |planes| == BQ_BITS
    && forall j | 0 <= j < BQ_BITS :: PlaneOk(planes[j], levels, dim, j)
  }

  ghost predicate PlaneOk(plane: seq<bv64>, levels: seq<nat>, dim: nat, j: nat)
    requires j < BQ_BITS
  {
    |plane| == WordCount(dim) && forall i | 0 <= i < |levels| :: Ind(plane, i) == LevelBit(levels[i], j)
  }

  function SumTo(levels: seq<nat>, n: nat): nat
    requires n <= |levels|
    decreases n
  {
    if n == 0 then 0 else SumTo(levels, n - 1) + levels[n - 1]
  }

  // The least and greatest coordinates.
  method Range(v: Vector) returns (lo: real, hi: real)
    requires |v| > 0
    ensures lo in v && hi in v && forall i | 0 <= i < |v| :: lo <= v[i] <= hi
  {
    lo, hi := v[0], v[0];
    var i := 0;
    while i < |v|
      invariant i <= |v| && lo in v && hi in v && lo <= hi
      invariant forall j | 0 <= j < i :: lo <= v[j] <= hi
    {
      if v[i] < lo { lo := v[i]; }
      if v[i] > hi { hi := v[i]; }
      i := i + 1;
    }
  }

  // Randomized rounding of t, clamped to the levels there are; draw is uniform in [0, 1).
  function Round(t: real, draw: real): (level: int)
  {
    var f := t.Floor;
    var up := if draw < t - f as real then f + 1 else f;
    if up < 0 then 0 else if up > MAX_LEVEL then MAX_LEVEL else up
  }

  // For t in range the clamp never bites: the level is within one step of t.
  lemma {:induction false} RoundIs(t: real, draw: real)
    requires 0.0 <= t <= MAX_LEVEL as real && draw >= 0.0
    ensures 0 <= Round(t, draw) <= MAX_LEVEL && -1.0 < Round(t, draw) as real - t < 1.0
    ensures Round(t, draw) == if draw < t - t.Floor as real then t.Floor + 1 else t.Floor
  {
  }

  // One coordinate's quantization error is at most one step.
  lemma {:induction false} StepError(t: real, q: real, lo: real, width: real, level: nat)
    requires width > 0.0 && -1.0 <= level as real - t <= 1.0 && Mul(t, width) == q - lo
    ensures Near(q, lo, width, level)
  {
    hide Mul;
    SubTimes(level as real, t, width);
    ScaleBound(level as real - t, width);
    Commute(level as real, width);
  }

  lemma {:induction false} DivTimes(a: real, w: real)
    requires w > 0.0
    ensures Mul(a / w, w) == a
  {
  }

  lemma {:induction false} SubTimes(a: real, b: real, w: real)
    ensures Mul(a - b, w) == Mul(a, w) - Mul(b, w)
  {
  }

  lemma {:induction false} Commute(a: real, b: real)
    ensures Mul(a, b) == b * a
  {
  }

  lemma {:induction false} NonNegative(a: real, b: real)
    requires a >= 0.0 && b >= 0.0
    ensures Mul(a, b) >= 0.0
  {
    assert a * b >= 0.0;
  }

  lemma {:induction false} MulOne(w: real)
    ensures Mul(1.0, w) == w && Mul(-1.0, w) == -w
  {
  }

  lemma {:induction false} ScaleBound(e: real, w: real)
    requires -1.0 <= e <= 1.0 && w >= 0.0
    ensures -w <= Mul(e, w) <= w
  {
    hide Mul;
    MulOne(w);
    NonNegative(1.0 - e, w);
    SubTimes(1.0, e, w);
    NonNegative(e - -1.0, w);
    SubTimes(e, -1.0, w);
  }

  lemma {:induction false} DivLe(a: real, b: real, w: real)
    requires w > 0.0 && a <= b * w
    ensures a / w <= b
  {
    assert b * w / w == b;
  }

  lemma {:induction false} RatioRange(q: real, lo: real, hi: real, width: real)
    requires lo <= q <= hi && width == (hi - lo) / MAX_LEVEL as real && width != 0.0
    ensures width > 0.0 && 0.0 <= (q - lo) / width <= MAX_LEVEL as real
  {
    assert hi - lo == width * 15.0;
    assert width > 0.0;
    DivLe(q - lo, 15.0, width);
  }

  // What a query code promises: four-bit levels within one step of the rotated query, and planes and
  // sum that agree with the levels.
  ghost predicate Quantized(qc: QueryCode, q: Vector, levels: seq<nat>) {
    && qc.dim == |q| == |levels| && LevelsOk(levels) && qc.width >= 0.0
    && qc.sumQuant == SumTo(levels, |levels|)
    && PlanesOk(qc.planes, levels, |q|)
    && Spans(q, qc.lower, qc.width)
    && forall i | 0 <= i < |q| :: Near(q[i], qc.lower, qc.width, levels[i])
  }

  // The fifteen steps reach from the least coordinate to the greatest, exactly.
  ghost predicate Spans(q: Vector, lower: real, width: real) {
    && lower in q && lower + 15.0 * width in q
    && forall i | 0 <= i < |q| :: lower <= q[i] <= lower + 15.0 * width
  }

  lemma {:induction false} RangeSpans(q: Vector, lo: real, hi: real, width: real)
    requires lo in q && hi in q && (forall i | 0 <= i < |q| :: lo <= q[i] <= hi) && width == (hi - lo) / MAX_LEVEL as real
    ensures Spans(q, lo, width)
  {
    assert lo + 15.0 * width == hi;
  }

  method ScatterPlane(levels: seq<nat>, dim: nat, j: nat) returns (plane: seq<bv64>)
    requires |levels| == dim && j < BQ_BITS
    ensures PlaneOk(plane, levels, dim, j)
  {
    hide Bitmaps.DenseHas, Bitmaps.SetBit, LevelBit;
    plane := Bitmaps.Zeros(WordCount(dim));
    Bitmaps.ZerosHaveNone(WordCount(dim));
    var i := 0;
    while i < dim
      invariant i <= dim && |plane| == WordCount(dim)
      invariant forall x :: Bitmaps.DenseHas(plane, x) <==> 0 <= x < i && LevelBit(levels[x], j) != 0
    {
      if LevelBit(levels[i], j) != 0 {
        Bitmaps.SetBitIs(plane, i);
        plane := Bitmaps.SetBit(plane, i);
      }
      i := i + 1;
    }
  }

  // One coordinate's level, within one step of the coordinate.
  method QuantizeOne(q: real, lo: real, hi: real, width: real, draw: real) returns (level: nat)
    requires lo <= q <= hi && width == (hi - lo) / MAX_LEVEL as real && width != 0.0 && draw >= 0.0
    ensures level <= MAX_LEVEL && width > 0.0 && Near(q, lo, width, level)
  {
    hide Round, Mul, Near;
    RatioRange(q, lo, hi, width);
    var t := (q - lo) / width;
    DivTimes(q - lo, width);
    RoundIs(t, draw);
    level := Round(t, draw);
    StepError(t, q, lo, width, level);
  }

  // The dequantized level is within one step of the coordinate.
  ghost predicate Near(q: real, lower: real, width: real, level: nat) {
    -width <= lower + width * level as real - q <= width
  }

  method QuantizeLevels(q: Vector, lo: real, hi: real, width: real, draws: seq<real>) returns (levels: seq<nat>, total: nat)
    requires |draws| == |q| && (forall i | 0 <= i < |draws| :: 0.0 <= draws[i] < 1.0)
    requires (forall i | 0 <= i < |q| :: lo <= q[i] <= hi) && width == (hi - lo) / MAX_LEVEL as real && width != 0.0
    ensures |levels| == |q| && LevelsOk(levels) && total == SumTo(levels, |levels|) && (|q| > 0 ==> width > 0.0)
    ensures forall i | 0 <= i < |levels| :: Near(q[i], lo, width, levels[i])
  {
    hide Near;
    levels, total := [], 0;
    while |levels| < |q|
      invariant |levels| <= |q| && LevelsOk(levels) && total == SumTo(levels, |levels|)
      invariant |levels| > 0 ==> width > 0.0
      invariant forall i | 0 <= i < |levels| :: Near(q[i], lo, width, levels[i])
    {
      var level := QuantizeOne(q[|levels|], lo, hi, width, draws[|levels|]);
      SumPush(levels, level);
      total := total + level;
      levels := levels + [level];
    }
  }

  lemma {:induction false} SumPush(levels: seq<nat>, x: nat)
    ensures SumTo(levels + [x], |levels| + 1) == SumTo(levels, |levels|) + x
  {
    SumPrefix(levels, levels + [x], |levels|);
  }

  lemma {:induction false} SumPrefix(a: seq<nat>, b: seq<nat>, n: nat)
    requires n <= |a| <= |b| && a <= b
    ensures SumTo(a, n) == SumTo(b, n)
    decreases n
  {
    if n > 0 { SumPrefix(a, b, n - 1); }
  }

  lemma {:induction false} SumZeros(n: nat, m: nat)
    requires m <= n
    ensures SumTo(seq(n, i => 0), m) == 0
    decreases m
  {
    if m > 0 { SumZeros(n, m - 1); }
  }

  // Encodes a query against one cluster. A query that differs from the centroid becomes its rotated
  // unit residual, quantized.
  method EncodeQuery(sqrt: Sqrt, query: Vector, centroid: Vector, rot: Rotation, draws: seq<real>)
    returns (qc: QueryCode, ghost q: Vector, ghost levels: seq<nat>)
    requires IsSqrt(sqrt) && |query| == |centroid| == |draws| && Square(rot, |query|)
    requires forall i | 0 <= i < |draws| :: 0.0 <= draws[i] < 1.0
    ensures qc.dim == |query| && qc.residualNorm * qc.residualNorm == Dot(Diff(query, centroid), Diff(query, centroid))
    ensures query == centroid ==> qc.lower == qc.width == 0.0 && qc.sumQuant == 0 && qc.residualNorm == 0.0
    ensures query != centroid ==>
              && Quantized(qc, q, levels)
              && exists unit: Vector :: IsUnit(unit, qc.residualNorm, query, centroid) && q == ApplyInverse(rot, unit)
  {
    hide Dot, Quantized;
    q, levels := [], [];
    var unit, norm := UnitResidual(sqrt, query, centroid);
    if norm == 0.0 {
      var planes := Scatter(seq(|query|, i => 0), |query|);
      return QueryCode(planes, 0.0, 0.0, 0.0, 0, |query|), [], [];
    }
    var turned := ApplyInverse(rot, unit);
    q := turned;
    assert |query| > 0;
    qc, levels := Quantize(turned, norm, draws);
    assert IsUnit(unit, norm, query, centroid);
  }

  // Quantizes the rotated query uniformly between its least and greatest coordinates.
  method Quantize(q: Vector, norm: real, draws: seq<real>) returns (qc: QueryCode, ghost levels: seq<nat>)
    requires |q| > 0 && |draws| == |q| && forall i | 0 <= i < |draws| :: 0.0 <= draws[i] < 1.0
    ensures qc.dim == |q| && qc.residualNorm == norm && Quantized(qc, q, levels)
  {
    hide PlaneOk, Near, Spans;
    var dim := |q|;
    var lo, hi := Range(q);
    var width := (hi - lo) / MAX_LEVEL as real;
    RangeSpans(q, lo, hi, width);
    if width == 0.0 {
      var zeros := seq(dim, (i: int) => 0);
      var planes := Scatter(zeros, dim);
      SumZeros(dim, dim);
      levels := zeros;
      qc := QueryCode(planes, norm, lo, 0.0, 0, dim);
      FlatQuery(q, lo, hi, width, zeros);
      return;
    }
    var ls, total := QuantizeLevels(q, lo, hi, width, draws);
    levels := ls;
    var planes := Scatter(ls, dim);
    qc := QueryCode(planes, norm, lo, width, total, dim);
  }

  lemma {:induction false} FlatQuery(q: Vector, lo: real, hi: real, width: real, levels: seq<nat>)
    requires (forall i | 0 <= i < |q| :: lo <= q[i] <= hi) && width == (hi - lo) / MAX_LEVEL as real && width == 0.0
    requires |levels| == |q| && forall i | 0 <= i < |levels| :: levels[i] == 0
    ensures forall i | 0 <= i < |q| :: Near(q[i], lo, 0.0, levels[i])
  {
    assert hi - lo == width * 15.0;
  }

  method Scatter(levels: seq<nat>, dim: nat) returns (planes: seq<seq<bv64>>)
    requires |levels| == dim
    ensures PlanesOk(planes, levels, dim)
  {
    hide PlaneOk;
    planes := [];
    while |planes| < BQ_BITS
      invariant |planes| <= BQ_BITS && forall j | 0 <= j < |planes| :: PlaneOk(planes[j], levels, dim, j)
    {
      var plane := ScatterPlane(levels, dim, |planes|);
      planes := planes + [plane];
    }
  }

  // ---------------------------------------------------------------- the estimate

  // The bit string against the levels.
  function BitDot(bits: seq<bv64>, levels: seq<nat>, n: nat): nat
    requires n <= |levels|
    decreases n
  {
    if n == 0 then 0 else BitDot(bits, levels, n - 1) + Ind(bits, n - 1) * levels[n - 1]
  }

  // Four popcounts, shifted and added, are the integer inner product.
  lemma {:induction false} PlanesAreDot(bits: seq<bv64>, planes: seq<seq<bv64>>, levels: seq<nat>, n: nat, dim: nat)
    requires PlanesOk(planes, levels, dim) && LevelsOk(levels) && n <= |levels|
    ensures OnesBoth(bits, planes[0], n) + 2 * OnesBoth(bits, planes[1], n) + 4 * OnesBoth(bits, planes[2], n) + 8 * OnesBoth(bits, planes[3], n)
         == BitDot(bits, levels, n)
    decreases n
  {
    hide Ind, LevelBit;
    if n > 0 {
      PlanesAreDot(bits, planes, levels, n - 1, dim);
      var i := n - 1;
      assert PlaneOk(planes[0], levels, dim, 0) && PlaneOk(planes[1], levels, dim, 1);
      assert PlaneOk(planes[2], levels, dim, 2) && PlaneOk(planes[3], levels, dim, 3);
      LevelBits(levels[i]);
      SpreadBits(Ind(bits, i), LevelBit(levels[i], 0), LevelBit(levels[i], 1), LevelBit(levels[i], 2), LevelBit(levels[i], 3));
    }
  }

  lemma {:induction false} SpreadBits(b: nat, l0: nat, l1: nat, l2: nat, l3: nat)
    ensures b * l0 + 2 * (b * l1) + 4 * (b * l2) + 8 * (b * l3) == b * (l0 + 2 * l1 + 4 * l2 + 8 * l3)
  {
  }

  // The sum the estimator stands for: codebook coordinates against dequantized query coordinates.
  function EstimateTo(bits: seq<bv64>, inv: real, lower: real, width: real, levels: seq<nat>, n: nat): real
    requires n <= |levels|
    decreases n
  {
    if n == 0 then 0.0
    else EstimateTo(bits, inv, lower, width, levels, n - 1) + Term(XBar(bits, inv, n - 1), lower, width, levels[n - 1])
  }

  // The same sum against the query as it was before quantization.
  function ExactTo(bits: seq<bv64>, inv: real, q: Vector, n: nat): real
    requires n <= |q|
    decreases n
  {
    if n == 0 then 0.0 else ExactTo(bits, inv, q, n - 1) + Mul(XBar(bits, inv, n - 1), q[n - 1])
  }

  // The expansion the estimator computes from counts.
  function Formula(inv: real, lower: real, width: real, dot: nat, ones: nat, sum: nat, m: nat): real {
    inv * (2.0 * width * dot as real + 2.0 * lower * ones as real - width * sum as real - lower * m as real)
  }

  function Term(x: real, lower: real, width: real, level: nat): real {
    x * (lower + width * level as real)
  }

  // The popcount formula, exactly.
  lemma {:induction false} FormulaIsSum(bits: seq<bv64>, inv: real, lower: real, width: real, levels: seq<nat>, n: nat)
    requires n <= |levels|
    ensures EstimateTo(bits, inv, lower, width, levels, n)
         == Formula(inv, lower, width, BitDot(bits, levels, n), Ones(bits, n), SumTo(levels, n), n)
    decreases n
  {
    hide Bitmaps.DenseHas, Formula, Term;
    if n == 0 {
      FormulaNone(inv, lower, width);
    } else {
      FormulaIsSum(bits, inv, lower, width, levels, n - 1);
      FormulaStep(inv, lower, width, Ind(bits, n - 1), levels[n - 1], BitDot(bits, levels, n - 1), Ones(bits, n - 1), SumTo(levels, n - 1), n - 1);
    }
  }

  lemma {:induction false} FormulaNone(inv: real, lower: real, width: real)
    ensures Formula(inv, lower, width, 0, 0, 0, 0) == 0.0
  {
  }

  lemma {:induction false} FormulaStep(inv: real, lower: real, width: real, b: nat, level: nat, dot: nat, ones: nat, sum: nat, m: nat)
    requires b <= 1
    ensures Formula(inv, lower, width, dot, ones, sum, m) + Term(if b == 1 then inv else -inv, lower, width, level)
         == Formula(inv, lower, width, dot + b * level, ones + b, sum + level, m + 1)
  {
    var l := width * level as real;
    var body := 2.0 * width * dot as real + 2.0 * lower * ones as real - width * sum as real - lower * m as real;
    assert width * (sum + level) as real == width * sum as real + l;
    assert lower * (m + 1) as real == lower * m as real + lower;
    if b == 1 {
      assert b * level == level;
      assert 2.0 * width * (dot + level) as real == 2.0 * width * dot as real + 2.0 * l;
      assert 2.0 * lower * (ones + 1) as real == 2.0 * lower * ones as real + 2.0 * lower;
      DistributeLeft(inv, body, lower + l);
    } else {
      assert b * level == 0;
      DistributeLeft(inv, body, -(lower + l));
      Negated(inv, lower + l);
    }
  }

  lemma {:induction false} DistributeLeft(k: real, a: real, b: real)
    ensures k * (a + b) == k * a + k * b
  {
  }

  lemma {:induction false} Negated(k: real, a: real)
    ensures k * (-a) == (-k) * a
  {
  }

  // Quantizing the query moves the sum by at most one step per coordinate, scaled by 1 / sqrt(D).
  lemma {:induction false} ErrorTo(bits: seq<bv64>, inv: real, lower: real, width: real, levels: seq<nat>, q: Vector, n: nat)
    requires n <= |levels| && n <= |q| && inv >= 0.0 && width >= 0.0
    requires forall i | 0 <= i < n :: Near(q[i], lower, width, levels[i])
    ensures var e := EstimateTo(bits, inv, lower, width, levels, n) - ExactTo(bits, inv, q, n);
            -Bound(n, Mul(inv, width)) <= e <= Bound(n, Mul(inv, width))
    decreases n
  {
    hide Bitmaps.DenseHas, Term, Near, Bound, Mul;
    if n == 0 {
      BoundNone(Mul(inv, width));
    } else {
      ErrorTo(bits, inv, lower, width, levels, q, n - 1);
      var x := XBar(bits, inv, n - 1);
      TermError(x, inv, lower, width, levels[n - 1], q[n - 1]);
      BoundStep(n - 1, Mul(inv, width));
    }
  }

  function Bound(n: nat, step: real): real { n as real * step }

  lemma {:induction false} BoundNone(step: real)
    ensures Bound(0, step) == 0.0
  {
  }

  lemma {:induction false} BoundStep(n: nat, step: real)
    ensures Bound(n + 1, step) == Bound(n, step) + step
  {
  }

  lemma {:induction false} TermError(x: real, inv: real, lower: real, width: real, level: nat, q: real)
    requires Near(q, lower, width, level) && inv >= 0.0 && width >= 0.0 && (x == inv || x == -inv)
    ensures -Mul(inv, width) <= Term(x, lower, width, level) - Mul(x, q) <= Mul(inv, width)
  {
    hide Mul;
    var v := lower + width * level as real;
    TermIsMul(x, lower, width, level);
    SubLeft(x, v, q);
    ProductBound(x, inv, v - q, width);
  }

  lemma {:induction false} TermIsMul(x: real, lower: real, width: real, level: nat)
    ensures Term(x, lower, width, level) == Mul(x, lower + width * level as real)
  {
  }

  lemma {:induction false} SubLeft(k: real, a: real, b: real)
    ensures Mul(k, a - b) == Mul(k, a) - Mul(k, b)
  {
  }

  lemma {:induction false} ProductBound(x: real, a: real, e: real, w: real)
    requires a >= 0.0 && w >= 0.0 && -w <= e <= w && (x == a || x == -a)
    ensures -Mul(a, w) <= Mul(x, e) <= Mul(a, w)
  {
    hide Mul;
    MonotoneTimes(a, e, w);
    MonotoneTimes(a, -e, w);
    NegRight(a, e);
    NegLeft(a, e);
  }

  lemma {:induction false} NegRight(a: real, e: real)
    ensures Mul(a, -e) == -Mul(a, e)
  {
  }

  lemma {:induction false} NegLeft(a: real, e: real)
    ensures Mul(-a, e) == -Mul(a, e)
  {
  }

  lemma {:induction false} MonotoneTimes(a: real, e: real, w: real)
    requires a >= 0.0 && e <= w
    ensures Mul(a, e) <= Mul(a, w)
  {
    assert a * (w - e) >= 0.0;
  }

  // Popcounts to inner product. Before the division by the de-bias scalar the estimate is the sum of
  // codebook coordinates against dequantized query coordinates, exactly, and it is within
  // sqrt(D) steps of the sum against the unquantized query.
  method EstimateInnerProduct(sqrt: Sqrt, code: Code, qc: QueryCode, ghost q: Vector, ghost levels: seq<nat>) returns (est: real)
    requires IsSqrt(sqrt) && qc.dim > 0 && Packed(code.bits, qc.dim) && Quantized(qc, q, levels)
    ensures var sum := EstimateTo(code.bits, 1.0 / sqrt(qc.dim as real), qc.lower, qc.width, levels, qc.dim);
            est == if code.ooAlign == 0.0 then 0.0 else sum / code.ooAlign
    ensures var inv := 1.0 / sqrt(qc.dim as real);
            var error := EstimateTo(code.bits, inv, qc.lower, qc.width, levels, qc.dim) - ExactTo(code.bits, inv, q, qc.dim);
            -(sqrt(qc.dim as real) * qc.width) <= error <= sqrt(qc.dim as real) * qc.width
  {
    hide PlanesOk, Packed, Near, EstimateTo, ExactTo, Formula;
    var dim := qc.dim;
    var inv := 1.0 / sqrt(dim as real);
    WithinRoot(sqrt, code.bits, qc, q, levels);
    if code.ooAlign == 0.0 {
      return 0.0;
    }
    var popXBar := Popcount(code.bits, dim);
    var bitDot := PlaneDot(code.bits, qc.planes, dim, levels);
    FormulaIsSum(code.bits, inv, qc.lower, qc.width, levels, dim);
    var obarq := Formula(inv, qc.lower, qc.width, bitDot, popXBar, qc.sumQuant, dim);
    est := obarq / code.ooAlign;
  }

  lemma {:induction false} WithinRoot(sqrt: Sqrt, bits: seq<bv64>, qc: QueryCode, q: Vector, levels: seq<nat>)
    requires IsSqrt(sqrt) && qc.dim > 0 && Quantized(qc, q, levels)
    ensures var inv := 1.0 / sqrt(qc.dim as real);
            var e := EstimateTo(bits, inv, qc.lower, qc.width, levels, qc.dim) - ExactTo(bits, inv, q, qc.dim);
            -(sqrt(qc.dim as real) * qc.width) <= e <= sqrt(qc.dim as real) * qc.width
  {
    hide PlanesOk, Near, EstimateTo, ExactTo, LevelsOk;
    var s := sqrt(qc.dim as real);
    ErrorTo(bits, 1.0 / s, qc.lower, qc.width, levels, q, qc.dim);
    RootTimes(qc.dim as real, s, qc.width);
  }

  lemma {:induction false} RootTimes(d: real, s: real, w: real)
    requires s > 0.0 && s * s == d
    ensures d * (1.0 / s * w) == s * w
  {
    assert 1.0 / s * s == 1.0;
    assert d * (1.0 / s * w) == s * (s * (1.0 / s)) * w;
  }

  lemma {:induction false} ExactIsDot(bits: seq<bv64>, inv: real, q: Vector, n: nat)
    requires n <= |q|
    ensures ExactTo(bits, inv, q, n) == DotTo(Codebook(bits, inv, |q|), q, n)
    decreases n
  {
    hide XBar;
    if n > 0 { ExactIsDot(bits, inv, q, n - 1); }
  }

  // What the estimate stands for, without the rotation on the query: it is within sqrt(D) steps of
  // the inner product of the rebuilt code with the unit query residual, over the de-bias scalar.
  lemma {:induction false} EstimateOfResidual(sqrt: Sqrt, rot: Rotation, code: Code, qc: QueryCode, unit: Vector, q: Vector, levels: seq<nat>, est: real)
    requires IsSqrt(sqrt) && qc.dim > 0 && Square(rot, qc.dim) && |unit| == qc.dim && code.ooAlign > 0.0
    requires q == ApplyInverse(rot, unit) && Quantized(qc, q, levels)
    requires est == EstimateTo(code.bits, 1.0 / sqrt(qc.dim as real), qc.lower, qc.width, levels, qc.dim) / code.ooAlign
    ensures var error := est * code.ooAlign - Dot(Rebuilt(sqrt, rot, code.bits, qc.dim), unit);
            -(sqrt(qc.dim as real) * qc.width) <= error <= sqrt(qc.dim as real) * qc.width
  {
    hide LevelsOk, PlanesOk, Near, EstimateTo, ColumnTo, XBar;
    var inv := 1.0 / sqrt(qc.dim as real);
    WithinRoot(sqrt, code.bits, qc, q, levels);
    ExactIsDot(code.bits, inv, q, qc.dim);
    RotationMoves(rot, Codebook(code.bits, inv, qc.dim), unit);
    assert est * code.ooAlign == EstimateTo(code.bits, inv, qc.lower, qc.width, levels, qc.dim);
  }

  method PlaneDot(bits: seq<bv64>, planes: seq<seq<bv64>>, dim: nat, ghost levels: seq<nat>) returns (bitDot: nat)
    requires Packed(bits, dim) && PlanesOk(planes, levels, dim) && LevelsOk(levels) && |levels| == dim
    ensures bitDot == BitDot(bits, levels, dim)
  {
    hide PlaneOk, OnesBoth, LevelsOk, BitDot;
    bitDot := 0;
    var j := 0;
    while j < |planes|
      invariant j <= |planes| == BQ_BITS && bitDot == ShiftedTo(bits, planes, dim, j)
    {
      PlaneSize(planes[j], levels, dim, j);
      var pc := AndPopcount(bits, planes[j], dim);
      bitDot := bitDot + pc * Pow2(j);
      j := j + 1;
    }
    FourPlanes(bits, planes, dim);
    PlanesAreDot(bits, planes, levels, dim, dim);
  }

  lemma {:induction false} PlaneSize(plane: seq<bv64>, levels: seq<nat>, dim: nat, j: nat)
    requires j < BQ_BITS && PlaneOk(plane, levels, dim, j)
    ensures |plane| == WordCount(dim)
  {
  }

  function ShiftedTo(bits: seq<bv64>, planes: seq<seq<bv64>>, dim: nat, j: nat): nat
    requires j <= |planes|
    decreases j
  {
    if j == 0 then 0 else ShiftedTo(bits, planes, dim, j - 1) + OnesBoth(bits, planes[j - 1], dim) * Pow2(j - 1)
  }

  lemma {:induction false} FourPlanes(bits: seq<bv64>, planes: seq<seq<bv64>>, dim: nat)
    requires |planes| == BQ_BITS
    ensures ShiftedTo(bits, planes, dim, 4) == OnesBoth(bits, planes[0], dim) + 2 * OnesBoth(bits, planes[1], dim)
                                             + 4 * OnesBoth(bits, planes[2], dim) + 8 * OnesBoth(bits, planes[3], dim)
  {
    assert Pow2(0) == 1 && Pow2(1) == 2 && Pow2(2) == 4 && Pow2(3) == 8;
    var s := ShiftedTo(bits, planes, dim, 1);
    assert ShiftedTo(bits, planes, dim, 2) == s + OnesBoth(bits, planes[1], dim) * 2;
    assert ShiftedTo(bits, planes, dim, 3) == ShiftedTo(bits, planes, dim, 2) + OnesBoth(bits, planes[2], dim) * 4;
    assert ShiftedTo(bits, planes, dim, 4) == ShiftedTo(bits, planes, dim, 3) + OnesBoth(bits, planes[3], dim) * 8;
  }
}
