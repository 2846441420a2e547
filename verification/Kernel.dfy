/** The polynomial kernel as a sequential loop nest over 16-bit registers, and its meaning in the ring.

  The layer functions give the memory after one whole layer; the pipelined machine is proved
  to leave exactly this memory behind.  Here they are tied to the transforms of module Ring. */
module Kernel {
  import opened ModQ
  import opened Ring
  import Unity

  /** The constant ROM, in Montgomery form. */
  type Zetas = z: seq<int> | |z| == 128 witness seq(128, _ => 0)

  /** The ROM's entries taken out of Montgomery form. */
  function RootsOf(z: Zetas): Roots {
    seq(128, k requires 0 <= k < 128 => z[k] * RINV)
  }

  /** What the proofs need of the ROM: small entries, the standard's powers of 17, and what follows from
      their order for the two transforms. */
  ghost predicate GoodRom(z: Zetas) {
    && (forall k: nat :: k < 128 ==> -1659 <= z[k] <= 1659)
    && Unity.CongRoots(RootsOf(z), Unity.StandardRoots())
    && RootsSplit(RootsOf(z))
    && RootsPair(RootsOf(z))
  }

  predicate Bounded(f: Poly, b: int) {
    forall a: nat :: a < 256 ==> -b <= f[a] <= b
  }

  predicate Words(f: Poly) {
    forall a: nat :: a < 256 ==> Is16(f[a])
  }

  // ---------------------------------------------------------------- one layer each way

  function ZetaAt(z: Zetas, l: nat, a: nat): int
    requires 1 <= l <= 7 && a < 256
  {
    z[Blocks(l - 1) + BlockOf(l - 1, a)]
  }

  function NttCoeff(z: Zetas, x: Poly, l: nat, a: nat): int
    requires 1 <= l <= 7 && a < 256
  {
    var m := Span(l);
    if Within(l - 1, a) < m then Wrap16(x[a] + FqMul(x[a + m], ZetaAt(z, l, a)))
    else Wrap16(x[a - m] - FqMul(x[a], ZetaAt(z, l, a)))
  }

  function NttLayer(z: Zetas, x: Poly, l: nat): Poly
    requires 1 <= l <= 7
  {
    seq(256, a requires 0 <= a < 256 => NttCoeff(z, x, l, a))
  }

  /** Memory after the first l forward layers. */
  function NttWords(z: Zetas, x: Poly, l: nat): Poly
    requires l <= 7
  {
    if l == 0 then x else NttLayer(z, NttWords(z, x, l - 1), l)
  }

  function BackZetaAt(z: Zetas, l: nat, a: nat): int
    requires 1 <= l <= 7 && a < 256
  {
    ChildBlocks(l, BlockOf(l - 1, a));
    z[Blocks(l) - 1 - BlockOf(l - 1, a)]
  }

  /** The Barrett branch of the inverse butterfly, register by register. */
  function BarrettSum(s: int): int {
    Wrap16(s - (Wrap32(20159 * s + 33554432) / 67108864) * 3329)
  }

  function InttCoeff(z: Zetas, x: Poly, l: nat, a: nat): int
    requires 1 <= l <= 7 && a < 256
  {
    var m := Span(l);
    if Within(l - 1, a) < m then BarrettSum(Wrap16(x[a] + x[a + m]))
    else FqMul(Wrap16(x[a] - x[a - m]), BackZetaAt(z, l, a))
  }

  function InttLayer(z: Zetas, x: Poly, l: nat): Poly
    requires 1 <= l <= 7
  {
    seq(256, a requires 0 <= a < 256 => InttCoeff(z, x, l, a))
  }

  function ScalePass(x: Poly): Poly {
    seq(256, a requires 0 <= a < 256 => FqMul(x[a], 1441))
  }

  /** Memory after the scale pass and layers 7 down to l + 1. */
  function InttWords(z: Zetas, x: Poly, l: nat): Poly
    requires l <= 7
    decreases 7 - l
  {
    if l == 7 then ScalePass(x) else InttLayer(z, InttWords(z, x, l + 1), l + 1)
  }

  function PairZeta(z: Zetas, i: nat): int
    requires i < 128
  {
    if i % 2 == 1 then Wrap16(-z[64 + i / 2]) else z[64 + i / 2]
  }

  /** Products of the 128 degree-one residues; the zeta path reduces twice. */
  function BaseMulWords(z: Zetas, x: Poly, y: Poly): Poly {
    seq(256, a requires 0 <= a < 256 => BaseMulCoeff(z, x, y, a))
  }

  function BaseMulCoeff(z: Zetas, x: Poly, y: Poly, a: nat): int
    requires a < 256
  {
    var p := a - a % 2;
    if a % 2 == 0 then Wrap16(FqMul(FqMul(x[p + 1], y[p + 1]), PairZeta(z, a / 2)) + FqMul(x[p], y[p]))
    else Wrap16(FqMul(x[p], y[p + 1]) + FqMul(x[p + 1], y[p]))
  }

  // ---------------------------------------------------------------- forward meaning and range

  lemma NttButterfly(a: int, b: int, zeta: int, B: int, x: int, y: int)
    requires 0 <= B <= 26624 - 3328
    requires -B <= a <= B && -B <= b <= B && -1659 <= zeta <= 1659
    requires Cong(a, x) && Cong(b, y)
    ensures -(B + 3328) <= a + FqMul(b, zeta) <= B + 3328
    ensures -(B + 3328) <= a - FqMul(b, zeta) <= B + 3328
    ensures Cong(a + FqMul(b, zeta), x + (zeta * RINV) * y)
    ensures Cong(a - FqMul(b, zeta), x - (zeta * RINV) * y)
  {
    hide FqMul, Cong;
    FqMulBounded(b, 23296, zeta, 1659, y);
    var w := (zeta * RINV) * y;
    CongAdd(a, x, FqMul(b, zeta), w);
    CongSub(a, x, FqMul(b, zeta), w);
  }

  lemma NttLayerMeaning(z: Zetas, x: Poly, l: nat, f: Poly)
    requires 1 <= l <= 7 && GoodRom(z)
    requires Bounded(x, l * 3328) && CongPoly(x, f)
    ensures Bounded(NttLayer(z, x, l), (l + 1) * 3328)
    ensures CongPoly(NttLayer(z, x, l), Split(RootsOf(z), f, l))
  {
    hide Span, Blocks, Base, BlockOf, Within, RootsSplit, RootsPair, Unity.CongRoots, FqMul;
    var r := RootsOf(z);
    forall a: nat | a < 256
      ensures -((l + 1) * 3328) <= NttLayer(z, x, l)[a] <= (l + 1) * 3328
      ensures Cong(NttLayer(z, x, l)[a], Split(r, f, l)[a])
    {
      var b, m := BlockOf(l - 1, a), Span(l);
      ChildBlocks(l, b);
      var lo := if Within(l - 1, a) < m then a else a - m;
      NttButterfly(x[lo], x[lo + m], ZetaAt(z, l, a), l * 3328, f[lo], f[lo + m]);
    }
  }

  /** Forward transform: after layer l every coefficient is within (l + 1) * 3328, so no
      register wraps, and the memory is congruent to the reductions of the input. */
  lemma {:induction false} NttMeaning(z: Zetas, x: Poly, l: nat)
    requires l <= 7 && GoodRom(z) && Bounded(x, 3328)
    ensures Bounded(NttWords(z, x, l), (l + 1) * 3328)
    ensures CongPoly(NttWords(z, x, l), Forward(RootsOf(z), x, l))
  {
    hide NttLayer, Split, GoodRom, RootsOf;
    if l > 0 {
      NttMeaning(z, x, l - 1);
      NttLayerMeaning(z, NttWords(z, x, l - 1), l, Forward(RootsOf(z), x, l - 1));
    }
  }

  // ---------------------------------------------------------------- inverse meaning and range

  lemma BarrettSumMeaning(s: int)
    requires Is16(s)
    ensures -1665 <= BarrettSum(s) <= 1665
    ensures Cong(BarrettSum(s), s)
  {
    BarrettExact(s);
    CongWitness(BarrettSum(s), s, -BarrettQuotient(s));
  }

  lemma InttButterfly(a: int, b: int, zeta: int, s: int, x: int, y: int)
    requires -3328 <= a <= 3328 && -3328 <= b <= 3328 && -1659 <= zeta <= 1659
    requires Cong(a, s * x) && Cong(b, s * y)
    ensures -3328 <= BarrettSum(Wrap16(a + b)) <= 3328
    ensures -3328 <= FqMul(Wrap16(b - a), zeta) <= 3328
    ensures Cong(BarrettSum(Wrap16(a + b)), s * (x + y))
    ensures Cong(FqMul(Wrap16(b - a), zeta), s * ((zeta * RINV) * (y - x)))
  {
    hide FqMul, BarrettSum, Cong;
    BarrettSumMeaning(a + b);
    ScaledSum(a, b, s, x, y);
    CongTrans(BarrettSum(a + b), a + b, s * (x + y));
    CongWitness(b - a, b - a, 0);
    FqMulBounded(b - a, 6656, zeta, 1659, b - a);
    var w := zeta * RINV;
    ScaledDifference(w, b, a, s, y, x);
    CongTrans(FqMul(b - a, zeta), w * (b - a), s * (w * (y - x)));
  }

  lemma InttLayerMeaning(z: Zetas, x: Poly, l: nat, s: int, f: Poly)
    requires 1 <= l <= 7 && GoodRom(z)
    requires Bounded(x, 3328) && CongPoly(x, Scaled(s, f))
    ensures Bounded(InttLayer(z, x, l), 3328)
    ensures CongPoly(InttLayer(z, x, l), Scaled(s, Merge(RootsOf(z), f, l)))
  {
    hide Span, Blocks, Base, BlockOf, Within, RootsSplit, RootsPair, Unity.CongRoots, FqMul, BarrettSum;
    var r := RootsOf(z);
    forall a: nat | a < 256
      ensures -3328 <= InttLayer(z, x, l)[a] <= 3328
      ensures Cong(InttLayer(z, x, l)[a], Scaled(s, Merge(r, f, l))[a])
    {
      var b, m := BlockOf(l - 1, a), Span(l);
      ChildBlocks(l, b);
      var lo := if Within(l - 1, a) < m then a else a - m;
      assert Cong(x[lo], Scaled(s, f)[lo]) && Cong(x[lo + m], Scaled(s, f)[lo + m]);
      InttButterfly(x[lo], x[lo + m], BackZetaAt(z, l, a), s, f[lo], f[lo + m]);
    }
  }

  lemma ScaleMeaning(v: int)
    requires Is16(v)
    ensures -3328 <= FqMul(v, 1441) <= 3328 && Cong(FqMul(v, 1441), 512 * v)
  {
    hide FqMul, Cong;
    CongWitness(v, v, 0);
    FqMulBounded(v, 32768, 1441, 1441, v);
    CongWitness((1441 * RINV) * v, 512 * v, 73 * v);
    CongTrans(FqMul(v, 1441), (1441 * RINV) * v, 512 * v);
  }

  lemma ScalePassMeaning(x: Poly)
    requires Words(x)
    ensures Bounded(ScalePass(x), 3328) && CongPoly(ScalePass(x), Scaled(512, x))
  {
    hide FqMul;
    forall a: nat | a < 256
      ensures -3328 <= ScalePass(x)[a] <= 3328 && Cong(ScalePass(x)[a], Scaled(512, x)[a])
    {
      ScaleMeaning(x[a]);
    }
  }

  /** Inverse transform: from any 16-bit memory every intermediate coefficient stays below Q in
      magnitude, and each layer is the ring's, times the factor 512 of the scale pass. */
  lemma {:induction false} InttLayersMeaning(z: Zetas, x: Poly, l: nat)
    requires l <= 7 && GoodRom(z) && Words(x)
    ensures Bounded(InttWords(z, x, l), 3328)
    ensures CongPoly(InttWords(z, x, l), Scaled(512, Backward(RootsOf(z), x, l)))
    decreases 7 - l
  {
    hide InttLayer, Merge, GoodRom, RootsOf, ScalePass;
    if l == 7 {
      ScalePassMeaning(x);
    } else {
      InttLayersMeaning(z, x, l + 1);
      InttLayerMeaning(z, InttWords(z, x, l + 1), l + 1, 512, Backward(RootsOf(z), x, l + 1));
    }
  }

  lemma RescaleFactor(v: int)
    ensures Cong(512 * v, R * (3303 * v))
  {
    CongWitness(512 * v, R * (3303 * v), -65024 * v);
  }

  /** The inverse command computes R times the inverse transform. */
  lemma InttMeaning(z: Zetas, x: Poly)
    requires GoodRom(z) && Words(x)
    ensures Bounded(InttWords(z, x, 0), 3328)
    ensures CongPoly(InttWords(z, x, 0), Scaled(R, InvNtt(RootsOf(z), x)))
  {
    hide GoodRom, RootsOf, Backward, InttWords, Cong;
    InttLayersMeaning(z, x, 0);
    var y := Backward(RootsOf(z), x, 0);
    forall a: nat | a < 256 ensures Cong(InttWords(z, x, 0)[a], Scaled(R, InvNtt(RootsOf(z), x))[a]) {
      assert Cong(InttWords(z, x, 0)[a], Scaled(512, y)[a]);
      RescaleFactor(y[a]);
      CongTrans(InttWords(z, x, 0)[a], 512 * y[a], R * (3303 * y[a]));
    }
  }

  // ---------------------------------------------------------------- base multiplication

  /** One pair, for operands within A and B.  A * B <= 2^15 * Q is the case of a 12-bit operand. */
  lemma BaseMulPairMeaning(a0: int, a1: int, b0: int, b1: int, zeta: int, A: int, B: int)
    requires -A <= a0 <= A && -A <= a1 <= A && -B <= b0 <= B && -B <= b1 <= B
    requires -1659 <= zeta <= 1659 && A * B <= 708837376
    ensures var even := FqMul(FqMul(a1, b1), zeta) + FqMul(a0, b0);
      && Cong(even, RINV * (a0 * b0 + (zeta * RINV) * (a1 * b1)))
      && Is16(even) && (A * B < 109084672 ==> -6656 <= even <= 6656)
    ensures var odd := FqMul(a0, b1) + FqMul(a1, b0);
      && Cong(odd, RINV * (a0 * b1 + a1 * b0))
      && Is16(odd) && (A * B < 109084672 ==> -6656 <= odd <= 6656)
  {
    hide FqMul, Cong;
    CongWitness(a0, a0, 0);
    CongWitness(a1, a1, 0);
    FqMulBounded(a0, A, b0, B, a0);
    FqMulBounded(a0, A, b1, B, a0);
    FqMulBounded(a1, A, b0, B, a1);
    FqMulBounded(a1, A, b1, B, a1);
    var w := zeta * RINV;
    FqMulBounded(FqMul(a1, b1), 12481, zeta, 1659, (b1 * RINV) * a1);
    CongAdd(FqMul(FqMul(a1, b1), zeta), w * ((b1 * RINV) * a1), FqMul(a0, b0), (b0 * RINV) * a0);
    CongAdd(FqMul(a0, b1), (b1 * RINV) * a0, FqMul(a1, b0), (b0 * RINV) * a1);
    EvenForm(a0, a1, b0, b1, w);
  }

  lemma EvenForm(a0: int, a1: int, b0: int, b1: int, w: int)
    ensures w * ((b1 * RINV) * a1) + (b0 * RINV) * a0 == RINV * (a0 * b0 + w * (a1 * b1))
    ensures (b1 * RINV) * a0 + (b0 * RINV) * a1 == RINV * (a0 * b1 + a1 * b0)
  {
    assert w * ((b1 * RINV) * a1) == RINV * (w * (a1 * b1));
  }

  /** BaseMul is RINV times the product of the residues whenever the operand bounds multiply to at
      most 26624^2, so also for two unreduced transforms; when one operand is an unchecked 12-bit
      value and the other an unreduced transform the result is within 2 * 3328. */
  lemma BaseMulMeaning(z: Zetas, x: Poly, y: Poly, A: int, B: int)
    requires GoodRom(z) && Bounded(x, A) && Bounded(y, B) && A * B <= 708837376
    ensures Words(BaseMulWords(z, x, y))
    ensures A * B < 109084672 ==> Bounded(BaseMulWords(z, x, y), 6656)
    ensures CongPoly(BaseMulWords(z, x, y), Scaled(RINV, MulNtt(RootsOf(z), x, y)))
  {
    hide FqMul, RootsSplit, RootsPair, Unity.CongRoots;
    forall a: nat | a < 256
      ensures A * B < 109084672 ==> -6656 <= BaseMulWords(z, x, y)[a] <= 6656
      ensures Cong(BaseMulWords(z, x, y)[a], Scaled(RINV, MulNtt(RootsOf(z), x, y))[a])
    {
      var p := a - a % 2;
      BaseMulPairMeaning(x[p], x[p + 1], y[p], y[p + 1], PairZeta(z, a / 2), A, B);
      var k := 128 + a / 2;
      assert NodeConst(RootsOf(z), k) == PairZeta(z, a / 2) * RINV by {
        assert k / 2 == 64 + a / 2 / 2;
      }
    }
  }

  // ---------------------------------------------------------------- the commands together

  function NttCommand(z: Zetas, x: Poly): Poly { NttWords(z, x, 7) }

  function InttCommand(z: Zetas, x: Poly): Poly { InttWords(z, x, 0) }

  /** Forward then inverse: the radix times the input, for every reduced input. */
  lemma ForwardInverse(z: Zetas, x: Poly)
    requires GoodRom(z) && Bounded(x, 3328)
    ensures CongPoly(InttCommand(z, NttCommand(z, x)), Scaled(R, x))
    ensures Bounded(InttCommand(z, NttCommand(z, x)), 3328)
  {
    hide NttWords, InttWords, RootsSplit, RootsPair, Unity.CongRoots, RootsOf, InvNtt, Forward, Cong;
    var r, y := RootsOf(z), NttCommand(z, x);
    NttMeaning(z, x, 7);
    InttMeaning(z, y);
    InverseReturns(r, x, y);
    forall a: nat | a < 256 ensures Cong(InttCommand(z, y)[a], Scaled(R, x)[a]) {
      assert Cong(InttCommand(z, y)[a], Scaled(R, InvNtt(r, y))[a]) && Cong(InvNtt(r, y)[a], x[a]);
      CongWitness(R, R, 0);
      CongMul(R, R, InvNtt(r, y)[a], x[a]);
      CongTrans(InttCommand(z, y)[a], R * InvNtt(r, y)[a], R * x[a]);
    }
  }

  lemma InverseReturns(r: Roots, x: Poly, y: Poly)
    requires RootsPair(r) && CongPoly(y, Ntt(r, x))
    ensures CongPoly(InvNtt(r, y), x)
  {
    hide RootsPair, InvNtt, Forward;
    var t := Ntt(r, x);
    forall a: nat | a < 256 ensures Cong(y[a], Scaled(1, t)[a]) { assert Cong(y[a], t[a]); }
    InvNttCong(r, y, 1, t);
    InvNttNtt(r, x);
    forall a: nat | a < 256 ensures Cong(InvNtt(r, y)[a], x[a]) {
      assert Cong(InvNtt(r, y)[a], Scaled(1, InvNtt(r, t))[a]) && Cong(InvNtt(r, t)[a], x[a]);
    }
  }

  /** Products of residues respect congruence of both operands. */
  lemma MulNttCong(r: Roots, x: Poly, x': Poly, y: Poly, y': Poly)
    requires CongPoly(x, x') && CongPoly(y, y')
    ensures CongPoly(MulNtt(r, x, y), MulNtt(r, x', y'))
  {
    forall a: nat | a < 256 ensures Cong(MulNtt(r, x, y)[a], MulNtt(r, x', y')[a]) {
      var p := a - a % 2;
      var c := NodeConst(r, 128 + a / 2);
      assert Cong(x[p], x'[p]) && Cong(x[p + 1], x'[p + 1]) && Cong(y[p], y'[p]) && Cong(y[p + 1], y'[p + 1]);
      PairCong(x[p], x'[p], x[p + 1], x'[p + 1], y[p], y'[p], y[p + 1], y'[p + 1], c);
    }
  }

  lemma PairCong(a0: int, x0: int, a1: int, x1: int, b0: int, y0: int, b1: int, y1: int, c: int)
    requires Cong(a0, x0) && Cong(a1, x1) && Cong(b0, y0) && Cong(b1, y1)
    ensures Cong(a0 * b0 + c * (a1 * b1), x0 * y0 + c * (x1 * y1))
    ensures Cong(a0 * b1 + a1 * b0, x0 * y1 + x1 * y0)
  {
    hide Cong;
    CongMul(a0, x0, b0, y0);
    CongMul(a1, x1, b1, y1);
    CongWitness(c, c, 0);
    CongMul(c, c, a1 * b1, x1 * y1);
    CongMul(a0, x0, b1, y1);
    CongMul(a1, x1, b0, y0);
    CongAdd(a0 * b0, x0 * y0, c * (a1 * b1), c * (x1 * y1));
    CongAdd(a0 * b1, x0 * y1, a1 * b0, x1 * y0);
  }

  /** Multiplication through the kernel is multiplication in Z_q[X]/(X^256 + 1): the Montgomery
      factors of BaseMul and of the inverse transform cancel exactly. */
  lemma KernelMultiplies(z: Zetas, f: Poly, g: Poly)
    requires GoodRom(z) && Bounded(f, 3328) && Bounded(g, 3328)
    ensures CongPoly(InttCommand(z, BaseMulWords(z, NttCommand(z, f), NttCommand(z, g))), RingMul(f, g))
  {
    hide NttWords, InttWords, RootsSplit, RootsPair, Unity.CongRoots, RootsOf, InvNtt, Forward, RingMul, BaseMulWords, MulNtt, CongPoly;
    var r, x, y := RootsOf(z), NttCommand(z, f), NttCommand(z, g);
    NttMeaning(z, f, 7);
    NttMeaning(z, g, 7);
    BaseMulMeaning(z, x, y, 26624, 26624);
    MulNttCong(r, x, Ntt(r, f), y, Ntt(r, g));
    InverseOfProduct(z, BaseMulWords(z, x, y), MulNtt(r, x, y));
    TransformOfProduct(r, f, g, MulNtt(r, x, y));
    CongPolyTrans(InttCommand(z, BaseMulWords(z, x, y)), InvNtt(r, MulNtt(r, x, y)), RingMul(f, g));
  }

  /** The inverse command takes RINV times a product of residues to its inverse transform. */
  lemma InverseOfProduct(z: Zetas, x: Poly, p: Poly)
    requires GoodRom(z) && Words(x) && CongPoly(x, Scaled(RINV, p))
    ensures CongPoly(InttCommand(z, x), InvNtt(RootsOf(z), p))
  {
    hide InttWords, GoodRom, RootsOf, InvNtt, Cong;
    var r := RootsOf(z);
    InttMeaning(z, x);
    InvNttCong(r, x, RINV, p);
    forall a: nat | a < 256 ensures Cong(InttCommand(z, x)[a], InvNtt(r, p)[a]) {
      var v := InvNtt(r, p)[a];
      assert Cong(InttCommand(z, x)[a], Scaled(R, InvNtt(r, x))[a]);
      assert Cong(InvNtt(r, x)[a], Scaled(RINV, InvNtt(r, p))[a]);
      FactorsCancel(InttCommand(z, x)[a], InvNtt(r, x)[a], v);
    }
  }

  lemma FactorsCancel(i: int, n: int, v: int)
    requires Cong(i, R * n) && Cong(n, RINV * v)
    ensures Cong(i, v)
  {
    hide Cong;
    CongWitness(R, R, 0);
    CongMul(R, R, n, RINV * v);
    CongWitness(R * (RINV * v), v, 3327 * v);
    CongTrans(i, R * n, R * (RINV * v));
    CongTrans(i, R * (RINV * v), v);
  }

  lemma TransformOfProduct(r: Roots, f: Poly, g: Poly, p: Poly)
    requires RootsSplit(r) && RootsPair(r) && CongPoly(p, MulNtt(r, Ntt(r, f), Ntt(r, g)))
    ensures CongPoly(InvNtt(r, p), RingMul(f, g))
  {
    hide InvNtt, Forward, RingMul, MulNtt, RootsSplit, RootsPair, Unity.CongRoots;
    var h := RingMul(f, g);
    NttMultiplicative(r, f, g);
    forall a: nat | a < 256 ensures Cong(p[a], Ntt(r, h)[a]) {
      assert Cong(p[a], MulNtt(r, Ntt(r, f), Ntt(r, g))[a]);
    }
    InverseReturns(r, h, p);
  }

  lemma CongPolyTrans(f: Poly, g: Poly, h: Poly)
    requires CongPoly(f, g) && CongPoly(g, h)
    ensures CongPoly(f, h)
  {
    forall a: nat | a < 256 ensures Cong(f[a], h[a]) { assert Cong(f[a], g[a]) && Cong(g[a], h[a]); }
  }
}
