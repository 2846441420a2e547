/** ByteEncode of compressed polynomials as the standard writes it, bit by bit (FIPS 203, section 4.2.1),
  and the packing circuits against it. */
module Encoding {
  import opened Bytes
  import opened Ring
  import opened Codec
  import opened Layout
  import Mac
  import Sampling

  // ---------------------------------------------------------------- the standard

  /** Bit j of the concatenation of d-bit fields, each least significant bit first. */
  function FieldBit(f: seq<nat>, d: nat, j: nat): (b: nat)
    requires d > 0 && j < d * |f|
  {
    FieldIndex(|f|, d, j);
    Sampling.Bit(f[j / d], j % d)
  }

  lemma FieldIndex(n: nat, d: nat, j: nat)
    requires d > 0 && j < d * n
    ensures j / d < n
  {
    assert j == d * (j / d) + j % d;
    TimesMonotone(d, n, j / d);
  }

  lemma TimesMonotone(d: nat, a: nat, b: nat)
    ensures a <= b ==> d * a <= d * b
  {
    if a <= b { assert d * b - d * a == d * (b - a); }
  }

  /** The number bits j to j + n - 1 spell, least significant first. */
  function FromBits(f: seq<nat>, d: nat, j: nat, n: nat): nat
    requires d > 0 && j + n <= d * |f|
    decreases n
  {
    if n == 0 then 0 else FieldBit(f, d, j) + 2 * FromBits(f, d, j + 1, n - 1)
  }

  lemma {:induction false} FromBitsBelow(f: seq<nat>, d: nat, j: nat, n: nat)
    requires d > 0 && j + n <= d * |f|
    ensures FromBits(f, d, j, n) < Mac.Pow2(n)
    decreases n
  {
    if n > 0 {
      FromBitsBelow(f, d, j + 1, n - 1);
      FieldIndex(|f|, d, j);
      Sampling.BitRange(f[j / d], j % d);
    }
  }

  type Fields = f: seq<nat> | |f| == 256 witness seq(256, _ => 0)

  /** Eight consecutive bits to a byte. */
  function ByteEncode(f: Fields, d: nat): (e: seq<Byte>)
    requires d > 0
    ensures |e| == 32 * d
  {
    seq(32 * d, k requires 0 <= k < 32 * d => EncodedByte(f, d, k))
  }

  function EncodedByte(f: Fields, d: nat, k: nat): Byte
    requires d > 0 && k < 32 * d
  {
    FromBitsBelow(f, d, 8 * k, 8);
    Mac.PowersOfTwo();
    FromBits(f, d, 8 * k, 8)
  }

  /** Compress of every residue. */
  function Compressed(p: Poly, m: nat): Fields
    requires m > 0
  {
    seq(256, i requires 0 <= i < 256 => Compress(p[i] % 3329, m))
  }

  /** ByteEncode of Compress, with d = 4 or d = 10. */
  function StandardBytes(p: Poly, d4: bool): seq<Byte> {
    if d4 then ByteEncode(Compressed(p, 16), 4) else ByteEncode(Compressed(p, 1024), 10)
  }

  // ---------------------------------------------------------------- bits of one field

  /** Bits o to o + n - 1 of a number. */
  function Middle(x: nat, o: nat, n: nat): nat { Sampling.Shift(x, o) % Mac.Pow2(n) }

  lemma {:induction false} BitOfShift(x: nat, k: nat)
    ensures Sampling.Bit(x, k) == Sampling.Shift(x, k) % 2 && Sampling.Shift(x, k + 1) == Sampling.Shift(x, k) / 2
    decreases k
  {
    if k > 0 { BitOfShift(x / 2, k - 1); } else { assert Sampling.Shift(x, 1) == Sampling.Shift(x / 2, 0); }
  }

  lemma MiddleStep(x: nat, o: nat, n: nat)
    ensures Middle(x, o, n + 1) == Sampling.Bit(x, o) + 2 * Middle(x, o + 1, n)
  {
    BitOfShift(x, o);
    Mac.ModHalves(Sampling.Shift(x, o), Mac.Pow2(n));
  }

  /** First bit of field q. */
  function FirstBit(d: nat, q: nat): nat { if d == 4 then 4 * q else if d == 10 then 10 * q else 12 * q }

  /** Consecutive bits inside field q. */
  lemma {:induction false} FieldRun(f: Fields, d: nat, q: nat, o: nat, n: nat, j: nat)
    requires (d == 4 || d == 10 || d == 12) && q < 256 && o + n <= d && j == FirstBit(d, q) + o
    ensures j + n <= d * 256 && FromBits(f, d, j, n) == Middle(f[q], o, n)
    decreases n
  {
    if n > 0 {
      assert j / d == q && j % d == o;
      FieldRun(f, d, q, o + 1, n - 1, j + 1);
      MiddleStep(f[q], o, n - 1);
    }
  }

  /** A number spelled by two runs of bits. */
  lemma {:induction false} TwoRuns(f: Fields, d: nat, j: nat, n: nat, m: nat)
    requires d > 0 && j + n + m <= d * 256
    ensures FromBits(f, d, j, n + m) == FromBits(f, d, j, n) + Mac.Pow2(n) * FromBits(f, d, j + n, m)
    decreases n
  {
    if n == 0 {
      Mac.Once(FromBits(f, d, j, m));
    } else {
      TwoRuns(f, d, j + 1, n - 1, m);
      Mac.Twice(Mac.Pow2(n - 1), FromBits(f, d, j + n, m));
    }
  }

  /** A byte that takes n high bits of field q from o on, and the other low bits of field q + 1. */
  lemma Straddles(f: Fields, d: nat, q: nat, o: nat, n: nat, w: nat, k: nat)
    requires w == Mac.Pow2(n) && (d == 4 || d == 10 || d == 12) && q < 255 && o + n == d && n < 8 <= n + d && 8 * k == FirstBit(d, q) + o
    ensures k < 32 * d && EncodedByte(f, d, k) == Middle(f[q], o, n) + w * Middle(f[q + 1], 0, 8 - n)
  {
    hide FromBits, FieldBit, Middle, Mac.Pow2;
    FieldRun(f, d, q, o, n, 8 * k);
    FieldRun(f, d, q + 1, 0, 8 - n, 8 * k + n);
    TwoRuns(f, d, 8 * k, n, 8 - n);
    assert n + (8 - n) == 8;
  }

  lemma Inside(f: Fields, d: nat, q: nat, o: nat, k: nat)
    requires (d == 10 || d == 12) && q < 256 && o + 8 <= d && 8 * k == FirstBit(d, q) + o
    ensures k < 32 * d && EncodedByte(f, d, k) == Middle(f[q], o, 8)
  {
    hide FromBits, FieldBit, Middle;
    FieldRun(f, d, q, o, 8, 8 * k);
  }

  lemma Shifts(x: nat)
    ensures Sampling.Shift(x, 0) == x && Sampling.Shift(x, 2) == x / 4 && Sampling.Shift(x, 4) == x / 16
    ensures Sampling.Shift(x, 6) == x / 64 && Sampling.Shift(x, 8) == x / 256
  {
    BitOfShift(x, 0);
    BitOfShift(x, 1);
    BitOfShift(x, 2);
    BitOfShift(x, 3);
    BitOfShift(x, 4);
    BitOfShift(x, 5);
    BitOfShift(x, 6);
    BitOfShift(x, 7);
    hide Sampling.Shift, Sampling.Bit;
  }

  lemma Middles(x: nat)
    ensures Middle(x, 0, 8) == x % 256 && Middle(x, 8, 2) == x / 256 % 4
    ensures Middle(x, 0, 6) == x % 64 && Middle(x, 6, 4) == x / 64 % 16
    ensures Middle(x, 0, 4) == x % 16 && Middle(x, 4, 6) == x / 16 % 64
    ensures Middle(x, 0, 2) == x % 4 && Middle(x, 2, 8) == x / 4 % 256
  {
    Shifts(x);
    Mac.PowersOfTwo();
    hide Sampling.Shift, Mac.Pow2;
  }

  lemma TenBitMiddles(x: nat)
    requires x < 1024
    ensures Middle(x, 0, 8) == x % 256 && Middle(x, 8, 2) == x / 256
    ensures Middle(x, 0, 6) == x % 64 && Middle(x, 6, 4) == x / 64
    ensures Middle(x, 0, 4) == x % 16 && Middle(x, 4, 6) == x / 16
    ensures Middle(x, 0, 2) == x % 4 && Middle(x, 2, 8) == x / 4
  {
    hide Middle;
    Middles(x);
  }

  // ---------------------------------------------------------------- groups

  /** Four ten-bit fields to five bytes. */
  lemma TenBitGroup(f: Fields, g: nat)
    requires g < 64 && f[4 * g] < 1024 && f[4 * g + 1] < 1024 && f[4 * g + 2] < 1024 && f[4 * g + 3] < 1024
    ensures Bytes10([f[4 * g], f[4 * g + 1], f[4 * g + 2], f[4 * g + 3]])
         == [EncodedByte(f, 10, 5 * g), EncodedByte(f, 10, 5 * g + 1), EncodedByte(f, 10, 5 * g + 2), EncodedByte(f, 10, 5 * g + 3),
             EncodedByte(f, 10, 5 * g + 4)]
  {
    Mac.PowersOfTwo();
    hide EncodedByte, Middle, Mac.Pow2;
    var q := 4 * g;
    Inside(f, 10, q, 0, 5 * g);
    Straddles(f, 10, q, 8, 2, 4, 5 * g + 1);
    Straddles(f, 10, q + 1, 6, 4, 16, 5 * g + 2);
    Straddles(f, 10, q + 2, 4, 6, 64, 5 * g + 3);
    Inside(f, 10, q + 3, 2, 5 * g + 4);
    TenBitMiddles(f[q]);
    TenBitMiddles(f[q + 1]);
    TenBitMiddles(f[q + 2]);
    TenBitMiddles(f[q + 3]);
  }

  /** Two four-bit fields to one byte. */
  lemma FourBitGroup(f: Fields, k: nat)
    requires k < 128 && f[2 * k] < 16 && f[2 * k + 1] < 16
    ensures EncodedByte(f, 4, k) == f[2 * k] + 16 * f[2 * k + 1]
  {
    hide EncodedByte, Middle, Mac.Pow2;
    Mac.PowersOfTwo();
    Straddles(f, 4, 2 * k, 0, 4, 16, k);
    Middles(f[2 * k]);
    Middles(f[2 * k + 1]);
  }

  // ---------------------------------------------------------------- whole polynomials

  predicate Canonical(p: Poly) { forall i :: 0 <= i < 256 ==> 0 <= p[i] < 3329 }

  /** The circuits encode a canonical polynomial as the standard does, byte for byte. */
  lemma EncodedIsStandard(p: Poly, d4: bool)
    requires Canonical(p)
    ensures Encoded(p, d4) == StandardBytes(p, d4)
  {
    hide EncodedByte, GroupByte, CoeffsAt;
    forall k: nat | k < Length(d4) ensures Encoded(p, d4)[k] == StandardBytes(p, d4)[k] {
      if d4 { FourBitByte(p, k); } else { TenBitByte(p, k / 5, k % 5); }
    }
  }

  lemma FourBitByte(p: Poly, k: nat)
    requires Canonical(p) && k < 128
    ensures GroupByte(CoeffsAt(p, true, k), true, 0) == EncodedByte(Compressed(p, 16), 4, k)
  {
    hide Compress, Comp4, Comp10, EncodedByte, Compressed;
    FieldAt(p, 2 * k);
    FieldAt(p, 2 * k + 1);
    FourBitGroup(Compressed(p, 16), k);
  }

  lemma TenBitByte(p: Poly, g: nat, i: nat)
    requires Canonical(p) && g < 64 && i < 5
    ensures GroupByte(CoeffsAt(p, false, g), false, i) == EncodedByte(Compressed(p, 1024), 10, 5 * g + i)
  {
    hide Compress, Comp4, Comp10, EncodedByte, Bytes10, Compressed;
    FieldAt(p, 4 * g);
    FieldAt(p, 4 * g + 1);
    FieldAt(p, 4 * g + 2);
    FieldAt(p, 4 * g + 3);
    TenBitGroup(Compressed(p, 1024), g);
  }

  /** The compressors read a canonical coefficient as it is and give the standard's field. */
  lemma FieldAt(p: Poly, i: nat)
    requires Canonical(p) && i < 256
    ensures U16(p[i]) == p[i] && Comp4(p[i]) == Compressed(p, 16)[i] < 16 && Comp10(p[i]) == Compressed(p, 1024)[i] < 1024
  {
    hide Compress, Comp4, Comp10;
    Comp4IsCompress(p[i]);
    Comp10IsCompress(p[i]);
    CompressBelow(p[i], 16);
    CompressBelow(p[i], 1024);
  }

  lemma CompressBelow(x: nat, m: nat)
    requires m == 16 || m == 1024
    ensures Compress(x, m) < m
  {
  }

  /** What the unpacker expands is what the standard decodes: with f the fields of the polynomial, the
      received bytes are ByteEncode of f, and the coefficients are Decompress of f. */
  lemma ExpandedIsStandard(ct: Ciphertext, sk: SecretKey, s: nat)
    requires s < 3
    ensures var p := UnpackedPoly(ct, sk, s); var f := Compressed(p, if s == 2 then 16 else 1024);
      && ByteEncode(f, if s == 2 then 4 else 10) == ct[320 * s..320 * s + Length(s == 2)]
      && forall i :: 0 <= i < 256 ==> p[i] == Decompress(f[i], if s == 2 then 16 else 1024)
  {
    hide Coeff, Encoded, ByteEncode, Compressed, Decompress;
    var p := UnpackedPoly(ct, sk, s);
    forall i: nat | i < 256 ensures 0 <= p[i] < 3329 { CoeffRange(ct, sk, 256 * s + i); }
    EncodedUnpacked(ct, sk, s);
    EncodedIsStandard(p, s == 2);
    forall i: nat | i < 256 ensures p[i] == Decompress(Compressed(p, if s == 2 then 16 else 1024)[i], if s == 2 then 16 else 1024) {
      var y := ExpandedField(ct, sk, s, i);
      FieldAt(p, i);
      CompressDecompress(y);
      DecompressionMeaning(y);
    }
  }

  /** Every expanded coefficient is the expansion of some field. */
  lemma ExpandedField(ct: Ciphertext, sk: SecretKey, s: nat, i: nat) returns (y: nat)
    requires s < 3 && i < 256
    ensures s < 2 ==> y < 1024 && UnpackedPoly(ct, sk, s)[i] == Decomp10(y)
    ensures s == 2 ==> y < 16 && UnpackedPoly(ct, sk, s)[i] == Decomp4(y)
  {
    hide Decomp10, Decomp4;
    var a := 256 * s + i;
    if s < 2 {
      CoeffOfU(ct, sk, a);
      FieldsMeaning(GroupOf(0, ct, sk, a / 4));
      y := Fields10(GroupOf(0, ct, sk, a / 4))[a % 4];
    } else {
      var b := GroupOf(1, ct, sk, i / 2)[0];
      y := if i % 2 == 0 then b % 16 else b / 16;
    }
  }
}
