/** ByteDecode as the standard writes it, bit by bit (FIPS 203, section 4.2.1), and the unpacking
  circuits against it. */
module Decoding {
  import opened Bytes
  import opened Ring
  import opened Codec
  import opened Layout
  import opened Messages
  import opened Encoding
  import Mac
  import Sampling

  // ---------------------------------------------------------------- the standard

  /** The number the n bits from bit j on spell, least significant first. */
  function FromStream(z: seq<Byte>, j: nat, n: nat): nat
    requires j + n <= 8 * |z|
    decreases n
  {
    if n == 0 then 0 else Sampling.StreamBit(z, j) + 2 * FromStream(z, j + 1, n - 1)
  }

  /** 256 fields of d bits. */
  function ByteDecode(z: seq<Byte>, d: nat): Fields
    requires |z| == 32 * d && d > 0
  {
    seq(256, i requires 0 <= i < 256 => (FieldEnds(d, i); FromStream(z, d * i, d)))
  }

  lemma FieldEnds(d: nat, i: nat)
    requires i < 256
    ensures d * i + d <= 256 * d
  {
    TimesMonotone(d, i + 1, 256);
  }

  // ---------------------------------------------------------------- decoding undoes encoding

  /** The bits of the number some bits spell. */
  lemma {:induction false} SpelledBit(f: seq<nat>, d: nat, j: nat, n: nat, k: nat)
    requires d > 0 && j + n <= d * |f| && k < n
    ensures Sampling.Bit(FromBits(f, d, j, n), k) == FieldBit(f, d, j + k)
    decreases n
  {
    OneBit(f, d, j);
    NextBit(FieldBit(f, d, j), FromBits(f, d, j + 1, n - 1), k);
    hide FieldBit, Sampling.Bit;
    if k > 0 { SpelledBit(f, d, j + 1, n - 1, k - 1); }
  }

  lemma OneBit(f: seq<nat>, d: nat, j: nat)
    requires d > 0 && j < d * |f|
    ensures FieldBit(f, d, j) <= 1
  {
    FieldIndex(|f|, d, j);
    Sampling.BitRange(f[j / d], j % d);
  }

  lemma NextBit(b: nat, rest: nat, k: nat)
    requires b <= 1
    ensures Sampling.Bit(b + 2 * rest, k) == if k == 0 then b else Sampling.Bit(rest, k - 1)
  {
  }

  lemma EncodedBit(f: Fields, d: nat, j: nat)
    requires d > 0 && j < 256 * d
    ensures Sampling.StreamBit(ByteEncode(f, d), j) == FieldBit(f, d, j)
  {
    hide Sampling.Bit, FieldBit, FromBits;
    SpelledBit(f, d, 8 * (j / 8), 8, j % 8);
  }

  lemma {:induction false} EncodedRun(f: Fields, d: nat, j: nat, n: nat)
    requires d > 0 && j + n <= 256 * d
    ensures FromStream(ByteEncode(f, d), j, n) == FromBits(f, d, j, n)
    decreases n
  {
    hide ByteEncode, FieldBit, Sampling.StreamBit;
    if n > 0 {
      EncodedBit(f, d, j);
      EncodedRun(f, d, j + 1, n - 1);
    }
  }

  /** Fields of d bits come back. */
  lemma DecodeEncode(f: Fields, d: nat)
    requires (d == 4 || d == 10 || d == 12) && forall i :: 0 <= i < 256 ==> f[i] < Mac.Pow2(d)
    ensures ByteDecode(ByteEncode(f, d), d) == f
  {
    hide ByteEncode, FromStream, FromBits, Mac.Pow2;
    forall i: nat | i < 256 ensures ByteDecode(ByteEncode(f, d), d)[i] == f[i] {
      FieldEnds(d, i);
      EncodedRun(f, d, d * i, d);
      FieldRun(f, d, i, 0, d, d * i);
      Whole(f[i], d);
    }
  }

  lemma Whole(x: nat, d: nat)
    requires x < Mac.Pow2(d)
    ensures Middle(x, 0, d) == x
  {
    Shifts(x);
    hide Sampling.Shift, Mac.Pow2;
    SmallMod(x, Mac.Pow2(d));
  }

  lemma SmallMod(x: nat, m: nat)
    requires x < m
    ensures x % m == x
  {
  }

  // ---------------------------------------------------------------- twelve bits a field

  lemma TwelveMiddles(x: nat)
    requires x < 4096
    ensures Middle(x, 0, 8) == x % 256 && Middle(x, 8, 4) == x / 256 && Middle(x, 0, 4) == x % 16 && Middle(x, 4, 8) == x / 16
  {
    Shifts(x);
    Mac.PowersOfTwo();
    hide Sampling.Shift, Mac.Pow2;
  }

  /** Two 12-bit fields to three bytes. */
  lemma TwelveBitGroup(f: Fields, g: nat)
    requires g < 128 && f[2 * g] < 4096 && f[2 * g + 1] < 4096
    ensures EncodedByte(f, 12, 3 * g) == f[2 * g] % 256
    ensures EncodedByte(f, 12, 3 * g + 1) == f[2 * g] / 256 + 16 * (f[2 * g + 1] % 16)
    ensures EncodedByte(f, 12, 3 * g + 2) == f[2 * g + 1] / 16
  {
    Mac.PowersOfTwo();
    hide EncodedByte, Middle, Mac.Pow2;
    Inside(f, 12, 2 * g, 0, 3 * g);
    Straddles(f, 12, 2 * g, 8, 4, 16, 3 * g + 1);
    Inside(f, 12, 2 * g + 1, 4, 3 * g + 2);
    TwelveMiddles(f[2 * g]);
    TwelveMiddles(f[2 * g + 1]);
  }

  /** What the decoder circuit makes field i of. */
  function Decoded12(z: seq<Byte>, i: nat): nat
    requires |z| == 384 && i < 256
  {
    var g := i / 2;
    Decode12(z[3 * g], z[3 * g + 1], z[3 * g + 2], i % 2)
  }

  /** The decoder circuit read group by group is undone by ByteEncode. */
  lemma TwelveBitBytes(f: Fields, z: seq<Byte>)
    requires |z| == 384 && forall i :: 0 <= i < 256 ==> f[i] == Decoded12(z, i)
    ensures ByteEncode(f, 12) == z && ByteDecode(z, 12) == f
  {
    hide EncodedByte, Decode12, ByteDecode, Mac.Pow2;
    forall i: nat | i < 384 ensures EncodedByte(f, 12, i) == z[i] {
      var g := i / 3;
      assert f[2 * g] == Decoded12(z, 2 * g) && f[2 * g + 1] == Decoded12(z, 2 * g + 1);
      TwelveBits(z[3 * g], z[3 * g + 1], z[3 * g + 2]);
      TwelveBitGroup(f, g);
      ThreeBytes(f[2 * g], f[2 * g + 1], z[3 * g], z[3 * g + 1], z[3 * g + 2]);
      assert i == 3 * g || i == 3 * g + 1 || i == 3 * g + 2;
    }
    assert ByteEncode(f, 12) == z;
    forall i | 0 <= i < 256 ensures f[i] < 4096 {
      var g := i / 2;
      assert f[i] == Decoded12(z, i);
      TwelveBits(z[3 * g], z[3 * g + 1], z[3 * g + 2]);
    }
    TwelvePower();
    DecodeEncode(f, 12);
  }

  lemma TwelvePower()
    ensures Mac.Pow2(12) == 4096 && Mac.Pow2(10) == 1024 && Mac.Pow2(4) == 16
  {
    assert Mac.Pow2(8) == 256;
  }

  /** Three bytes of two fields. */
  lemma ThreeBytes(c0: nat, c1: nat, b0: Byte, b1: Byte, b2: Byte)
    requires c0 < 4096 && c1 < 4096 && c0 + 4096 * c1 == b0 as int + 256 * (b1 as int) + 65536 * (b2 as int)
    ensures b0 == c0 % 256 && b1 == c0 / 256 + 16 * (c1 % 16) && b2 == c1 / 16
  {
  }

  /** Coefficients as the fields they are. */
  function Naturals(p: Poly): Fields
    requires forall i :: 0 <= i < 256 ==> 0 <= p[i]
  {
    seq(256, i requires 0 <= i < 256 => p[i])
  }

  lemma KeyFields(ct: Ciphertext, sk: SecretKey, s: nat)
    requires 3 <= s < 5
    ensures forall i :: 0 <= i < 256 ==> 0 <= UnpackedPoly(ct, sk, s)[i] == Decoded12(sk[384 * (s - 3)..384 * (s - 2)], i)
  {
    hide Decode12, Unpack10, Unpack4;
    var z := sk[384 * (s - 3)..384 * (s - 2)];
    forall i: nat | i < 256 ensures UnpackedPoly(ct, sk, s)[i] == Decoded12(z, i) {
      var a := 256 * s + i;
      assert (a - 768) / 2 == 128 * (s - 3) + i / 2 && (a - 768) % 2 == i % 2;
    }
  }

  /** The two secret-key polynomials are ByteDecode of the first two times 384 bytes, and encode back to
      them. */
  lemma KeyIsDecoded(ct: Ciphertext, sk: SecretKey, s: nat)
    requires 3 <= s < 5
    ensures var p, z := UnpackedPoly(ct, sk, s), sk[384 * (s - 3)..384 * (s - 2)];
      (forall i :: 0 <= i < 256 ==> 0 <= p[i]) && ByteEncode(Naturals(p), 12) == z && ByteDecode(z, 12) == p
  {
    hide Decode12, UnpackedPoly, ByteEncode, ByteDecode;
    KeyFields(ct, sk, s);
    TwelveBitBytes(Naturals(UnpackedPoly(ct, sk, s)), sk[384 * (s - 3)..384 * (s - 2)]);
  }

  lemma PublicFields(sk: SecretKey, s: nat)
    requires s < 2
    ensures forall i :: 0 <= i < 256 ==> 0 <= PublicPoly(sk, s)[i] == Decoded12(sk[768 + 384 * s..1152 + 384 * s], i)
  {
    hide Decode12;
    var z := sk[768 + 384 * s..1152 + 384 * s];
    forall i: nat | i < 256 ensures PublicPoly(sk, s)[i] == Decoded12(z, i) {
      var a := 256 * s + i;
      var g := i / 2;
      assert a / 2 == 128 * s + g && a % 2 == i % 2;
      assert PublicPoly(sk, s)[i] == PublicCoeff(sk, a);
      assert z[3 * g] == sk[768 + 3 * (a / 2)] && z[3 * g + 1] == sk[769 + 3 * (a / 2)] && z[3 * g + 2] == sk[770 + 3 * (a / 2)];
    }
  }

  /** The two public-key polynomials are ByteDecode of the embedded public key, and encode back to it. */
  lemma PublicIsDecoded(sk: SecretKey, s: nat)
    requires s < 2
    ensures var p, z := PublicPoly(sk, s), sk[768 + 384 * s..1152 + 384 * s];
      (forall i :: 0 <= i < 256 ==> 0 <= p[i]) && ByteEncode(Naturals(p), 12) == z && ByteDecode(z, 12) == p
  {
    hide Decode12, PublicPoly, ByteEncode, ByteDecode;
    PublicFields(sk, s);
    TwelveBitBytes(Naturals(PublicPoly(sk, s)), sk[768 + 384 * s..1152 + 384 * s]);
  }

  /** The three ciphertext polynomials are Decompress of ByteDecode of their bytes. */
  lemma CiphertextIsDecoded(ct: Ciphertext, sk: SecretKey, s: nat)
    requires s < 3
    ensures var d, m := if s == 2 then 4 else 10, if s == 2 then 16 else 1024;
      var z := ct[320 * s..320 * s + Length(s == 2)];
      |z| == 32 * d && forall i :: 0 <= i < 256 ==> UnpackedPoly(ct, sk, s)[i] == Decompress(ByteDecode(z, d)[i], m)
  {
    hide UnpackedPoly, ByteEncode, ByteDecode, Decompress, Compress, Mac.Pow2;
    var d, m := if s == 2 then 4 else 10, if s == 2 then 16 else 1024;
    var f := Compressed(UnpackedPoly(ct, sk, s), m);
    ExpandedIsStandard(ct, sk, s);
    forall i | 0 <= i < 256 ensures f[i] < m { CompressBelow(UnpackedPoly(ct, sk, s)[i] % 3329, m); }
    TwelvePower();
    DecodeEncode(f, d);
  }
}
