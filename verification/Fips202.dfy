/** The hash functions of FIPS 202 as strings of bits (sections 4, 5.1, 6.1, 6.2 and B.1), and the
  byte-wise sponge against them. */
module Fips202 {
  import opened Bytes
  import opened Sampling
  import opened Sponge

  // ---------------------------------------------------------------- the standard

  /** A byte string as bits, least significant bit of each byte first. */
  function BitsOf(z: seq<Byte>): (b: seq<nat>)
    ensures |b| == 8 * |z|
  {
    seq(8 * |z|, k requires 0 <= k < 8 * |z| => StreamBit(z, k))
  }

  function NoBits(n: nat): (z: seq<nat>)
    ensures |z| == n
  {
    seq(n, _ => 0)
  }

  /** pad10*1 for blocks of x bits behind a string of m bits. */
  function Pad101(x: nat, m: nat): seq<nat>
    requires x > 0
  {
    [1] + NoBits((-(m as int) - 2) % x) + [1]
  }

  /** The padded message p of m with domain bits, for blocks of x bits. */
  predicate PaddedAs(p: seq<Byte>, m: seq<Byte>, domain: seq<nat>, x: nat)
    requires x > 0
  {
    BitsOf(p) == BitsOf(m) + domain + Pad101(x, 8 * |m| + |domain|)
  }

  /** d bytes of the sponge with capacity c, that is rate 1600 - c, over the padded message p. */
  function Keccak(f: Permutation, c: nat, p: seq<Byte>, d: nat): seq<Byte>
    requires c == 256 || c == 512 || c == 1024
    requires Mod(|p|, (1600 - c) / 8) == 0
  {
    Squeeze(f, (1600 - c) / 8, Absorb(f, (1600 - c) / 8, p), d)
  }

  // ---------------------------------------------------------------- bits and bytes

  lemma {:induction false} SameBits(x: nat, y: nat, n: nat)
    requires x < Doubled(n) && y < Doubled(n) && forall k: nat :: k < n ==> Bit(x, k) == Bit(y, k)
    ensures x == y
  {
    if n > 0 {
      assert Bit(x, 0) == Bit(y, 0);
      forall k: nat | k < n - 1 ensures Bit(x / 2, k) == Bit(y / 2, k) { assert Bit(x, k + 1) == Bit(y, k + 1); }
      SameBits(x / 2, y / 2, n - 1);
    }
  }

  /** A byte string is determined by its bits. */
  lemma BitsDetermine(y: seq<Byte>, z: seq<Byte>)
    requires BitsOf(y) == BitsOf(z)
    ensures y == z
  {
    assert |y| == |z| by { assert |BitsOf(y)| == |BitsOf(z)|; }
    forall i | 0 <= i < |y| ensures y[i] == z[i] {
      forall k: nat | k < 8 ensures Bit(y[i], k) == Bit(z[i], k) {
        assert (8 * i + k) / 8 == i && (8 * i + k) % 8 == k;
        assert BitsOf(y)[8 * i + k] == BitsOf(z)[8 * i + k];
      }
      XorBelow(0, 0, 8);
      SameBits(y[i], z[i], 8);
    }
  }

  lemma BitsJoin(y: seq<Byte>, z: seq<Byte>)
    ensures BitsOf(y + z) == BitsOf(y) + BitsOf(z)
  {
    hide Bit;
    forall k: nat | k < 8 * |y + z| ensures BitsOf(y + z)[k] == (BitsOf(y) + BitsOf(z))[k] {
      if k >= 8 * |y| { assert k / 8 == |y| + (k - 8 * |y|) / 8 && k % 8 == (k - 8 * |y|) % 8; }
    }
  }

  lemma {:induction false} XorBit(x: nat, y: nat, k: nat)
    ensures Bit(Xor(x, y), k) == (Bit(x, k) + Bit(y, k)) % 2
    decreases k
  {
    XorHalves(x, y);
    hide Xor;
    if k > 0 { XorBit(x / 2, y / 2, k - 1); } else { Parity(x, y); }
  }

  lemma Parity(x: nat, y: nat)
    ensures (x + y) % 2 == (x % 2 + y % 2) % 2
  {
  }

  /** Adding a block to the state adds its bits to the first bits of the state. */
  lemma BlockBits(s: Lanes, p: seq<Byte>, k: nat)
    requires |p| <= 200 && k < 1600
    ensures BitsOf(XorBlock(s, p))[k] == if k < 8 * |p| then (BitsOf(s)[k] + BitsOf(p)[k]) % 2 else BitsOf(s)[k]
  {
    hide Xor, Bit;
    if k < 8 * |p| { XorBit(s[k / 8], p[k / 8], k % 8); }
  }

  // ---------------------------------------------------------------- the padding

  /** The eight bits of a byte, three, three and two at a time. */
  lemma EightBits(b: nat)
    ensures Bit(b, 0) == b % 2 && Bit(b, 1) == b / 2 % 2 && Bit(b, 2) == b / 4 % 2 && Bit(b, 3) == b / 8 % 2
    ensures Bit(b, 4) == b / 16 % 2 && Bit(b, 5) == b / 32 % 2 && Bit(b, 6) == b / 64 % 2 && Bit(b, 7) == b / 128 % 2
  {
    hide Bit;
    LowBits(b);
    NextBits(b, b / 8, 3);
    NextBits(b / 8, b / 64, 3);
    ThreeBits(b, 6);
    ThreeBits(b, 7);
  }

  lemma NextBits(b: nat, c: nat, k: nat)
    requires c == b / 8 && k == 3
    ensures Bit(b, k) == c % 2 && Bit(b, k + 1) == c / 2 % 2 && Bit(b, k + 2) == c / 4 % 2
    ensures c == b / 8 && c / 2 == b / 16 && c / 4 == b / 32 && c / 8 == b / 64 && c / 16 == b / 128
  {
    hide Bit;
    ThreeBits(b, 3);
    ThreeBits(b, 4);
    ThreeBits(b, 5);
    LowBits(c);
  }

  lemma ByteBits(b: Byte)
    ensures BitsOf([b]) == [b % 2, b / 2 % 2, b / 4 % 2, b / 8 % 2, b / 16 % 2, b / 32 % 2, b / 64 % 2, b / 128 % 2]
  {
    hide Bit;
    EightBits(b);
  }

  lemma {:induction false} XorTop(x: nat, n: nat)
    requires x < Doubled(n)
    ensures Xor(x, Doubled(n)) == x + Doubled(n)
  {
    XorStep(x, Doubled(n));
    if n > 0 {
      XorTop(x / 2, n - 1);
      hide Xor;
      assert Doubled(n) == 2 * Doubled(n - 1);
    }
  }

  /** Domain bits of the four modes: 01 for SHA3-256 and SHA3-512, 1111 for SHAKE128 and SHAKE256. */
  function DomainBits(mode: Mode): (b: seq<nat>)
    ensures |b| == if mode < 2 then 2 else 4
  {
    if mode < 2 then [0, 1] else [1, 1, 1, 1]
  }

  lemma BothBytes(mode: Mode)
    ensures Suffix(mode) < 128 && XorByte(Suffix(mode), 0x80) == Suffix(mode) + 128
  {
    hide Xor;
    XorTop(Suffix(mode), 7);
    SevenBits();
  }

  lemma SevenBits()
    ensures Doubled(7) == 128
  {
    XorBelow(0, 0, 8);
  }

  /** The suffix byte holds the domain bits and the first padding bit, the byte 0x80 the last one; when
      only one byte fits it holds all of them. */
  lemma SuffixBits(mode: Mode)
    ensures BitsOf([Suffix(mode)]) == DomainBits(mode) + [1] + NoBits(7 - |DomainBits(mode)|)
    ensures BitsOf([XorByte(Suffix(mode), 0x80)]) == DomainBits(mode) + [1] + NoBits(6 - |DomainBits(mode)|) + [1]
    ensures BitsOf([0x80]) == NoBits(7) + [1]
  {
    hide BitsOf, XorByte;
    BothBytes(mode);
    ByteBits(Suffix(mode));
    ByteBits(0x80);
    ByteBits(XorByte(Suffix(mode), 0x80));
  }

  lemma ZeroBits(n: nat)
    ensures BitsOf(seq(n, _ => 0)) == NoBits(8 * n)
  {
    hide Bit;
    forall k: nat | k < 8 ensures Bit(0, k) == 0 { ZeroBit(k); }
  }

  lemma ZeroBit(k: nat)
    ensures Bit(0, k) == 0
  {
  }

  /** How many zeros pad10*1 puts between its ones. */
  lemma Gap(n: nat, r: BlockSize, d: nat)
    requires d <= 6
    ensures (-((8 * n + d) as int) - 2) % (8 * r) == 8 * (r - Mod(n, r)) - d - 2
  {
    hide Mod, Div;
    Turns(n, r);
    var g := 8 * (r - Mod(n, r)) - d - 2;
    if r == 72 { Residue(-((8 * n + d) as int) - 2, 576, g, Div(n, r) + 1); }
    else if r == 136 { Residue(-((8 * n + d) as int) - 2, 1088, g, Div(n, r) + 1); }
    else { Residue(-((8 * n + d) as int) - 2, 1344, g, Div(n, r) + 1); }
  }

  lemma Residue(x: int, w: nat, g: nat, k: nat)
    requires (w == 576 || w == 1088 || w == 1344) && g < w && x == g - w * k
    ensures x % w == g
  {
    if w == 576 { assert x == g - 576 * k; } else if w == 1088 { assert x == g - 1088 * k; } else { assert x == g - 1344 * k; }
  }

  lemma Turns(n: nat, r: BlockSize)
    ensures n == r * Div(n, r) + Mod(n, r)
  {
  }

  /** The byte-aligned padding of q bytes. */
  lemma PaddingBits(mode: Mode, q: nat)
    requires q > 0
    ensures var d := DomainBits(mode); BitsOf(Padding(q, Suffix(mode))) == d + ([1] + NoBits(8 * q - |d| - 2) + [1])
  {
    hide BitsOf, XorByte, Suffix, DomainBits;
    var d, s := DomainBits(mode), Suffix(mode);
    SuffixBits(mode);
    if q > 1 {
      var z: seq<Byte> := seq(q - 2, _ => 0);
      ZeroBits(q - 2);
      BitsJoin([s] + z, [0x80]);
      BitsJoin([s], z);
      Stretch(d, q);
    }
  }

  lemma Stretch(d: seq<nat>, q: nat)
    requires |d| <= 4 && q > 1
    ensures d + [1] + NoBits(7 - |d|) + NoBits(8 * (q - 2)) + (NoBits(7) + [1]) == d + ([1] + NoBits(8 * q - |d| - 2) + [1])
  {
  }

  /** The bytes the sponge absorbs are the padded string of the standard, and its rate is what the
      capacity leaves of 1600 bits. */
  lemma PaddedIsStandard(m: seq<Byte>, mode: Mode)
    ensures PaddedAs(Padded(m, Rate(mode), Suffix(mode)), m, if mode < 2 then [0, 1] else [1, 1, 1, 1], 8 * Rate(mode))
    ensures 8 * Rate(mode) + Capacity(mode) == 1600
  {
    hide BitsOf, Padding, Mod;
    var q := Rate(mode) - Mod(|m|, Rate(mode));
    Gap(|m|, Rate(mode), |DomainBits(mode)|);
    PaddingBits(mode, q);
    BitsJoin(m, Padding(q, Suffix(mode)));
  }

  function Capacity(mode: Mode): nat { [512, 1024, 256, 512][mode] }

  /** The four modes are SHA3-256, SHA3-512, SHAKE128 and SHAKE256: whatever byte string spells the
      standard's padded message, the hash is the standard's sponge over it. */
  lemma HashIsStandard(f: Permutation, m: seq<Byte>, d: nat, p: seq<Byte>)
    ensures PaddedAs(p, m, [0, 1], 1088) ==> Mod(|p|, 136) == 0 && Hash(f, 0, m, d) == Keccak(f, 512, p, d)
    ensures PaddedAs(p, m, [0, 1], 576) ==> Mod(|p|, 72) == 0 && Hash(f, 1, m, d) == Keccak(f, 1024, p, d)
    ensures PaddedAs(p, m, [1, 1, 1, 1], 1344) ==> Mod(|p|, 168) == 0 && Hash(f, 2, m, d) == Keccak(f, 256, p, d)
    ensures PaddedAs(p, m, [1, 1, 1, 1], 1088) ==> Mod(|p|, 136) == 0 && Hash(f, 3, m, d) == Keccak(f, 512, p, d)
  {
    hide BitsOf, Padded, Pad101, Absorb, Squeeze, Mod;
    forall mode: Mode | PaddedAs(p, m, if mode < 2 then [0, 1] else [1, 1, 1, 1], 8 * Rate(mode))
      ensures Mod(|p|, Rate(mode)) == 0 && Hash(f, mode, m, d) == Squeeze(f, Rate(mode), Absorb(f, Rate(mode), p), d)
    {
      PaddedIsStandard(m, mode);
      PaddedLength(m, Rate(mode), Suffix(mode));
      BitsDetermine(p, Padded(m, Rate(mode), Suffix(mode)));
    }
    assert Rate(0) == 136 && Rate(1) == 72 && Rate(2) == 168 && Rate(3) == 136;
  }

  /** ... and there is exactly one such string. */
  lemma PaddingExists(m: seq<Byte>)
    ensures exists p :: PaddedAs(p, m, [0, 1], 1088)
    ensures exists p :: PaddedAs(p, m, [0, 1], 576)
    ensures exists p :: PaddedAs(p, m, [1, 1, 1, 1], 1344)
    ensures exists p :: PaddedAs(p, m, [1, 1, 1, 1], 1088)
  {
    hide BitsOf, Padded, Pad101;
    PaddedIsStandard(m, 0);
    PaddedIsStandard(m, 1);
    PaddedIsStandard(m, 2);
    PaddedIsStandard(m, 3);
  }
}
