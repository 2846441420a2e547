/** Compression and byte packing of coefficients, against the definitions of FIPS 203, section 4.2.1. */
module Codec {
  import opened Bytes

  // ---------------------------------------------------------------- the standard

  /** n / d rounded to the nearest integer, halves up. */
  function Round(n: nat, d: nat): nat
    requires d > 0
  {
    (2 * n + d) / (2 * d)
  }

  /** Compress and Decompress with m = 2^d. */
  function Compress(x: nat, m: nat): nat
    requires m > 0
  {
    Round(m * x, 3329) % m
  }

  function Decompress(y: nat, m: nat): nat
    requires m > 0
  {
    Round(3329 * y, m)
  }

  // ---------------------------------------------------------------- the circuits

  type Half = x: nat | x < 65536

  /** 3329 as four shifted copies, in 22 bits. */
  function Decomp10(x: nat): nat { (2048 * x + 1024 * x + 256 * x + x + 512) % 0x40_0000 / 1024 }

  function Comp10(x: nat): nat { (x * 2580335 % 0x4_0000_0000 + 0x40_0000) % 0x4_0000_0000 / 0x80_0000 % 1024 }

  function Decomp4(x: nat): nat { (x * 3329 + 8) % 65536 / 16 }

  function Comp4(x: nat): nat { (x * 315 % 0x20_0000 + 0x8000) % 0x20_0000 / 65536 % 16 }

  type Five = b: seq<Byte> | |b| == 5 witness [0, 0, 0, 0, 0]
  type Four = t: seq<nat> | |t| == 4 witness [0, 0, 0, 0]

  /** Four ten-bit fields of five bytes. */
  function Fields10(b: Five): Four {
    [(b[1] as int * 256 + b[0] as int) % 1024, (b[2] as int * 256 + b[1] as int) / 4 % 1024,
     (b[3] as int * 256 + b[2] as int) / 16 % 1024, (b[4] as int * 256 + b[3] as int) / 64]
  }

  function Bytes10(t: Four): Five
    requires forall i :: 0 <= i < 4 ==> t[i] < 1024
  {
    [t[0] % 256, t[1] % 64 * 4 + t[0] / 256, t[2] % 16 * 16 + t[1] / 64, t[3] % 4 * 64 + t[2] / 16, t[3] / 4]
  }

  function Pack10(c: Four): Five {
    Bytes10([Comp10(c[0]), Comp10(c[1]), Comp10(c[2]), Comp10(c[3])])
  }

  function Unpack10(b: Five): Four {
    var t := Fields10(b);
    [Decomp10(t[0]), Decomp10(t[1]), Decomp10(t[2]), Decomp10(t[3])]
  }

  function Pack4(c0: nat, c1: nat): Byte { Comp4(c0) + 16 * Comp4(c1) }

  function Unpack4(b: Byte, k: nat): nat { Decomp4(if k == 0 then b % 16 else b / 16) }

  function Decode12(b0: Byte, b1: Byte, b2: Byte, k: nat): (c: nat)
    ensures c <= 4095
  {
    if k == 0 then b1 as int % 16 * 256 + b0 as int else b2 as int * 16 + b1 as int / 16
  }

  // ---------------------------------------------------------------- circuits meet the standard

  /** Three bytes, least significant first, are two 12-bit fields, the lower one first. */
  lemma TwelveBits(b0: Byte, b1: Byte, b2: Byte)
    ensures Decode12(b0, b1, b2, 0) < 4096 && Decode12(b0, b1, b2, 1) < 4096
    ensures Decode12(b0, b1, b2, 0) + 4096 * Decode12(b0, b1, b2, 1) == b0 as int + 256 * (b1 as int) + 65536 * (b2 as int)
  {
  }

  lemma Comp10IsCompress(x: nat)
    requires x < 3329
    ensures Comp10(x) == Compress(x, 1024)
  {
    var y := (2048 * x + 3329) / 6658;
    Quotient10(x, y, 2048 * x + 3329 - 6658 * y);
    Comp10Exact(x);
    CompressExact(x);
    hide Comp10, Compress;
  }

  lemma Comp10Exact(x: nat)
    requires x < 3329
    ensures Comp10(x) == (x * 2580335 + 0x40_0000) / 0x80_0000 % 1024
  {
  }

  lemma CompressExact(x: nat)
    ensures Compress(x, 1024) == (2048 * x + 3329) / 6658 % 1024
    ensures Compress(x, 16) == (32 * x + 3329) / 6658 % 16
  {
  }

  lemma Quotient10(x: nat, y: nat, r: nat)
    requires x < 3329 && r <= 6657 && 2048 * x + 3329 == 6658 * y + r
    ensures (x * 2580335 + 0x40_0000) / 0x80_0000 == y
  {
    assert 3329 * (x * 2580335 + 0x40_0000) == 3329 * 0x80_0000 * y + 0x40_0000 * r + 623 * x;
  }

  /** 16 x = 3329 y + 1664 - k bounds x by the distance 2 k + 1 to the next rounding step. */
  lemma NearStep(x: nat, y: nat, k: nat)
    requires x < 3329 && 16 * x == 3329 * y + 1664 - k
    ensures x <= 104 + 208 * k
  {
    assert 3329 * (x - 208 * y - 104) == x - 104 - 208 * k;
  }

  /** The nine-bit constant is exact although its error exceeds the rounding step for large x. */
  lemma Comp4IsCompress(x: nat)
    requires x < 3329
    ensures Comp4(x) == Compress(x, 16)
  {
    var n := 32 * x + 3329;
    var y := n / 6658;
    var k := (6658 * y + 6657 - n) / 2;
    assert n == 6658 * y + 6657 - 2 * k && k >= 0;
    NearStep(x, y, k);
    Quotient4(x, y, k);
    Comp4Exact(x);
    CompressExact(x);
    hide Comp4, Compress;
  }

  lemma Comp4Exact(x: nat)
    requires x < 3329
    ensures Comp4(x) == (x * 315 + 0x8000) / 65536 % 16
  {
  }

  lemma Quotient4(x: nat, y: nat, k: nat)
    requires 16 * x == 3329 * y + 1664 - k && x <= 104 + 208 * k && x < 3329 && k < 3329
    ensures (x * 315 + 0x8000) / 65536 == y
  {
    assert 3329 * (x * 315 + 0x8000) == 3329 * 65536 * y + 0x8000 * (6657 - 2 * k) + 59 * x;
  }

  lemma Decomp10Value(y: nat)
    requires y < 1024
    ensures Decomp10(y) == (3329 * y + 512) / 1024 < 3329
  {
  }

  lemma Decomp4Value(y: nat)
    requires y < 16
    ensures Decomp4(y) == (3329 * y + 8) / 16 < 3329
  {
  }

  lemma DecompressionMeaning(y: nat)
    ensures y < 1024 ==> Decomp10(y) == Decompress(y, 1024) < 3329
    ensures y < 16 ==> Decomp4(y) == Decompress(y, 16) < 3329
  {
    hide Decomp10, Decomp4;
    if y < 1024 { Decomp10Value(y); Halve(3329 * y, 1024); }
    if y < 16 { Decomp4Value(y); Halve(3329 * y, 16); }
  }

  lemma Halve(n: nat, d: nat)
    requires d == 16 || d == 1024
    ensures Round(n, d) == (n + d / 2) / d
  {
  }

  lemma Back10(x: nat, y: nat)
    requires y < 1024 && x < 3329 && 1024 * x <= 3329 * y + 512 < 1024 * (x + 1)
    ensures Comp10(x) == y
  {
    assert (x * 2580335 + 0x40_0000) / 0x80_0000 == y;
  }

  lemma Back4(x: nat, y: nat)
    requires y < 16 && x < 3329 && 16 * x <= 3329 * y + 8 < 16 * (x + 1)
    ensures Comp4(x) == y
  {
    assert (x * 315 + 0x8000) / 65536 == y;
  }

  /** Compressing a decompressed field gives it back. */
  lemma CompressDecompress(y: nat)
    ensures y < 1024 ==> Comp10(Decomp10(y)) == y
    ensures y < 16 ==> Comp4(Decomp4(y)) == y
  {
    hide Comp10, Comp4, Decomp10, Decomp4;
    if y < 1024 { Decomp10Value(y); Back10(Decomp10(y), y); }
    if y < 16 { Decomp4Value(y); Back4(Decomp4(y), y); }
  }

  // one field at a time: where its bits lie in two neighbouring bytes

  lemma Field0(lo: Byte, hi: Byte)
    ensures (hi as int * 256 + lo as int) % 1024 == hi as int % 4 * 256 + lo as int
  {
  }

  lemma Field1(lo: Byte, hi: Byte)
    ensures (hi as int * 256 + lo as int) / 4 % 1024 == hi as int % 16 * 64 + lo as int / 4
  {
    DropLow(hi, lo, 4, 64);
    TopMod(hi, 16, 64, lo as int / 4);
  }

  lemma Field2(lo: Byte, hi: Byte)
    ensures (hi as int * 256 + lo as int) / 16 % 1024 == hi as int % 64 * 16 + lo as int / 16
  {
    DropLow(hi, lo, 16, 16);
    TopMod(hi, 64, 16, lo as int / 16);
  }

  lemma DropLow(hi: int, lo: nat, d: nat, e: nat)
    requires (d == 4 && e == 64) || (d == 16 && e == 16)
    ensures (hi * 256 + lo) / d == hi * e + lo / d
  {
  }

  lemma TopMod(hi: nat, m: nat, e: nat, low: nat)
    requires (m == 16 && e == 64) || (m == 64 && e == 16)
    requires low < e
    ensures (hi * e + low) % 1024 == hi % m * e + low
  {
    var h := hi / m;
    assert hi * e + low == 1024 * h + hi % m * e + low;
  }

  lemma Field3(lo: Byte, hi: Byte)
    ensures (hi as int * 256 + lo as int) / 64 == hi as int * 4 + lo as int / 64
  {
  }

  lemma FieldsAt(b: Five)
    ensures Fields10(b)[0] == b[1] as int % 4 * 256 + b[0] as int
    ensures Fields10(b)[1] == b[2] as int % 16 * 64 + b[1] as int / 4
    ensures Fields10(b)[2] == b[3] as int % 64 * 16 + b[2] as int / 16
    ensures Fields10(b)[3] == b[4] as int * 4 + b[3] as int / 64
    ensures forall i :: 0 <= i < 4 ==> Fields10(b)[i] < 1024
  {
    Field0(b[0], b[1]);
    Field1(b[1], b[2]);
    Field2(b[2], b[3]);
    Field3(b[3], b[4]);
  }

  /** The fields are the base-1024 digits of the bytes, as ByteEncode and ByteDecode say. */
  lemma FieldsMeaning(b: Five)
    ensures forall i :: 0 <= i < 4 ==> Fields10(b)[i] < 1024
    ensures Fields10(b)[0] + 0x400 * Fields10(b)[1] + 0x10_0000 * Fields10(b)[2] + 0x4000_0000 * Fields10(b)[3]
         == b[0] as int + 0x100 * (b[1] as int) + 0x1_0000 * (b[2] as int) + 0x100_0000 * (b[3] as int) + 0x1_0000_0000 * (b[4] as int)
  {
    FieldsAt(b);
    hide Fields10;
    var b1, b2, b3 := b[1] as int, b[2] as int, b[3] as int;
    assert b1 == b1 / 4 * 4 + b1 % 4;
    assert b2 == b2 / 16 * 16 + b2 % 16;
    assert b3 == b3 / 64 * 64 + b3 % 64;
  }

  lemma BytesOfFields(b: Five)
    ensures forall i :: 0 <= i < 4 ==> Fields10(b)[i] < 1024
    ensures Bytes10(Fields10(b)) == b
  {
    FieldsAt(b);
    hide Fields10;
    var t := Fields10(b);
    var b1, b2, b3 := b[1] as int, b[2] as int, b[3] as int;
    assert t[0] % 256 == b[0] && t[0] / 256 == b1 % 4;
    assert t[1] % 64 == b1 / 4 && t[1] / 64 == b2 % 16;
    assert t[2] % 16 == b2 / 16 && t[2] / 16 == b3 % 64;
    assert t[3] % 4 == b3 / 64 && t[3] / 4 == b[4];
    assert Bytes10(t)[0] == b[0] && Bytes10(t)[1] == b[1] && Bytes10(t)[2] == b[2] && Bytes10(t)[3] == b[3];
  }

  /** Unpacking five bytes or one and packing the coefficients again is the identity. */
  lemma PackUnpack10(b: Five)
    ensures Pack10(Unpack10(b)) == b
  {
    hide Comp10, Decomp10, Bytes10, Fields10;
    var t := Fields10(b);
    FieldsMeaning(b);
    BytesOfFields(b);
    CompressDecompress(t[0]);
    CompressDecompress(t[1]);
    CompressDecompress(t[2]);
    CompressDecompress(t[3]);
    assert [t[0], t[1], t[2], t[3]] == t;
  }

  lemma PackUnpack4(b: Byte)
    ensures Pack4(Unpack4(b, 0), Unpack4(b, 1)) == b
  {
    hide Comp4, Decomp4;
    CompressDecompress(b % 16);
    CompressDecompress(b / 16);
  }

  lemma FieldsOfBytes(t: Four)
    requires forall i :: 0 <= i < 4 ==> t[i] < 1024
    ensures Fields10(Bytes10(t)) == t
  {
    var b := Bytes10(t);
    FieldsAt(b);
    hide Fields10;
    assert b[1] as int % 4 == t[0] / 256 && b[1] as int / 4 == t[1] % 64;
    assert b[2] as int % 16 == t[1] / 64 && b[2] as int / 16 == t[2] % 16;
    assert b[3] as int % 64 == t[2] / 16 && b[3] as int / 64 == t[3] % 4;
    assert t[0] == t[0] / 256 * 256 + t[0] % 256 && t[1] == t[1] / 64 * 64 + t[1] % 64;
    assert t[2] == t[2] / 16 * 16 + t[2] % 16 && t[3] == t[3] / 4 * 4 + t[3] % 4;
  }

  /** Packing canonical coefficients is ByteEncode of Compress, for both parameters. */
  lemma PackIsStandard(c: Four)
    requires forall i :: 0 <= i < 4 ==> c[i] < 3329
    ensures forall i :: 0 <= i < 4 ==> Fields10(Pack10(c))[i] == Compress(c[i], 1024)
    ensures Pack4(c[0], c[1]) == Compress(c[0], 16) + 16 * Compress(c[1], 16)
  {
    hide Comp10, Comp4, Compress, Fields10, Bytes10;
    Comp10IsCompress(c[0]);
    Comp10IsCompress(c[1]);
    Comp10IsCompress(c[2]);
    Comp10IsCompress(c[3]);
    Comp4IsCompress(c[0]);
    Comp4IsCompress(c[1]);
    Comp10Below(c);
    FieldsOfBytes([Comp10(c[0]), Comp10(c[1]), Comp10(c[2]), Comp10(c[3])]);
  }

  lemma Comp10Below(c: Four)
    ensures forall i :: 0 <= i < 4 ==> Comp10(c[i]) < 1024
  {
  }
}
