/** Where ciphertext and key bytes lie, what they expand to, and how polynomials are encoded back. */
module Layout {
  import opened Bytes
  import opened Codec
  import opened Ring
  import opened PolyRam

  type Ciphertext = c: seq<Byte> | |c| == 768 witness seq(768, _ => 0)
  type SecretKey = k: seq<Byte> | |k| == 1632 witness seq(1632, _ => 0)

  // ---------------------------------------------------------------- byte memories

  type Word = w: seq<Byte> | |w| == 4 witness [0, 0, 0, 0]

  /** A byte memory read four bytes at a time. */
  function WordAt(m: seq<Byte>, byteIndex: nat): Word {
    var a := byteIndex / 4 * 4;
    if a + 4 <= |m| then m[a..a + 4] else [0, 0, 0, 0]
  }

  /** The word requested one clock ago holds the selected byte. */
  lemma SelectedByte(m: seq<Byte>, i: nat)
    requires i < |m| && |m| % 4 == 0
    ensures WordAt(m, i)[i % 4] == m[i]
  {
  }

  // ---------------------------------------------------------------- expanding

  type Phase = p: nat | p < 3

  /** Bytes and coefficients of one group, and where the phase starts and ends. */
  function Size(p: Phase): nat { if p == 0 then 5 else if p == 1 then 1 else 3 }
  function Count(p: Phase): nat { if p == 0 then 4 else 2 }
  function Groups(p: Phase): nat { if p == 2 then 256 else 128 }
  function Start(p: Phase): nat { if p == 0 then 0 else if p == 1 then 512 else 768 }

  /** First byte and first flat address of group g. */
  function ByteOf(p: Phase, g: nat): nat { if p == 0 then 5 * g else if p == 1 then 640 + g else 3 * g }
  function AddrOf(p: Phase, g: nat): nat { if p == 0 then 4 * g else if p == 1 then 512 + 2 * g else 768 + 2 * g }

  function Source(p: Phase, ct: Ciphertext, sk: SecretKey): seq<Byte> { if p == 2 then sk else ct }

  /** The bytes of group g. */
  function GroupAt(p: Phase, ct: Ciphertext, sk: SecretKey, g: nat, i: nat): Byte
    requires g < Groups(p) && i < Size(p)
  {
    Source(p, ct, sk)[ByteOf(p, g) + i]
  }

  /** Coefficient w of a group held in the group register. */
  function Field(p: Phase, b: Five, w: nat): nat
    requires w < Count(p)
  {
    if p == 0 then Unpack10(b)[w] else if p == 1 then Unpack4(b[0], w) else Decode12(b[0], b[1], b[2], w)
  }

  function GroupOf(p: Phase, ct: Ciphertext, sk: SecretKey, g: nat): Five
    requires g < Groups(p)
  {
    seq(5, i requires 0 <= i < 5 => if i < Size(p) then GroupAt(p, ct, sk, g, i) else 0)
  }

  function PhaseOf(a: nat): Phase { if a < 512 then 0 else if a < 768 then 1 else 2 }

  /** Coefficient at flat address a: u in slots 0 and 1, v in slot 2, the secret key in 3 and 4. */
  function Coeff(ct: Ciphertext, sk: SecretKey, a: nat): nat
    requires a < 1280
  {
    var p := PhaseOf(a);
    var k := a - Start(p);
    Field(p, GroupOf(p, ct, sk, k / Count(p)), k % Count(p))
  }

  function Unpacked(ct: Ciphertext, sk: SecretKey, was: Slots): Slots {
    seq(12, s requires 0 <= s < 12 => if s < 5 then UnpackedPoly(ct, sk, s) else was[s])
  }

  function UnpackedPoly(ct: Ciphertext, sk: SecretKey, s: nat): Poly
    requires s < 5
  {
    seq(256, i requires 0 <= i < 256 => Coeff(ct, sk, Address(s, i)))
  }

  // ---------------------------------------------------------------- encoding

  /** The 16-bit word as the compressors read it. */
  function U16(w: int): nat { w % 65536 }

  /** Bytes and coefficients before group g, for ten-bit and four-bit compression. */
  function BytesBefore(d4: bool, g: nat): nat { if d4 then g else 5 * g }
  function CoeffsBefore(d4: bool, g: nat): nat { if d4 then 2 * g else 4 * g }
  function GroupCount(d4: bool): nat { if d4 then 128 else 64 }
  function Length(d4: bool): nat { if d4 then 128 else 320 }

  function CoeffsAt(p: Poly, d4: bool, g: nat): Four
    requires g < GroupCount(d4)
  {
    if d4 then [U16(p[2 * g]), U16(p[2 * g + 1]), 0, 0]
    else [U16(p[4 * g]), U16(p[4 * g + 1]), U16(p[4 * g + 2]), U16(p[4 * g + 3])]
  }

  function GroupByte(c: Four, d4: bool, i: nat): Byte
    requires i < BytesBefore(d4, 1)
  {
    if d4 then Pack4(c[0], c[1]) else Pack10(c)[i]
  }

  /** The polynomial as the packing circuits encode it. */
  function Encoded(p: Poly, d4: bool): (e: seq<Byte>)
    ensures |e| == Length(d4)
  {
    seq(Length(d4), k requires 0 <= k < Length(d4) => GroupByte(CoeffsAt(p, d4, k / BytesBefore(d4, 1)), d4, k % BytesBefore(d4, 1)))
  }

  // ---------------------------------------------------------------- ranges

  /** Expanded ciphertext coefficients are canonical; the secret key's are not checked. */
  lemma CoeffRange(ct: Ciphertext, sk: SecretKey, a: nat)
    requires a < 1280
    ensures a < 768 ==> Coeff(ct, sk, a) < 3329
    ensures Coeff(ct, sk, a) < 4096
  {
    hide Decomp10, Decomp4, Fields10;
    var p := PhaseOf(a);
    var k := a - Start(p);
    var b := GroupOf(p, ct, sk, k / Count(p));
    if p == 0 {
      FieldsMeaning(b);
      DecompressionMeaning(Fields10(b)[k % 4]);
    } else if p == 1 {
      DecompressionMeaning(b[0] % 16);
      DecompressionMeaning(b[0] / 16);
    }
  }
  // ---------------------------------------------------------------- unpack, then pack

  /** Packing the expanded u or v polynomials gives back the bytes they were expanded from. */
  lemma EncodedUnpacked(ct: Ciphertext, sk: SecretKey, s: nat)
    requires s < 3
    ensures Encoded(UnpackedPoly(ct, sk, s), s == 2) == ct[320 * s..320 * s + Length(s == 2)]
  {
    hide UnpackedPoly, Encoded;
    var p, d4 := UnpackedPoly(ct, sk, s), s == 2;
    forall k: nat | k < Length(d4) ensures Encoded(p, d4)[k] == ct[320 * s + k] {
      if d4 { RoundTrip4(ct, sk, p, k); } else { RoundTrip10(ct, sk, s, p, k / 5, k % 5); }
    }
  }

  lemma RoundTrip4(ct: Ciphertext, sk: SecretKey, p: Poly, k: nat)
    requires k < 128 && p == UnpackedPoly(ct, sk, 2)
    ensures Encoded(p, true)[k] == ct[640 + k]
  {
    hide Pack4, Unpack4;
    var b := ct[640 + k];
    assert GroupOf(1, ct, sk, k)[0] == b;
    assert p[2 * k] == Unpack4(b, 0) && p[2 * k + 1] == Unpack4(b, 1);
    UnpackSmall(b);
    PackUnpack4(b);
  }

  lemma UnpackSmall(b: Byte)
    ensures Unpack4(b, 0) < 65536 && Unpack4(b, 1) < 65536
  {
    DecompressionMeaning(b % 16);
    DecompressionMeaning(b / 16);
  }

  lemma Unpack10Small(b: Five)
    ensures forall i :: 0 <= i < 4 ==> Unpack10(b)[i] < 65536
  {
    hide Decomp10, Fields10;
    FieldsMeaning(b);
    DecompressionMeaning(Fields10(b)[0]);
    DecompressionMeaning(Fields10(b)[1]);
    DecompressionMeaning(Fields10(b)[2]);
    DecompressionMeaning(Fields10(b)[3]);
  }

  lemma CoeffOfU(ct: Ciphertext, sk: SecretKey, a: nat)
    requires a < 512
    ensures Coeff(ct, sk, a) == Unpack10(GroupOf(0, ct, sk, a / 4))[a % 4]
  {
    hide Unpack10, GroupOf, Unpack4, Decode12;
  }

  lemma UnpackedGroup(ct: Ciphertext, sk: SecretKey, s: nat, g: nat, i: nat)
    requires s < 2 && g < 64 && i < 4
    ensures UnpackedPoly(ct, sk, s)[4 * g + i] == Unpack10(GroupOf(0, ct, sk, 64 * s + g))[i]
  {
    hide Unpack10, GroupOf, Coeff;
    var a := 256 * s + 4 * g + i;
    assert a / 4 == 64 * s + g && a % 4 == i;
    CoeffOfU(ct, sk, a);
  }

  lemma EncodedAt10(p: Poly, g: nat, i: nat)
    requires g < 64 && i < 5
    ensures Encoded(p, false)[5 * g + i] == Pack10(CoeffsAt(p, false, g))[i]
  {
    hide Pack10, CoeffsAt;
    assert (5 * g + i) / 5 == g && (5 * g + i) % 5 == i;
  }

  lemma RoundTrip10(ct: Ciphertext, sk: SecretKey, s: nat, p: Poly, g: nat, i: nat)
    requires s < 2 && g < 64 && i < 5 && p == UnpackedPoly(ct, sk, s)
    ensures Encoded(p, false)[5 * g + i] == ct[320 * s + 5 * g + i]
  {
    hide Pack10, Unpack10, UnpackedPoly, Encoded;
    var b := GroupOf(0, ct, sk, 64 * s + g);
    UnpackedGroup(ct, sk, s, g, 0);
    UnpackedGroup(ct, sk, s, g, 1);
    UnpackedGroup(ct, sk, s, g, 2);
    UnpackedGroup(ct, sk, s, g, 3);
    Unpack10Small(b);
    PackUnpack10(b);
    assert CoeffsAt(p, false, g) == Unpack10(b);
    EncodedAt10(p, g, i);
  }
}
