/** K-PKE.Decrypt and K-PKE.Encrypt of FIPS 203, sections 5.2 and 5.3, from bytes to bytes: the roots, the
  decoders and the compressions are the standard's, none of them the circuits'. */
module Kpke {
  import opened Bytes
  import opened ModQ
  import opened Ring
  import opened Kernel
  import opened PolyRam
  import opened Codec
  import opened Layout
  import opened Messages
  import opened Decrypt
  import opened Encoding
  import opened Decoding
  import opened SampleJobs
  import opened Reencrypt
  import opened Unity
  import Sponge
  import ZetaRom

  // ---------------------------------------------------------------- the standard

  /** Decompress of ByteDecode with m = 2^d. */
  function Expanded(z: seq<Byte>, d: nat, m: nat): Poly
    requires |z| == 32 * d && d > 0 && m > 0
  {
    seq(256, i requires 0 <= i < 256 => Decompress(ByteDecode(z, d)[i], m))
  }

  /** ByteDecode with d = 12, modulo q. */
  function KeyPoly(z: seq<Byte>): Poly
    requires |z| == 384
  {
    seq(256, i requires 0 <= i < 256 => ByteDecode(z, 12)[i] % 3329)
  }

  /** Bits of coefficients, as Compress with d = 1 gives them. */
  function Compressed1(w: Poly): Message {
    seq(256, i requires 0 <= i < 256 => Compress(w[i] % 3329, 2) == 1)
  }

  /** K-PKE.Decrypt: bit i of the message is Compress, with d = 1, of coefficient i of v - s . u. */
  function StandardMessage(ct: Ciphertext, sk: SecretKey): Message {
    Compressed1(Noisy(StandardRoots(), KeyPoly(sk[0..384]), KeyPoly(sk[384..768]),
                      Expanded(ct[0..320], 10, 1024), Expanded(ct[320..640], 10, 1024), Expanded(ct[640..768], 4, 16)))
  }

  /** K-PKE.Encrypt under an encapsulation key of 800 bytes. */
  function StandardCiphertext(f: Sponge.Permutation, ek: seq<Byte>, m: Message, coins: Seed): seq<Byte>
    requires |ek| == 800
  {
    Reencrypted(StandardRoots(), StandardSamples(f, ek[768..800], coins), KeyPoly(ek[0..384]), KeyPoly(ek[384..768]), m)
  }

  /** The message polynomial is Decompress, with d = 1, of the message bits. */
  lemma MessageIsDecompressed(m: Message, i: Index)
    ensures FromMessage(m)[i] == Decompress(if m[i] then 1 else 0, 2)
  {
  }

  /** The transform used above is the standard's: 128 remainders, products turned into small products,
      and an inverse on both sides. */
  lemma StandardTransform(f: Poly, g: Poly)
    ensures var r := StandardRoots();
      && (forall i: nat, k: nat :: i < 128 && k < 2 ==> RemainderAt(r, f, i, k))
      && CongPoly(Ntt(r, RingMul(f, g)), MulNtt(r, Ntt(r, f), Ntt(r, g)))
      && CongPoly(InvNtt(r, Ntt(r, f)), f) && CongPoly(Ntt(r, InvNtt(r, f)), f)
  {
    hide RootsSplit, RootsPair, CongRoots, StandardRoots, Forward, InvNtt, MulNtt, RingMul, Evaluated, Modulus, Cong;
    var r := StandardRoots();
    ZetaRom.StandardRootsGood();
    RootsSame(r);
    forall i: nat, k: nat | i < 128 && k < 2 ensures RemainderAt(r, f, i, k) { NttIsStandard(r, f, i, k); }
    NttMultiplicative(r, f, g);
    InvNttNtt(r, f);
    NttInvNtt(r, f);
  }

  ghost predicate RemainderAt(r: Roots, f: Poly, i: nat, k: nat)
    requires i < 128 && k < 2
  {
    Cong(Ntt(r, f)[2 * i + k], Remainder(f, Modulus(i), k))
  }

  // ---------------------------------------------------------------- congruent roots and keys

  lemma PlusCong(x: Poly, x': Poly, y: Poly, y': Poly)
    requires CongPoly(x, x') && CongPoly(y, y')
    ensures CongPoly(Plus(x, y), Plus(x', y'))
  {
    hide Cong;
    forall a: nat | a < 256 ensures Cong(Plus(x, y)[a], Plus(x', y')[a]) {
      assert Cong(x[a], x'[a]) && Cong(y[a], y'[a]);
      CongAdd(x[a], x'[a], y[a], y'[a]);
    }
  }

  lemma InnerProductRoots(g: Roots, h: Roots, s0: Poly, s0': Poly, s1: Poly, s1': Poly, u0: Poly, u1: Poly)
    requires CongRoots(g, h) && CongPoly(s0, s0') && CongPoly(s1, s1')
    ensures CongPoly(InnerProduct(g, s0, s1, Ntt(g, u0), Ntt(g, u1)), InnerProduct(h, s0', s1', Ntt(h, u0), Ntt(h, u1)))
  {
    hide Forward, MulNtt, InvNtt, CongPoly, CongRoots, Plus;
    SelfCong(u0);
    SelfCong(u1);
    ForwardRoots(g, h, u0, u0, 7);
    ForwardRoots(g, h, u1, u1, 7);
    MulNttRoots(g, h, s0, s0', Ntt(g, u0), Ntt(h, u0));
    MulNttRoots(g, h, s1, s1', Ntt(g, u1), Ntt(h, u1));
    PlusCong(MulNtt(g, s0, Ntt(g, u0)), MulNtt(h, s0', Ntt(h, u0)), MulNtt(g, s1, Ntt(g, u1)), MulNtt(h, s1', Ntt(h, u1)));
    InvNttRoots(g, h, Plus(MulNtt(g, s0, Ntt(g, u0)), MulNtt(g, s1, Ntt(g, u1))),
                Plus(MulNtt(h, s0', Ntt(h, u0)), MulNtt(h, s1', Ntt(h, u1))));
  }

  lemma ReducedSame(x: Poly, y: Poly)
    requires CongPoly(x, y)
    ensures Reduced(x) == Reduced(y)
  {
    forall i: nat | i < 256 ensures x[i] % 3329 == y[i] % 3329 {
      assert Cong(x[i], y[i]);
      ShiftedResidue(x[i], y[i], 0);
    }
  }

  lemma NoisyReduced(r: Roots, s0: Poly, s1: Poly, u0: Poly, u1: Poly, v: Poly)
    ensures Noisy(r, s0, s1, u0, u1, v) == Reduced(Minus(v, InnerProduct(r, s0, s1, Ntt(r, u0), Ntt(r, u1))))
  {
    hide InnerProduct, Forward;
  }

  lemma NoisyRoots(g: Roots, h: Roots, s0: Poly, s0': Poly, s1: Poly, s1': Poly, u0: Poly, u1: Poly, v: Poly)
    requires CongRoots(g, h) && CongPoly(s0, s0') && CongPoly(s1, s1')
    ensures Noisy(g, s0, s1, u0, u1, v) == Noisy(h, s0', s1', u0, u1, v)
  {
    hide InnerProduct, Forward, CongRoots, CongPoly, Noisy, Minus, Reduced;
    InnerProductRoots(g, h, s0, s0', s1, s1', u0, u1);
    NoisyReduced(g, s0, s1, u0, u1, v);
    NoisyReduced(h, s0', s1', u0, u1, v);
    var w, x := InnerProduct(g, s0, s1, Ntt(g, u0), Ntt(g, u1)), InnerProduct(h, s0', s1', Ntt(h, u0), Ntt(h, u1));
    MinusCong(v, w, x);
    ReducedSame(Minus(v, w), Minus(v, x));
  }

  lemma MinusCong(v: Poly, w: Poly, x: Poly)
    requires CongPoly(w, x)
    ensures CongPoly(Minus(v, w), Minus(v, x))
  {
    hide Cong;
    forall a: nat | a < 256 ensures Cong(Minus(v, w)[a], Minus(v, x)[a]) {
      assert Cong(w[a], x[a]);
      CongWitness(v[a], v[a], 0);
      CongSub(v[a], v[a], w[a], x[a]);
    }
  }

  lemma ReencryptedRoots(g: Roots, h: Roots, s: Samples, t0: Poly, t0': Poly, t1: Poly, t1': Poly, m: Message)
    requires CongRoots(g, h) && CongPoly(t0, t0') && CongPoly(t1, t1')
    ensures Reencrypted(g, s, t0, t1, m) == Reencrypted(h, s, t0', t1', m)
  {
    hide InnerProduct, Forward, CongRoots, CongPoly, StandardBytes, Plus, Reduced, FromMessage;
    SelfCong(s.a00);
    SelfCong(s.a01);
    SelfCong(s.a10);
    SelfCong(s.a11);
    RowRoots(g, h, s, s.a00, s.a00, s.a01, s.a01, s.e10);
    RowRoots(g, h, s, s.a10, s.a10, s.a11, s.a11, s.e11);
    RowRoots(g, h, s, t0, t0', t1, t1', s.e2);
    SelfCong(FromMessage(m));
    PlusCong(Plus(InnerProduct(g, t0, t1, Ntt(g, s.y0), Ntt(g, s.y1)), s.e2), Plus(InnerProduct(h, t0', t1', Ntt(h, s.y0), Ntt(h, s.y1)), s.e2),
             FromMessage(m), FromMessage(m));
    ReducedSame(Plus(Plus(InnerProduct(g, t0, t1, Ntt(g, s.y0), Ntt(g, s.y1)), s.e2), FromMessage(m)),
                Plus(Plus(InnerProduct(h, t0', t1', Ntt(h, s.y0), Ntt(h, s.y1)), s.e2), FromMessage(m)));
  }

  lemma RowRoots(g: Roots, h: Roots, s: Samples, a0: Poly, a0': Poly, a1: Poly, a1': Poly, e: Poly)
    requires CongRoots(g, h) && CongPoly(a0, a0') && CongPoly(a1, a1')
    ensures CongPoly(Plus(InnerProduct(g, a0, a1, Ntt(g, s.y0), Ntt(g, s.y1)), e), Plus(InnerProduct(h, a0', a1', Ntt(h, s.y0), Ntt(h, s.y1)), e))
    ensures MaskedRow(g, s, a0, a1, e) == MaskedRow(h, s, a0', a1', e)
  {
    hide InnerProduct, Forward, CongRoots, CongPoly, Plus, Reduced;
    InnerProductRoots(g, h, a0, a0', a1, a1', s.y0, s.y1);
    SelfCong(e);
    PlusCong(InnerProduct(g, a0, a1, Ntt(g, s.y0), Ntt(g, s.y1)), InnerProduct(h, a0', a1', Ntt(h, s.y0), Ntt(h, s.y1)), e, e);
    ReducedSame(Plus(InnerProduct(g, a0, a1, Ntt(g, s.y0), Ntt(g, s.y1)), e), Plus(InnerProduct(h, a0', a1', Ntt(h, s.y0), Ntt(h, s.y1)), e));
  }

  // ---------------------------------------------------------------- the models against the standard

  /** The forward command leaves the standard's transform: words 2i and 2i + 1 are f modulo
      X^2 - 17^(2 BitRev7(i) + 1). */
  lemma CommandIsStandard(z: Zetas, f: Poly, i: nat, k: nat)
    requires GoodRom(z) && Bounded(f, 3328) && i < 128 && k < 2
    ensures Cong(NttCommand(z, f)[2 * i + k], Remainder(f, Modulus(i), k))
  {
    hide NttWords, Forward, Evaluated, Modulus, RootsOf, Cong, RootsSplit, RootsPair, CongRoots;
    NttMeaning(z, f, 7);
    NttIsStandard(RootsOf(z), f, i, k);
    assert Cong(NttCommand(z, f)[2 * i + k], Ntt(RootsOf(z), f)[2 * i + k]);
    CongTrans(NttCommand(z, f)[2 * i + k], Ntt(RootsOf(z), f)[2 * i + k], Remainder(f, Modulus(i), k));
  }

  lemma KeyCong(p: Poly, z: seq<Byte>)
    requires |z| == 384 && p == ByteDecode(z, 12)
    ensures CongPoly(p, KeyPoly(z))
  {
    hide ByteDecode, Cong;
    forall i: nat | i < 256 ensures Cong(p[i], KeyPoly(z)[i]) {
      ModCong(p[i]);
      CongFlip(p[i] % 3329, p[i]);
    }
  }

  lemma ExpandedPoly(ct: Ciphertext, sk: SecretKey)
    ensures UnpackedPoly(ct, sk, 0) == Expanded(ct[0..320], 10, 1024) && UnpackedPoly(ct, sk, 1) == Expanded(ct[320..640], 10, 1024)
    ensures UnpackedPoly(ct, sk, 2) == Expanded(ct[640..768], 4, 16)
  {
    hide UnpackedPoly, ByteDecode, Decompress;
    CiphertextIsDecoded(ct, sk, 0);
    CiphertextIsDecoded(ct, sk, 1);
    CiphertextIsDecoded(ct, sk, 2);
  }

  /** Reading the top bits of a canonical difference is the standard's compression to one bit. */
  lemma BitsCompressed(r: Roots, s0: Poly, s1: Poly, u0: Poly, u1: Poly, v: Poly)
    ensures ToMessage(Noisy(r, s0, s1, u0, u1, v)) == Compressed1(Noisy(r, s0, s1, u0, u1, v))
  {
    hide Noisy, TopBit, Compress;
    var w := Noisy(r, s0, s1, u0, u1, v);
    forall i: Index ensures ToMessage(w)[i] == Compressed1(w)[i] {
      NoisyRange(r, s0, s1, u0, u1, v, i);
      TopBitRange(w[i]);
    }
  }

  /** What the decrypt schedule decodes is the standard's message. */
  lemma DecodedIsStandard(z: Zetas, ct: Ciphertext, sk: SecretKey)
    requires GoodRom(z)
    ensures Decoded(RootsOf(z), ct, sk) == StandardMessage(ct, sk)
  {
    hide UnpackedPoly, ByteDecode, Noisy, KeyPoly, Expanded, RootsOf, RootsSplit, RootsPair, CongRoots, CongPoly, ToMessage, Compressed1,
         StandardRoots;
    ExpandedPoly(ct, sk);
    KeyIsDecoded(ct, sk, 3);
    KeyIsDecoded(ct, sk, 4);
    KeyCong(UnpackedPoly(ct, sk, 3), sk[0..384]);
    KeyCong(UnpackedPoly(ct, sk, 4), sk[384..768]);
    NoisyRoots(RootsOf(z), StandardRoots(), UnpackedPoly(ct, sk, 3), KeyPoly(sk[0..384]), UnpackedPoly(ct, sk, 4), KeyPoly(sk[384..768]),
               UnpackedPoly(ct, sk, 0), UnpackedPoly(ct, sk, 1), UnpackedPoly(ct, sk, 2));
    BitsCompressed(RootsOf(z), UnpackedPoly(ct, sk, 3), UnpackedPoly(ct, sk, 4), UnpackedPoly(ct, sk, 0), UnpackedPoly(ct, sk, 1),
                   UnpackedPoly(ct, sk, 2));
  }

  /** The standard's decryption returns the message exactly when the error of every coefficient is one
      its bit tolerates. */
  lemma StandardDecryptsExactly(ct: Ciphertext, sk: SecretKey, m: Message, e: Poly)
    requires forall i: nat :: i < 256 ==> -1664 <= e[i] <= 1664
    requires var r, u0, u1 := StandardRoots(), Expanded(ct[0..320], 10, 1024), Expanded(ct[320..640], 10, 1024);
      CongPoly(Minus(Expanded(ct[640..768], 4, 16), InnerProduct(r, KeyPoly(sk[0..384]), KeyPoly(sk[384..768]), Ntt(r, u0), Ntt(r, u1))),
               Plus(FromMessage(m), e))
    ensures StandardMessage(ct, sk) == m <==> forall i: nat :: i < 256 ==> Tolerates(m[i], e[i])
  {
    hide StandardRoots, KeyPoly, Expanded, InnerProduct, Forward, Noisy, ToMessage, Compressed1, CongPoly, Tolerates;
    var u0, u1, v := Expanded(ct[0..320], 10, 1024), Expanded(ct[320..640], 10, 1024), Expanded(ct[640..768], 4, 16);
    DecryptsExactly(StandardRoots(), KeyPoly(sk[0..384]), KeyPoly(sk[384..768]), u0, u1, v, m, e);
    BitsCompressed(StandardRoots(), KeyPoly(sk[0..384]), KeyPoly(sk[384..768]), u0, u1, v);
  }

  lemma NoisyRange(r: Roots, s0: Poly, s1: Poly, u0: Poly, u1: Poly, v: Poly, i: Index)
    ensures 0 <= Noisy(r, s0, s1, u0, u1, v)[i] < 3329
    ensures U16(Noisy(r, s0, s1, u0, u1, v)[i]) == Noisy(r, s0, s1, u0, u1, v)[i]
  {
    hide InnerProduct;
  }

  /** What the re-encryption engine compares with is the standard's ciphertext, once the public key has
      been unpacked and its seed taken over. */
  lemma ExpectedIsStandard(f: Sponge.Permutation, sk: SecretKey, was: Slots, m: Message, coins: Seed)
    ensures Reencrypted(StandardRoots(), StandardSamples(f, sk[1536..1568], coins), Published(sk, was)[0], Published(sk, was)[1], m)
         == StandardCiphertext(f, sk[768..1568], m, coins)
  {
    hide ByteDecode, PublicPoly, KeyPoly, StandardSamples, Reencrypted, StandardRoots, CongPoly;
    var ek := sk[768..1568];
    EmbeddedKey(sk);
    PublicIsDecoded(sk, 0);
    PublicIsDecoded(sk, 1);
    KeyCong(PublicPoly(sk, 0), ek[0..384]);
    KeyCong(PublicPoly(sk, 1), ek[384..768]);
    RootsSame(StandardRoots());
    ReencryptedRoots(StandardRoots(), StandardRoots(), StandardSamples(f, sk[1536..1568], coins), PublicPoly(sk, 0), KeyPoly(ek[0..384]),
                     PublicPoly(sk, 1), KeyPoly(ek[384..768]), m);
  }

  lemma EmbeddedKey(sk: SecretKey)
    ensures var ek := sk[768..1568];
      ek[768..800] == sk[1536..1568] && ek[0..384] == sk[768..1152] && ek[384..768] == sk[1152..1536]
  {
    var ek := sk[768..1568];
    assert forall i :: 0 <= i < 800 ==> ek[i] == sk[768 + i];
    assert forall i :: 0 <= i < 384 ==> ek[0..384][i] == sk[768..1152][i] && ek[384..768][i] == sk[1152..1536][i];
    assert forall i :: 0 <= i < 32 ==> ek[768..800][i] == sk[1536..1568][i];
  }

  lemma RootsSame(g: Roots)
    ensures CongRoots(g, g)
  {
  }
}
