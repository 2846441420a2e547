/** K-PKE.Decrypt over the twelve shared polynomial slots (FIPS 203, section 5.3). */
module Decrypt {
  import opened ModQ
  import opened Ring
  import opened Kernel
  import opened PolyRam
  import opened Codec
  import opened Layout
  import opened Messages
  import AddSub
  import Bridge

  // ---------------------------------------------------------------- the standard

  /** The inverse transform of the two-term inner product of transformed vectors. */
  function InnerProduct(r: Roots, s0: Poly, s1: Poly, y0: Poly, y1: Poly): Poly {
    InvNtt(r, Plus(MulNtt(r, s0, y0), MulNtt(r, s1, y1)))
  }

  /** v - NTT^-1(s . NTT(u)), canonically reduced. */
  function Noisy(r: Roots, s0: Poly, s1: Poly, u0: Poly, u1: Poly, v: Poly): Poly {
    var w := InnerProduct(r, s0, s1, Ntt(r, u0), Ntt(r, u1));
    seq(256, i requires 0 <= i < 256 => (v[i] - w[i]) % 3329)
  }

  // ---------------------------------------------------------------- the words the schedule computes

  /** Two kernel products, their reduced sum, and the inverse command. */
  function InnerWords(z: Zetas, s0: Poly, s1: Poly, y0: Poly, y1: Poly): Poly {
    InttCommand(z, AddSub.AddSubPoly(false, BaseMulWords(z, s0, y0), BaseMulWords(z, s1, y1)))
  }

  /** The reduced sum of RINV times two polynomials is RINV times their sum. */
  lemma ReducedSum(x: Poly, y: Poly, f: Poly, g: Poly)
    requires CongPoly(x, Scaled(RINV, f)) && CongPoly(y, Scaled(RINV, g))
    ensures var s := AddSub.AddSubPoly(false, x, y);
      Bounded(s, 3328) && CongPoly(s, Scaled(RINV, Plus(f, g)))
  {
    hide Cong;
    var s := AddSub.AddSubPoly(false, x, y);
    forall i: nat | i < 256 ensures Cong(s[i], Scaled(RINV, Plus(f, g))[i]) {
      assert Cong(x[i], Scaled(RINV, f)[i]) && Cong(y[i], Scaled(RINV, g)[i]);
      CongAdd(x[i], RINV * f[i], y[i], RINV * g[i]);
      ModCong(x[i] + y[i]);
      CongTrans(s[i], x[i] + y[i], RINV * (f[i] + g[i]));
    }
  }

  lemma ModCong(a: int)
    ensures Cong(a % 3329, a)
  {
  }

  /** With one operand an unchecked 12-bit polynomial and the other an unreduced transform, no
      register overflows and the Montgomery factors cancel. */
  lemma InnerWordsMeaning(z: Zetas, s0: Poly, s1: Poly, y0: Poly, y1: Poly, f0: Poly, f1: Poly)
    requires GoodRom(z) && Bounded(s0, 4095) && Bounded(s1, 4095) && Bounded(y0, 26624) && Bounded(y1, 26624)
    requires CongPoly(y0, f0) && CongPoly(y1, f1)
    ensures Bounded(BaseMulWords(z, s0, y0), 6656) && Bounded(BaseMulWords(z, s1, y1), 6656)
    ensures Bounded(InnerWords(z, s0, s1, y0, y1), 3328)
    ensures CongPoly(InnerWords(z, s0, s1, y0, y1), InnerProduct(RootsOf(z), s0, s1, f0, f1))
  {
    hide BaseMulWords, InttWords, RootsOf, InvNtt, MulNtt, GoodRom, CongPoly, AddSub.AddSubPoly;
    var r := RootsOf(z);
    BaseMulMeaning(z, s0, y0, 4095, 26624);
    BaseMulMeaning(z, s1, y1, 4095, 26624);
    SelfCong(s0);
    SelfCong(s1);
    MulNttCong(r, s0, s0, y0, f0);
    MulNttCong(r, s1, s1, y1, f1);
    ScaledCong(BaseMulWords(z, s0, y0), MulNtt(r, s0, y0), MulNtt(r, s0, f0));
    ScaledCong(BaseMulWords(z, s1, y1), MulNtt(r, s1, y1), MulNtt(r, s1, f1));
    var p := Plus(MulNtt(r, s0, f0), MulNtt(r, s1, f1));
    ReducedSum(BaseMulWords(z, s0, y0), BaseMulWords(z, s1, y1), MulNtt(r, s0, f0), MulNtt(r, s1, f1));
    var s := AddSub.AddSubPoly(false, BaseMulWords(z, s0, y0), BaseMulWords(z, s1, y1));
    InverseOfProduct(z, s, p);
    InttMeaning(z, s);
  }

  lemma SelfCong(f: Poly)
    ensures CongPoly(f, f)
  {
  }

  lemma ScaledCong(x: Poly, f: Poly, g: Poly)
    requires CongPoly(x, Scaled(RINV, f)) && CongPoly(f, g)
    ensures CongPoly(x, Scaled(RINV, g))
  {
    hide Cong;
    forall i: nat | i < 256 ensures Cong(x[i], Scaled(RINV, g)[i]) {
      assert Cong(f[i], g[i]) && Cong(x[i], Scaled(RINV, f)[i]);
      CongWitness(RINV, RINV, 0);
      CongMul(RINV, RINV, f[i], g[i]);
      CongTrans(x[i], RINV * f[i], RINV * g[i]);
    }
  }

  // ---------------------------------------------------------------- the schedule

  /** The four overlapped commands: two transforms, then two products each at distance two. */
  function ProductBatch(): seq<Bridge.Command> {
    [Bridge.Command(0, 0, 0, 5), Bridge.Command(0, 1, 0, 6), Bridge.Command(2, 3, 5, 7), Bridge.Command(2, 4, 6, 8)]
  }

  /** Slots after the four commands, one at a time. */
  lemma ProductSlots(z: Zetas, slots: Slots)
    ensures Bridge.NoHazard(ProductBatch()) && ProductBatch() != []
    ensures var end := Bridge.Serial(z, ProductBatch(), slots);
      && end[2] == slots[2]
      && end[7] == BaseMulWords(z, slots[3], NttCommand(z, slots[0]))
      && end[8] == BaseMulWords(z, slots[4], NttCommand(z, slots[1]))
  {
    hide NttWords, BaseMulWords, InttWords;
    var c := ProductBatch();
    assert c[..4] == c && c[..3][..2] == c[..2] && c[..2][..1] == c[..1] && c[..1][..0] == [];
    assert Bridge.Serial(z, [], slots) == slots;
    var s1 := Bridge.Serial(z, c[..1], slots);
    assert s1 == slots[5 := NttCommand(z, slots[0])];
    var s2 := Bridge.Serial(z, c[..2], slots);
    assert s2 == s1[6 := NttCommand(z, slots[1])];
    var s3 := Bridge.Serial(z, c[..3], slots);
    assert s3 == s2[7 := BaseMulWords(z, slots[3], s1[5])];
  }

  lemma OneCommand(z: Zetas, c: Bridge.Command, slots: Slots)
    ensures Bridge.NoHazard([c])
    ensures Bridge.Serial(z, [c], slots) == slots[c.dst := Bridge.Result(z, c.op, slots[c.srcA], slots[c.srcB])]
  {
    hide Bridge.Result;
    assert [c][..0] == [];
  }

  /** What slot 11 holds in the end, in words. */
  function SlotEleven(z: Zetas, s0: Poly, s1: Poly, u0: Poly, u1: Poly, v: Poly): Poly {
    AddSub.AddSubPoly(true, v, InnerWords(z, s0, s1, NttCommand(z, u0), NttCommand(z, u1)))
  }

  /** ... and in the ring: despite unreduced intermediates it is the canonical noisy message. */
  lemma SlotElevenMeaning(z: Zetas, s0: Poly, s1: Poly, u0: Poly, u1: Poly, v: Poly)
    requires GoodRom(z) && Bounded(s0, 4095) && Bounded(s1, 4095)
    requires Bounded(u0, 3328) && Bounded(u1, 3328) && Bounded(v, 3328)
    ensures SlotEleven(z, s0, s1, u0, u1, v) == Noisy(RootsOf(z), s0, s1, u0, u1, v)
  {
    hide NttWords, InttWords, BaseMulWords, Forward, InvNtt, GoodRom, RootsOf, MulNtt;
    var r := RootsOf(z);
    NttMeaning(z, u0, 7);
    NttMeaning(z, u1, 7);
    InnerWordsMeaning(z, s0, s1, NttCommand(z, u0), NttCommand(z, u1), Ntt(r, u0), Ntt(r, u1));
    var x, w := InnerWords(z, s0, s1, NttCommand(z, u0), NttCommand(z, u1)), InnerProduct(r, s0, s1, Ntt(r, u0), Ntt(r, u1));
    hide InnerWords, InnerProduct;
    forall i: nat | i < 256 ensures (v[i] - x[i]) % 3329 == (v[i] - w[i]) % 3329 {
      assert Cong(x[i], w[i]);
      SameResidue(v[i], x[i], w[i]);
    }
  }

  lemma SameResidue(v: int, x: int, w: int)
    requires Cong(x, w)
    ensures (v - x) % 3329 == (v - w) % 3329
  {
  }

  /** The decoded message: bit i is set when coefficient i is nearer q/2 than 0. */
  function Decoded(r: Roots, ct: Ciphertext, sk: SecretKey): Message {
    ToMessage(Noisy(r, UnpackedPoly(ct, sk, 3), UnpackedPoly(ct, sk, 4), UnpackedPoly(ct, sk, 0), UnpackedPoly(ct, sk, 1),
                    UnpackedPoly(ct, sk, 2)))
  }

  /** Decryption returns the message exactly when the error of every coefficient is one its bit
      tolerates.  Every difference has an error of canonical size, so this decides all cases. */
  lemma DecryptsExactly(r: Roots, s0: Poly, s1: Poly, u0: Poly, u1: Poly, v: Poly, m: Message, e: Poly)
    requires forall i: nat :: i < 256 ==> -1664 <= e[i] <= 1664
    requires CongPoly(Minus(v, InnerProduct(r, s0, s1, Ntt(r, u0), Ntt(r, u1))), Plus(FromMessage(m), e))
    ensures ToMessage(Noisy(r, s0, s1, u0, u1, v)) == m <==> forall i: nat :: i < 256 ==> Tolerates(m[i], e[i])
  {
    hide InnerProduct, Forward, TopBit, Tolerates;
    var w := InnerProduct(r, s0, s1, Ntt(r, u0), Ntt(r, u1));
    var d := ToMessage(Noisy(r, s0, s1, u0, u1, v));
    forall i: nat | i < 256 ensures d[i] == m[i] <==> Tolerates(m[i], e[i]) {
      assert Cong(Minus(v, w)[i], Plus(FromMessage(m), e)[i]);
      BitDecoded(v[i] - w[i], m[i], e[i]);
    }
    if forall i: nat :: i < 256 ==> Tolerates(m[i], e[i]) { assert d == m; }
  }

  lemma BitDecoded(x: int, b: bool, e: int)
    requires Cong(x, BitPoly(b) + e) && -1664 <= e <= 1664
    ensures TopBit(U16(x % 3329)) == b <==> Tolerates(b, e)
  {
    hide TopBit, Tolerates;
    ModCong(x);
    CongTrans(x % 3329, x, BitPoly(b) + e);
    BitExact(x % 3329, b, e);
  }

  /** In particular noise of magnitude at most 831 on every coefficient is removed. */
  lemma DecryptsWithinNoise(r: Roots, s0: Poly, s1: Poly, u0: Poly, u1: Poly, v: Poly, m: Message, e: Poly)
    requires forall i: nat :: i < 256 ==> -831 <= e[i] <= 831
    requires CongPoly(Minus(v, InnerProduct(r, s0, s1, Ntt(r, u0), Ntt(r, u1))), Plus(FromMessage(m), e))
    ensures ToMessage(Noisy(r, s0, s1, u0, u1, v)) == m
  {
    hide InnerProduct, Forward, TopBit, Noisy, CongPoly;
    BitLost();
    DecryptsExactly(r, s0, s1, u0, u1, v, m, e);
  }

  // ---------------------------------------------------------------- the engine

  /** Operand slots after unpacking. */
  lemma UnpackedSlots(ct: Ciphertext, sk: SecretKey, was: Slots)
    ensures forall s: Slot :: s < 5 ==> Unpacked(ct, sk, was)[s] == UnpackedPoly(ct, sk, s)
    ensures forall s: Slot :: s < 3 ==> Bounded(UnpackedPoly(ct, sk, s), 3328)
    ensures forall s: Slot :: s < 5 ==> Bounded(UnpackedPoly(ct, sk, s), 4095)
  {
    hide Coeff;
    forall s: Slot, i: Index | s < 5
      ensures 0 <= UnpackedPoly(ct, sk, s)[i] <= 4095 && (s < 3 ==> UnpackedPoly(ct, sk, s)[i] <= 3328)
    {
      CoeffRange(ct, sk, Address(s, i));
    }
  }

  /** Every word the add/sub steps read fits in 16 bits. */
  lemma SourcesFit(z: Zetas, s0: Poly, s1: Poly, u0: Poly, u1: Poly, v: Poly)
    requires GoodRom(z) && Bounded(s0, 4095) && Bounded(s1, 4095) && Bounded(u0, 3328) && Bounded(u1, 3328) && Bounded(v, 3328)
    ensures Words(BaseMulWords(z, s0, NttCommand(z, u0))) && Words(BaseMulWords(z, s1, NttCommand(z, u1)))
    ensures Words(v) && Words(InnerWords(z, s0, s1, NttCommand(z, u0), NttCommand(z, u1)))
  {
    hide NttWords, InnerWords, BaseMulWords, GoodRom, RootsOf, Forward, InnerProduct;
    NttMeaning(z, u0, 7);
    NttMeaning(z, u1, 7);
    InnerWordsMeaning(z, s0, s1, NttCommand(z, u0), NttCommand(z, u1), Ntt(RootsOf(z), u0), Ntt(RootsOf(z), u1));
    BoundedWords(v, 3328);
    BoundedWords(BaseMulWords(z, s0, NttCommand(z, u0)), 6656);
    BoundedWords(BaseMulWords(z, s1, NttCommand(z, u1)), 6656);
    BoundedWords(InnerWords(z, s0, s1, NttCommand(z, u0), NttCommand(z, u1)), 3328);
  }

  lemma BoundedWords(f: Poly, b: nat)
    requires Bounded(f, b) && b <= 32767
    ensures Words(f)
  {
  }

  const SUM: AddSub.Command := AddSub.Command(false, 7, 8, 9)
  const INVERSE: Bridge.Command := Bridge.Command(1, 9, 0, 10)
  const DIFFERENCE: AddSub.Command := AddSub.Command(true, 2, 10, 11)

  /** Slots after each step of the schedule, from the expanded inputs on. */
  datatype Trace = Trace(expanded: Slots, multiplied: Slots, summed: Slots, inverted: Slots)

  ghost predicate Scheduled(z: Zetas, ct: Ciphertext, sk: SecretKey, was: Slots, t: Trace) {
    && GoodRom(z)
    && t.expanded == Unpacked(ct, sk, was)
    && t.multiplied == Bridge.Serial(z, ProductBatch(), t.expanded)
    && t.summed == AddSub.Execute(SUM, t.multiplied)
    && t.inverted == Bridge.Serial(z, [INVERSE], t.summed)
  }

  lemma ScheduledSlots(z: Zetas, ct: Ciphertext, sk: SecretKey, was: Slots, t: Trace)
    requires Scheduled(z, ct, sk, was, t)
    ensures var u := (s: Slot) requires s < 5 => UnpackedPoly(ct, sk, s);
      && t.multiplied[7] == BaseMulWords(z, u(3), NttCommand(z, u(0))) && t.multiplied[8] == BaseMulWords(z, u(4), NttCommand(z, u(1)))
      && t.inverted[2] == u(2) && t.inverted[10] == InnerWords(z, u(3), u(4), NttCommand(z, u(0)), NttCommand(z, u(1)))
  {
    hide GoodRom, Unpacked, UnpackedPoly, Bridge.Serial, NttWords, InttWords, BaseMulWords, AddSub.AddSubPoly;
    UnpackedSlots(ct, sk, was);
    ProductSlots(z, t.expanded);
    OneCommand(z, INVERSE, t.summed);
  }

  /** Both add/sub steps find 16-bit words, and the decoded difference is the message. */
  lemma ScheduleDecodes(z: Zetas, ct: Ciphertext, sk: SecretKey, was: Slots, t: Trace)
    requires Scheduled(z, ct, sk, was, t)
    ensures AddSub.Sources(t.multiplied, SUM) && AddSub.Sources(t.inverted, DIFFERENCE)
    ensures ToMessage(AddSub.Execute(DIFFERENCE, t.inverted)[11]) == Decoded(RootsOf(z), ct, sk)
  {
    hide Unpacked, UnpackedPoly, Bridge.Serial, NttWords, InttWords, BaseMulWords, AddSub.AddSubPoly, InnerWords, RootsOf, Noisy,
         ToMessage, RootsSplit, RootsPair, Words;
    ScheduledSlots(z, ct, sk, was, t);
    UnpackedSlots(ct, sk, was);
    var u := (s: Slot) requires s < 5 => UnpackedPoly(ct, sk, s);
    SourcesFit(z, u(3), u(4), u(0), u(1), u(2));
    SlotElevenMeaning(z, u(3), u(4), u(0), u(1), u(2));
  }
}
