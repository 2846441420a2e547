/** K-PKE.Encrypt over the shared polynomial slots, compared with a received ciphertext (FIPS 203, sections 5.2 and 6.3). */
module Reencrypt {
  import opened Bytes
  import opened ModQ
  import opened Ring
  import opened Kernel
  import opened PolyRam
  import opened Codec
  import opened Layout
  import opened Messages
  import opened Decrypt
  import opened Encoding
  import opened SampleJobs
  import AddSub
  import Bridge
  import HashEngine
  import HashFeeder
  import Sponge

  // ---------------------------------------------------------------- the standard

  /** Two masking polynomials, three errors, and the four entries of the transposed matrix by rows. */
  datatype Samples = Samples(y0: Poly, y1: Poly, e10: Poly, e11: Poly, e2: Poly, a00: Poly, a01: Poly, a10: Poly, a11: Poly)

  ghost predicate Sampled(s: Samples) {
    && Bounded(s.y0, 3) && Bounded(s.y1, 3) && Bounded(s.e10, 3) && Bounded(s.e11, 3) && Bounded(s.e2, 3)
    && Bounded(s.a00, 3328) && Bounded(s.a01, 3328) && Bounded(s.a10, 3328) && Bounded(s.a11, 3328)
  }

  /** The samples of K-PKE.Encrypt: y from numbers 0 and 1 with eta 3, e1 and e2 from 2, 3 and 4 with
      eta 2, and entry (i, j) of the transposed matrix is entry (j, i) of the matrix. */
  function StandardSamples(f: Sponge.Permutation, rho: Seed, coins: Seed): Samples {
    Samples(NoisePoly(f, coins, 0, 3), NoisePoly(f, coins, 1, 3),
            NoisePoly(f, coins, 2, 2), NoisePoly(f, coins, 3, 2), NoisePoly(f, coins, 4, 2),
            MatrixEntry(f, rho, 0, 0), MatrixEntry(f, rho, 1, 0), MatrixEntry(f, rho, 0, 1), MatrixEntry(f, rho, 1, 1))
  }

  /** One of the four entries needs more than the 1024 bytes the engine looks at. */
  predicate Starved(f: Sponge.Permutation, rho: Seed) {
    |Entries(f, rho, 0, 0)| < 256 || |Entries(f, rho, 1, 0)| < 256 || |Entries(f, rho, 0, 1)| < 256 || |Entries(f, rho, 1, 1)| < 256
  }

  lemma StandardRanges(f: Sponge.Permutation, rho: Seed, coins: Seed)
    ensures Sampled(StandardSamples(f, rho, coins))
  {
    hide MatrixEntry, NoisePoly;
    NoiseRange(f, coins, 0, 3);
    NoiseRange(f, coins, 1, 3);
    NoiseRange(f, coins, 2, 2);
    NoiseRange(f, coins, 3, 2);
    NoiseRange(f, coins, 4, 2);
    EntryRange(f, rho, 0, 0);
    EntryRange(f, rho, 1, 0);
    EntryRange(f, rho, 0, 1);
    EntryRange(f, rho, 1, 1);
  }

  function Reduced(f: Poly): Poly { seq(256, i requires 0 <= i < 256 => f[i] % 3329) }

  /** u_i = NTT^-1(row i of A^T . NTT(y)) + e1_i. */
  function MaskedRow(r: Roots, s: Samples, a0: Poly, a1: Poly, e: Poly): Poly {
    Reduced(Plus(InnerProduct(r, a0, a1, Ntt(r, s.y0), Ntt(r, s.y1)), e))
  }

  /** v = NTT^-1(t . NTT(y)) + e2 + the message polynomial. */
  function MaskedMessage(r: Roots, s: Samples, t0: Poly, t1: Poly, m: Message): Poly {
    Reduced(Plus(Plus(InnerProduct(r, t0, t1, Ntt(r, s.y0), Ntt(r, s.y1)), s.e2), FromMessage(m)))
  }

  /** The ciphertext K-PKE.Encrypt makes of these samples. */
  function Reencrypted(r: Roots, s: Samples, t0: Poly, t1: Poly, m: Message): seq<Byte> {
    StandardBytes(MaskedRow(r, s, s.a00, s.a01, s.e10), false) + StandardBytes(MaskedRow(r, s, s.a10, s.a11, s.e11), false)
    + StandardBytes(MaskedMessage(r, s, t0, t1, m), true)
  }

  // ---------------------------------------------------------------- words stay 16 bits wide

  ghost predicate WordSlots(slots: Slots) { forall s: Slot :: Words(slots[s]) }

  lemma LayerWords(z: Zetas, x: Poly, l: nat)
    requires 1 <= l <= 7
    ensures Words(NttLayer(z, x, l)) && Words(InttLayer(z, x, l))
  {
    hide Montgomery, BackZetaAt, ZetaAt;
    forall a: nat | a < 256 ensures Is16(InttCoeff(z, x, l, a)) { InttCoeffIs16(x, z, l, a); }
  }

  lemma InttCoeffIs16(x: Poly, z: Zetas, l: nat, a: nat)
    requires 1 <= l <= 7 && a < 256
    ensures Is16(InttCoeff(z, x, l, a))
  {
    hide MontMultiplier, BackZetaAt;
  }

  lemma ResultWords(z: Zetas, op: Bridge.Op, x: Poly, y: Poly)
    requires Words(x)
    ensures Words(Bridge.Result(z, op, x, y))
  {
    hide NttLayer, InttLayer, FqMul, PairZeta;
    LayerWords(z, NttWords(z, x, 6), 7);
    LayerWords(z, InttWords(z, x, 1), 1);
  }

  /** The kernel can only leave such words, whatever the commands overlap. */
  lemma {:induction false} OverlappedWords(z: Zetas, cmds: seq<Bridge.Command>, slots: Slots)
    requires WordSlots(slots)
    ensures WordSlots(Bridge.Overlapped(z, cmds, slots))
  {
    hide Bridge.Result, Words;
    if cmds != [] {
      var k := |cmds| - 1;
      var early, late := cmds[..if k == 0 then 0 else k - 1], cmds[..k];
      OverlappedWords(z, early, slots);
      OverlappedWords(z, late, slots);
      ResultWords(z, cmds[k].op, Bridge.Overlapped(z, early, slots)[cmds[k].srcA], Bridge.Overlapped(z, early, slots)[cmds[k].srcB]);
    }
  }

  lemma SumKeepsWords(c: AddSub.Command, slots: Slots)
    requires WordSlots(slots)
    ensures AddSub.Sources(slots, c) && WordSlots(AddSub.Execute(c, slots))
  {
  }

  // ---------------------------------------------------------------- the schedule on slots

  const TRANSFORM0: Bridge.Command := Bridge.Command(0, 2, 0, 2)
  const TRANSFORM1: Bridge.Command := Bridge.Command(0, 3, 0, 3)
  const ROW0: Bridge.Command := Bridge.Command(2, 8, 2, 9)
  const ROW1: Bridge.Command := Bridge.Command(2, 8, 3, 10)
  const KEY0: Bridge.Command := Bridge.Command(2, 0, 2, 9)
  const KEY1: Bridge.Command := Bridge.Command(2, 1, 3, 10)
  const BACK: Bridge.Command := Bridge.Command(1, 11, 0, 9)
  const ADD: AddSub.Command := AddSub.Command(false, 9, 10, 11)
  const ADDMESSAGE: AddSub.Command := AddSub.Command(false, 10, 7, 11)

  function AddError(slot: Slot): AddSub.Command { AddSub.Command(false, 9, slot, 10) }

  function One(z: Zetas, c: Bridge.Command, slots: Slots): Slots { Bridge.Serial(z, [c], slots) }

  /** Slots after one row, from the products to the error. */
  function RowSlots(z: Zetas, slots: Slots, a0: Poly, a1: Poly, error: Slot): Slots {
    var s := One(z, ROW0, slots[8 := a0]);
    var s := One(z, ROW1, s[8 := a1]);
    AddSub.Execute(AddError(error), One(z, BACK, AddSub.Execute(ADD, s)))
  }

  function MessageSlots(z: Zetas, slots: Slots): Slots {
    var s := One(z, KEY1, One(z, KEY0, slots));
    AddSub.Execute(ADDMESSAGE, AddSub.Execute(AddError(6), One(z, BACK, AddSub.Execute(ADD, s))))
  }

  /** Two commands at a distance of one that do not read each other run as one after the other. */
  lemma PairInOrder(z: Zetas, c: Bridge.Command, d: Bridge.Command, slots: Slots)
    requires !Bridge.Reads(d, c.dst)
    ensures Bridge.Overlapped(z, [c, d], slots) == One(z, d, One(z, c, slots))
  {
    hide Bridge.Result;
    Bridge.OverlapInvisible(z, [c, d], slots);
    Bridge.TwoCommands(z, c, d, slots);
    OneCommand(z, c, slots);
    OneCommand(z, d, One(z, c, slots));
  }

  /** A command alone. */
  lemma AloneInOrder(z: Zetas, c: Bridge.Command, slots: Slots)
    ensures Bridge.Overlapped(z, [c], slots) == One(z, c, slots)
  {
    hide Bridge.Result, Bridge.Serial, Bridge.Overlapped;
    OneCommand(z, c, slots);
    Bridge.OverlapInvisible(z, [c], slots);
  }

  lemma RowInSlots(z: Zetas, slots: Slots, a0: Poly, a1: Poly, error: Slot)
    requires error < 8
    ensures var end := RowSlots(z, slots, a0, a1, error);
      && end[10] == AddSub.AddSubPoly(false, InnerWords(z, a0, a1, slots[2], slots[3]), slots[error])
      && forall s: Slot :: s < 8 ==> end[s] == slots[s]
  {
    hide Bridge.Serial, BaseMulWords, InttWords, NttWords, AddSub.AddSubPoly;
    var s0 := slots[8 := a0];
    OneCommand(z, ROW0, s0);
    var s1 := One(z, ROW0, s0)[8 := a1];
    OneCommand(z, ROW1, s1);
    var s2 := AddSub.Execute(ADD, One(z, ROW1, s1));
    OneCommand(z, BACK, s2);
  }

  lemma MessageInSlots(z: Zetas, slots: Slots)
    ensures MessageSlots(z, slots)[11]
         == AddSub.AddSubPoly(false, AddSub.AddSubPoly(false, InnerWords(z, slots[0], slots[1], slots[2], slots[3]), slots[6]), slots[7])
  {
    hide Bridge.Serial, BaseMulWords, InttWords, NttWords, AddSub.AddSubPoly;
    OneCommand(z, KEY0, slots);
    OneCommand(z, KEY1, One(z, KEY0, slots));
    var s := AddSub.Execute(ADD, One(z, KEY1, One(z, KEY0, slots)));
    OneCommand(z, BACK, s);
  }

  // ---------------------------------------------------------------- meaning of the words

  lemma AddedResidue(x: Poly, e: Poly, w: Poly)
    requires CongPoly(x, w)
    ensures AddSub.AddSubPoly(false, x, e) == Reduced(Plus(w, e))
  {
    forall i: nat | i < 256 ensures (x[i] + e[i]) % 3329 == (w[i] + e[i]) % 3329 {
      assert Cong(x[i], w[i]);
      ShiftedResidue(x[i], w[i], e[i]);
    }
  }

  lemma ShiftedResidue(x: int, w: int, e: int)
    requires Cong(x, w)
    ensures (x + e) % 3329 == (w + e) % 3329
  {
  }

  lemma ReducedCong(f: Poly)
    ensures CongPoly(Reduced(f), f)
  {
    forall i: nat | i < 256 ensures Cong(Reduced(f)[i], f[i]) { ModCong(f[i]); }
  }

  /** One row of words is the row of the standard, although the transforms are unreduced. */
  lemma RowMeaning(z: Zetas, s: Samples, a0: Poly, a1: Poly, e: Poly)
    requires GoodRom(z) && Bounded(s.y0, 3) && Bounded(s.y1, 3) && Bounded(a0, 4095) && Bounded(a1, 4095)
    ensures AddSub.AddSubPoly(false, InnerWords(z, a0, a1, NttCommand(z, s.y0), NttCommand(z, s.y1)), e)
         == MaskedRow(RootsOf(z), s, a0, a1, e)
  {
    hide NttWords, InnerWords, InnerProduct, GoodRom, RootsOf, Forward, AddSub.AddSubPoly, CongPoly, Reduced, Plus;
    Widen(s.y0, 3, 3328);
    Widen(s.y1, 3, 3328);
    NttMeaning(z, s.y0, 7);
    NttMeaning(z, s.y1, 7);
    var r := RootsOf(z);
    InnerWordsMeaning(z, a0, a1, NttCommand(z, s.y0), NttCommand(z, s.y1), Ntt(r, s.y0), Ntt(r, s.y1));
    AddedResidue(InnerWords(z, a0, a1, NttCommand(z, s.y0), NttCommand(z, s.y1)), e, InnerProduct(r, a0, a1, Ntt(r, s.y0), Ntt(r, s.y1)));
  }

  lemma Widen(f: Poly, a: nat, b: nat)
    requires Bounded(f, a) && a <= b
    ensures Bounded(f, b)
  {
  }

  lemma MessageMeaning(z: Zetas, s: Samples, t0: Poly, t1: Poly, m: Message)
    requires GoodRom(z) && Bounded(s.y0, 3) && Bounded(s.y1, 3) && Bounded(t0, 4095) && Bounded(t1, 4095)
    ensures AddSub.AddSubPoly(false, AddSub.AddSubPoly(false, InnerWords(z, t0, t1, NttCommand(z, s.y0), NttCommand(z, s.y1)), s.e2), FromMessage(m))
         == MaskedMessage(RootsOf(z), s, t0, t1, m)
  {
    hide InnerWords, InnerProduct, GoodRom, RootsOf, Forward, NttWords, AddSub.AddSubPoly, CongPoly, Reduced, FromMessage;
    RowMeaning(z, s, t0, t1, s.e2);
    var f := Plus(InnerProduct(RootsOf(z), t0, t1, Ntt(RootsOf(z), s.y0), Ntt(RootsOf(z), s.y1)), s.e2);
    ReducedCong(f);
    AddedResidue(Reduced(f), FromMessage(m), f);
  }

  // ---------------------------------------------------------------- before the rows

  /** The slots every row reads: public key, transformed masks, errors and message. */
  ghost predicate Prepared(z: Zetas, s: Samples, m: Message, t0: Poly, t1: Poly, slots: Slots) {
    && slots[0] == t0 && slots[1] == t1
    && slots[2] == NttCommand(z, s.y0) && slots[3] == NttCommand(z, s.y1)
    && slots[4] == s.e10 && slots[5] == s.e11 && slots[6] == s.e2 && slots[7] == FromMessage(m)
  }

  function NoiseSlots(s: Samples, slots: Slots): Slots {
    slots[2 := s.y0][3 := s.y1][4 := s.e10][5 := s.e11][6 := s.e2]
  }

  lemma Prepares(z: Zetas, s: Samples, m: Message, slots: Slots)
    ensures Prepared(z, s, m, slots[0], slots[1],
                     Bridge.Overlapped(z, [TRANSFORM0, TRANSFORM1], NoiseSlots(s, slots[7 := FromMessage(m)])))
  {
    hide Bridge.Serial, Bridge.Overlapped, NttWords;
    var raw := NoiseSlots(s, slots[7 := FromMessage(m)]);
    PairInOrder(z, TRANSFORM0, TRANSFORM1, raw);
    OneCommand(z, TRANSFORM0, raw);
    OneCommand(z, TRANSFORM1, One(z, TRANSFORM0, raw));
  }

  // ---------------------------------------------------------------- the comparison

  /** Three sticky comparisons together compare the whole ciphertext. */
  lemma ThreeComparisons(ct: Ciphertext, x: seq<Byte>, y: seq<Byte>, w: seq<Byte>)
    requires |x| == 320 && |y| == 320 && |w| == 128
    ensures ct == x + y + w <==> ct[0..320] == x && ct[320..640] == y && ct[640..768] == w
  {
    assert ct == ct[0..320] + ct[320..640] + ct[640..768];
    assert (x + y + w)[0..320] == x && (x + y + w)[320..640] == y && (x + y + w)[640..768] == w;
  }

  /** The rows the engine compares are those of the standard when every sample is in range. */
  lemma RowsAreStandard(z: Zetas, s: Samples, m: Message, t0: Poly, t1: Poly, slots: Slots)
    requires GoodRom(z) && Sampled(s) && Bounded(t0, 4095) && Bounded(t1, 4095) && Prepared(z, s, m, t0, t1, slots)
    ensures RowSlots(z, slots, s.a00, s.a01, 4)[10] == MaskedRow(RootsOf(z), s, s.a00, s.a01, s.e10)
    ensures RowSlots(z, slots, s.a10, s.a11, 5)[10] == MaskedRow(RootsOf(z), s, s.a10, s.a11, s.e11)
    ensures MessageSlots(z, slots)[11] == MaskedMessage(RootsOf(z), s, t0, t1, m)
  {
    hide GoodRom, RootsOf, RowSlots, MessageSlots, MaskedRow, MaskedMessage, InnerWords, AddSub.AddSubPoly, NttWords, FromMessage;
    RowInSlots(z, slots, s.a00, s.a01, 4);
    RowInSlots(z, slots, s.a10, s.a11, 5);
    MessageInSlots(z, slots);
    Widen(s.a00, 3328, 4095);
    Widen(s.a01, 3328, 4095);
    Widen(s.a10, 3328, 4095);
    Widen(s.a11, 3328, 4095);
    RowMeaning(z, s, s.a00, s.a01, s.e10);
    RowMeaning(z, s, s.a10, s.a11, s.e11);
    MessageMeaning(z, s, t0, t1, m);
  }

  lemma StillPrepared(z: Zetas, s: Samples, m: Message, t0: Poly, t1: Poly, slots: Slots, a0: Poly, a1: Poly, error: Slot)
    requires Prepared(z, s, m, t0, t1, slots) && error < 8
    ensures Prepared(z, s, m, t0, t1, RowSlots(z, slots, a0, a1, error))
  {
    hide RowSlots, InnerWords, AddSub.AddSubPoly, NttWords, FromMessage;
    RowInSlots(z, slots, a0, a1, error);
  }

  /** The three polynomials are canonical, so the packing circuits give the standard's bytes. */
  lemma RowsEncode(r: Roots, s: Samples, t0: Poly, t1: Poly, m: Message)
    ensures Reencrypted(r, s, t0, t1, m)
         == Encoded(MaskedRow(r, s, s.a00, s.a01, s.e10), false) + Encoded(MaskedRow(r, s, s.a10, s.a11, s.e11), false)
            + Encoded(MaskedMessage(r, s, t0, t1, m), true)
  {
    hide InnerProduct, Encoded, StandardBytes;
    EncodedIsStandard(MaskedRow(r, s, s.a00, s.a01, s.e10), false);
    EncodedIsStandard(MaskedRow(r, s, s.a10, s.a11, s.e11), false);
    EncodedIsStandard(MaskedMessage(r, s, t0, t1, m), true);
  }

  /** The sticky flag of the three passes is the comparison of the whole ciphertext. */
  lemma ComparisonDecides(z: Zetas, s: Samples, m: Message, t0: Poly, t1: Poly, ct: Ciphertext, slots: Slots)
    requires GoodRom(z) && Sampled(s) && Bounded(t0, 4095) && Bounded(t1, 4095) && Prepared(z, s, m, t0, t1, slots)
    ensures var one := RowSlots(z, slots, s.a00, s.a01, 4); var two := RowSlots(z, one, s.a10, s.a11, 5);
      var three := MessageSlots(z, two);
      ct == Reencrypted(RootsOf(z), s, t0, t1, m) <==>
        ct[0..320] == Encoded(one[10], false) && ct[320..640] == Encoded(two[10], false) && ct[640..768] == Encoded(three[11], true)
  {
    hide GoodRom, RootsOf, RowSlots, MessageSlots, MaskedRow, MaskedMessage, Encoded, Prepared, Sampled;
    var one := RowSlots(z, slots, s.a00, s.a01, 4);
    var two := RowSlots(z, one, s.a10, s.a11, 5);
    StillPrepared(z, s, m, t0, t1, slots, s.a00, s.a01, 4);
    StillPrepared(z, s, m, t0, t1, one, s.a10, s.a11, 5);
    RowsAreStandard(z, s, m, t0, t1, slots);
    RowsAreStandard(z, s, m, t0, t1, one);
    RowsAreStandard(z, s, m, t0, t1, two);
    var r := RootsOf(z);
    RowsEncode(r, s, t0, t1, m);
    ThreeComparisons(ct, Encoded(MaskedRow(r, s, s.a00, s.a01, s.e10), false), Encoded(MaskedRow(r, s, s.a10, s.a11, s.e11), false),
                     Encoded(MaskedMessage(r, s, t0, t1, m), true));
  }

  // ---------------------------------------------------------------- the matrix jobs of a row

  function FirstJob(rho: Seed, row: Byte): HashFeeder.Operands { MatrixJob(rho, row, 0, 8) }

  function SecondJob(rho: Seed, row: Byte): HashFeeder.Operands { MatrixJob(rho, row, 1, 8) }

  /** Slots after the two jobs and the arithmetic of a row; the second job finds the first one's slot. */
  function SampledRow(f: Sponge.Permutation, z: Zetas, slots: Slots, rho: Seed, row: Byte, error: Slot): Slots {
    var a0 := Outcome(f, FirstJob(rho, row), slots[8]);
    RowSlots(z, slots, a0, Outcome(f, SecondJob(rho, row), a0), error)
  }

  /** With enough acceptable values the row is worked on row `row` of the transposed matrix. */
  lemma SampledRowMeaning(f: Sponge.Permutation, z: Zetas, slots: Slots, rho: Seed, row: Byte, error: Slot)
    requires !Fails(f, FirstJob(rho, row)) && !Fails(f, SecondJob(rho, row))
    ensures SampledRow(f, z, slots, rho, row, error)
         == RowSlots(z, slots, MatrixEntry(f, rho, 0, row), MatrixEntry(f, rho, 1, row), error)
  {
    hide RowSlots, MatrixEntry, Outcome, Fails;
    OutcomeIsEntry(f, rho, row, 0, 8, slots[8]);
    OutcomeIsEntry(f, rho, row, 1, 8, MatrixEntry(f, rho, 0, row));
  }

  lemma StarvedMeans(f: Sponge.Permutation, rho: Seed)
    ensures Starved(f, rho) <==>
      Fails(f, FirstJob(rho, 0)) || Fails(f, SecondJob(rho, 0)) || Fails(f, FirstJob(rho, 1)) || Fails(f, SecondJob(rho, 1))
  {
    hide Entries;
  }

  /** The first product leaves slot 8 alone. */
  lemma SecondFinds(z: Zetas, slots: Slots, a0: Poly)
    ensures One(z, ROW0, slots[8 := a0])[8] == a0
  {
    hide Bridge.Serial, Bridge.Result;
    OneCommand(z, ROW0, slots[8 := a0]);
  }

  lemma StandardEntries(f: Sponge.Permutation, rho: Seed, coins: Seed)
    ensures var s := StandardSamples(f, rho, coins);
      && s.a00 == MatrixEntry(f, rho, 0, 0) && s.a01 == MatrixEntry(f, rho, 1, 0)
      && s.a10 == MatrixEntry(f, rho, 0, 1) && s.a11 == MatrixEntry(f, rho, 1, 1)
  {
  }
}
