/** The controller that compresses one polynomial and compares its bytes with part of a ciphertext. */
module PackCompare {
  import opened Bytes
  import opened Codec
  import opened Ring
  import opened PolyRam
  import opened Layout

  datatype Job = Job(clear: bool, d4: bool, slot: Slot, base: nat)
  {
    predicate Ok() { base + Length(d4) <= 768 }
  }

  // ---------------------------------------------------------------- registers

  datatype State = Idle | PReq | PWait | CPrep | CReq | CWait | NextGroup | Done

  datatype Regs = Regs(state: State, groupIndex: nat, coeffIndex: nat, byteIndex: nat, d4: bool, slot: Slot, base: nat,
                       coeffs: Four, mismatch: bool, mismatchBar: bool, ctQ: Word)

  predicate InRange(x: Regs) {
    && x.groupIndex < GroupCount(x.d4) && x.coeffIndex < CoeffsBefore(x.d4, 1)
    && (x.state in {CReq, CWait} ==> x.byteIndex < BytesBefore(x.d4, 1))
  }

  function CtIndex(x: Regs): nat { x.base + BytesBefore(x.d4, x.groupIndex) + x.byteIndex }

  function RamIndex(x: Regs): Index
    requires InRange(x)
  {
    CoeffsBefore(x.d4, x.groupIndex) + x.coeffIndex
  }

  /** Both rails must agree that nothing differed. */
  function MismatchOut(x: Regs): bool { x.mismatch || !x.mismatchBar || x.mismatch == x.mismatchBar }

  function NextRegs(x: Regs, start: bool, j: Job, q: int, ct: Ciphertext): Regs
    requires InRange(x)
  {
    var n := x.(ctQ := WordAt(ct, CtIndex(x)));
    match x.state
    case Idle =>
      if start then
        n.(groupIndex := 0, coeffIndex := 0, byteIndex := 0, d4 := j.d4, slot := j.slot, base := j.base, coeffs := [0, 0, 0, 0],
           mismatch := x.mismatch && !j.clear, mismatchBar := x.mismatchBar || j.clear, state := PReq)
      else n
    case PReq => n.(state := PWait)
    case PWait =>
      var y := n.(coeffs := x.coeffs[x.coeffIndex := U16(q)]);
      if x.coeffIndex == (if x.d4 then 1 else 3) then y.(coeffIndex := 0, state := CPrep)
      else y.(coeffIndex := x.coeffIndex + 1, state := PReq)
    case CPrep => n.(byteIndex := 0, state := CReq)
    case CReq => n.(state := CWait)
    case CWait =>
      var same := x.ctQ[CtIndex(x) % 4] == GroupByte(x.coeffs, x.d4, x.byteIndex);
      var y := n.(mismatch := x.mismatch || !same, mismatchBar := x.mismatchBar && same);
      if x.byteIndex == (if x.d4 then 0 else 4) then y.(state := NextGroup) else y.(byteIndex := x.byteIndex + 1, state := CReq)
    case NextGroup =>
      if x.groupIndex == (if x.d4 then 127 else 63) then n.(state := Done)
      else n.(groupIndex := x.groupIndex + 1, coeffs := [0, 0, 0, 0], state := PReq)
    case Done => n.(state := Idle)
  }

  // ---------------------------------------------------------------- what every register means

  /** Everything but the unused upper coefficients of a four-bit group. */
  ghost predicate Captured(x: Regs, p: Poly, n: nat)
    requires x.groupIndex < GroupCount(x.d4)
  {
    forall i :: 0 <= i < n && i < CoeffsBefore(x.d4, 1) ==> x.coeffs[i] == U16(p[CoeffsBefore(x.d4, x.groupIndex) + i])
  }

  function Compared(x: Regs): nat {
    match x.state
    case CReq => BytesBefore(x.d4, x.groupIndex) + x.byteIndex
    case CWait => BytesBefore(x.d4, x.groupIndex) + x.byteIndex
    case NextGroup => BytesBefore(x.d4, x.groupIndex + 1)
    case Done => Length(x.d4)
    case _ => BytesBefore(x.d4, x.groupIndex)
  }

  /** The flag is sticky, and tells whether one of the first n bytes differs. */
  ghost predicate FlagMeans(mismatch: bool, sticky: bool, enc: seq<Byte>, ct: Ciphertext, base: nat, n: nat)
    requires n <= |enc| && base + |enc| <= 768
  {
    mismatch <==> sticky || ct[base..base + n] != enc[..n]
  }

  ghost predicate Inv(x: Regs, q: int, p: Poly, ct: Ciphertext, sticky: bool) {
    && InRange(x) && x.mismatchBar == !x.mismatch
    && (x.state != Idle ==>
          && x.base + Length(x.d4) <= 768 && Compared(x) <= Length(x.d4)
          && FlagMeans(x.mismatch, sticky, Encoded(p, x.d4), ct, x.base, Compared(x)))
    && match x.state
       case PReq => Captured(x, p, x.coeffIndex)
       case PWait => Captured(x, p, x.coeffIndex) && q == p[RamIndex(x)]
       case CPrep => Captured(x, p, 4) && x.coeffIndex == 0
       case CReq => Captured(x, p, 4) && x.coeffIndex == 0
       case CWait => Captured(x, p, 4) && x.coeffIndex == 0 && x.ctQ == WordAt(ct, CtIndex(x))
       case NextGroup => x.coeffIndex == 0
       case _ => true
  }

  /** Clocks until idle. */
  function Left(x: Regs): int {
    var group := if x.d4 then 8 * (GroupCount(x.d4) - x.groupIndex) else 20 * (GroupCount(x.d4) - x.groupIndex);
    match x.state
    case Idle => 0
    case PReq => group + 1 - 2 * x.coeffIndex
    case PWait => group - 2 * x.coeffIndex
    case CPrep => group + 1 - 2 * CoeffsBefore(x.d4, 1)
    case CReq => group - 2 * CoeffsBefore(x.d4, 1) - 2 * x.byteIndex
    case CWait => group - 2 * CoeffsBefore(x.d4, 1) - 2 * x.byteIndex - 1
    case NextGroup => group - 2 * CoeffsBefore(x.d4, 1) - 2 * BytesBefore(x.d4, 1)
    case Done => 1
  }

  // ---------------------------------------------------------------- steps

  lemma LeftDown(x: Regs, start: bool, j: Job, q: int, ct: Ciphertext)
    requires InRange(x) && x.state != Idle && (x.state != PReq && x.state != PWait ==> x.coeffIndex == 0 || x.state == Done)
    ensures Left(NextRegs(x, start, j, q, ct)) == Left(x) - 1 >= 0
  {
    hide WordAt, GroupByte, U16;
  }

  /** The compared byte is the encoding's byte at that position. */
  lemma GeneratedIsEncoded(x: Regs, p: Poly)
    requires InRange(x) && x.state == CWait && Captured(x, p, 4)
    ensures BytesBefore(x.d4, x.groupIndex) + x.byteIndex < Length(x.d4)
    ensures GroupByte(x.coeffs, x.d4, x.byteIndex) == Encoded(p, x.d4)[BytesBefore(x.d4, x.groupIndex) + x.byteIndex]
  {
    hide Comp10, Comp4, U16, Bytes10;
    var k := BytesBefore(x.d4, x.groupIndex) + x.byteIndex;
    assert k / BytesBefore(x.d4, 1) == x.groupIndex && k % BytesBefore(x.d4, 1) == x.byteIndex;
    var c := CoeffsAt(p, x.d4, x.groupIndex);
    assert x.coeffs[0] == c[0] && x.coeffs[1] == c[1];
    if !x.d4 { assert x.coeffs[2] == c[2] && x.coeffs[3] == c[3]; assert x.coeffs == c; }
  }

  lemma FlagStep(mismatch: bool, sticky: bool, enc: seq<Byte>, ct: Ciphertext, base: nat, n: nat)
    requires n < |enc| && base + |enc| <= 768 && FlagMeans(mismatch, sticky, enc, ct, base, n)
    ensures FlagMeans(mismatch || ct[base + n] != enc[n], sticky, enc, ct, base, n + 1)
  {
    assert ct[base..base + n + 1] == ct[base..base + n] + [ct[base + n]];
    assert enc[..n + 1] == enc[..n] + [enc[n]];
  }

  lemma CompareStep(x: Regs, q: int, p: Poly, ct: Ciphertext, sticky: bool, start: bool, j: Job, q': int)
    requires Inv(x, q, p, ct, sticky) && x.state == CWait
    ensures Inv(NextRegs(x, start, j, q, ct), q', p, ct, sticky)
  {
    hide GroupByte, Encoded, FlagMeans, WordAt, U16;
    GeneratedIsEncoded(x, p);
    SelectedByte(ct, CtIndex(x));
    FlagStep(x.mismatch, sticky, Encoded(p, x.d4), ct, x.base, Compared(x));
  }

  lemma InvKept(x: Regs, q: int, p: Poly, ct: Ciphertext, sticky: bool, start: bool, j: Job, q': int)
    requires Inv(x, q, p, ct, sticky) && x.state != Idle && (x.state == PReq ==> q' == p[RamIndex(x)])
    ensures Inv(NextRegs(x, start, j, q, ct), q', p, ct, sticky)
  {
    hide GroupByte, Encoded, FlagMeans, WordAt, U16;
    if x.state == CWait { CompareStep(x, q, p, ct, sticky, start, j, q'); }
  }

  lemma Begins(x: Regs, q: int, p: Poly, ct: Ciphertext, j: Job, q': int)
    requires InRange(x) && x.mismatchBar == !x.mismatch && x.state == Idle && j.Ok()
    ensures Inv(NextRegs(x, true, j, q, ct), q', p, ct, x.mismatch && !j.clear)
  {
    hide Encoded, WordAt;
  }

  lemma DoneMeans(x: Regs, q: int, p: Poly, ct: Ciphertext, sticky: bool)
    requires Inv(x, q, p, ct, sticky) && x.state == Done
    ensures MismatchOut(x) <==> sticky || ct[x.base..x.base + Length(x.d4)] != Encoded(p, x.d4)
  {
    assert Encoded(p, x.d4)[..Length(x.d4)] == Encoded(p, x.d4);
  }

  /** Which registers an edge leaves alone. */
  lemma Fields(x: Regs, start: bool, j: Job, q: int, ct: Ciphertext)
    requires InRange(x) && x.mismatchBar == !x.mismatch
    ensures var y := NextRegs(x, start, j, q, ct);
      && MismatchOut(x) == x.mismatch
      && (x.state == Idle && !start ==> y.state == Idle && y.mismatch == x.mismatch && y.mismatchBar == !y.mismatch && InRange(y))
      && (x.state == Idle && start ==> y.slot == j.slot && y.d4 == j.d4 && y.base == j.base && Left(y) == (if j.d4 then 1025 else 1281))
      && (x.state != Idle || !start ==> y.slot == x.slot && y.d4 == x.d4 && y.base == x.base)
      && (x.state != Idle && y.state == Idle ==> x.state == Done)
      && (x.state in {Idle, Done} && y.state == Idle ==> MismatchOut(y) == x.mismatch)
  {
    hide GroupByte, WordAt;
  }

  /** The flag a pass leaves behind. */
  predicate Flagged(j: Job, m: bool, ct: Ciphertext, slots: Slots)
    requires j.Ok()
  {
    (m && !j.clear) || ct[j.base..j.base + Length(j.d4)] != Encoded(slots[j.slot], j.d4)
  }

  // ---------------------------------------------------------------- the machine

  class PackCompareController {
    var x: Regs
    ghost var sticky: bool

    ghost predicate Valid(ram: Ram, ct: Ciphertext)
      reads this
    {
      Inv(x, ram.q, ram.slots[x.slot], ct, sticky)
    }

    predicate Mismatch()
      reads this
    {
      MismatchOut(x)
    }

    ghost predicate Resting()
      reads this
    {
      x.state == Idle && InRange(x) && x.mismatchBar == !x.mismatch
    }

    /** Pass j, which found the flag m, is under way. */
    ghost predicate Working(j: Job, m: bool, ram: Ram, ct: Ciphertext)
      reads this
    {
      x.state != Idle && x.slot == j.slot && x.d4 == j.d4 && x.base == j.base && sticky == (m && !j.clear) && Valid(ram, ct)
    }

    predicate AtDone()
      reads this
    {
      x.state == Done
    }

    constructor (ctQ: Word)
      ensures Resting() && !Mismatch()
    {
      x := Regs(Idle, 0, 0, 0, false, 0, 0, [0, 0, 0, 0], false, true, ctQ);
    }

    /** One rising edge of the controller, the ciphertext memory and the polynomial memory. */
    method Clock(start: bool, j: Job, ct: Ciphertext, ram: Ram) returns (ram': Ram)
      requires Valid(ram, ct) && (x.state == Idle && start ==> j.Ok())
      modifies this
      ensures Valid(ram', ct) && ram'.slots == ram.slots
      ensures old(x.state) == Idle && start ==>
        && x.slot == j.slot && x.d4 == j.d4 && x.base == j.base && sticky == (old(Mismatch()) && !j.clear)
        && Left(x) == (if j.d4 then 1025 else 1281)
      ensures old(x.state) == Idle && !start ==> x.state == Idle && Mismatch() == old(Mismatch())
      ensures old(x.state) != Idle ==>
        && Left(x) == old(Left(x)) - 1 && sticky == old(sticky)
        && x.slot == old(x.slot) && x.d4 == old(x.d4) && x.base == old(x.base)
      ensures x.state == Done ==>
        && x.base + Length(x.d4) <= 768
        && (Mismatch() <==> sticky || ct[x.base..x.base + Length(x.d4)] != Encoded(ram.slots[x.slot], x.d4))
      ensures old(x.state) != Idle && x.state == Idle ==> old(x.state) == Done && Mismatch() == old(Mismatch())
    {
      hide Encoded, RamEdge, GroupByte, Captured, WordAt, FlagMeans, NextRegs, MismatchOut;
      RamEdgeAt(ram, false, x.slot, RamIndex(x), 0);
      ram' := RamEdge(ram, false, Address(x.slot, RamIndex(x)), 0);
      Fields(x, start, j, ram.q, ct);
      if x.state == Idle {
        if start { sticky := x.mismatch && !j.clear; Begins(x, ram.q, ram.slots[j.slot], ct, j, ram'.q); }
      } else {
        InvKept(x, ram.q, ram.slots[x.slot], ct, sticky, start, j, ram'.q);
        LeftDown(x, start, j, ram.q, ct);
      }
      x := NextRegs(x, start, j, ram.q, ct);
      if x.state == Done { DoneMeans(x, ram'.q, ram.slots[x.slot], ct, sticky); }
    }

    /** The same edge as an engine sees it. */
    method Step(start: bool, j: Job, ghost d: Job, ghost m: bool, ct: Ciphertext, ram: Ram) returns (ram': Ram)
      requires (Resting() && Mismatch() == m) || Working(d, m, ram, ct)
      requires Resting() && start ==> j.Ok()
      requires d.Ok()
      modifies this
      ensures ram'.slots == ram.slots
      ensures old(Resting()) && !start ==> Resting() && Mismatch() == m
      ensures old(Resting()) && start ==> Working(j, m, ram', ct)
      ensures !old(Resting()) && !old(AtDone()) ==> Working(d, m, ram', ct) && 0 <= Left(x) < old(Left(x))
      ensures !old(Resting()) && old(AtDone()) ==> Resting() && Mismatch() == Flagged(d, m, ct, ram.slots)
    {
      hide Encoded, MismatchOut;
      if x.state == Done { DoneMeans(x, ram.q, ram.slots[x.slot], ct, sticky); }
      if x.state == Idle { RestingFlag(x); }
      hide Inv;
      ram' := Clock(start, j, ct, ram);
      LeftIsPositive(x, ram'.q, ram'.slots[x.slot], ct, sticky);
      IdleInRange(x, ram'.q, ram'.slots[x.slot], ct, sticky);
    }

    method Run(j: Job, ct: Ciphertext, ram: Ram) returns (out: Ram)
      requires Resting() && j.Ok()
      modifies this
      ensures Resting() && out.slots == ram.slots
      ensures Mismatch() <==> (old(Mismatch()) && !j.clear) || ct[j.base..j.base + Length(j.d4)] != Encoded(ram.slots[j.slot], j.d4)
    {
      assert Valid(ram, ct);
      hide Inv, Encoded, MismatchOut;
      out := Clock(true, j, ct, ram);
      while x.state != Idle
        invariant Valid(out, ct) && out.slots == ram.slots
        invariant x.state != Idle ==> x.slot == j.slot && x.d4 == j.d4 && x.base == j.base && sticky == (old(Mismatch()) && !j.clear)
        invariant x.state == Done || x.state == Idle ==>
          (Mismatch() <==> (old(Mismatch()) && !j.clear) || ct[j.base..j.base + Length(j.d4)] != Encoded(ram.slots[j.slot], j.d4))
        decreases Left(x)
      {
        LeftIsPositive(x, out.q, out.slots[x.slot], ct, sticky);
        out := Clock(false, j, ct, out);
      }
      IdleInRange(x, out.q, out.slots[x.slot], ct, sticky);
    }
  }

  lemma RestingFlag(x: Regs)
    requires x.mismatchBar == !x.mismatch
    ensures MismatchOut(x) == x.mismatch
  {
  }

  lemma IdleInRange(x: Regs, q: int, p: Poly, ct: Ciphertext, sticky: bool)
    requires Inv(x, q, p, ct, sticky)
    ensures InRange(x) && x.mismatchBar == !x.mismatch
  {
  }

  lemma LeftIsPositive(x: Regs, q: int, p: Poly, ct: Ciphertext, sticky: bool)
    requires Inv(x, q, p, ct, sticky)
    ensures Left(x) >= 0
  {
    hide FlagMeans, Captured;
  }
}
