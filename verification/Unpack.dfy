/** The controller that expands a ciphertext and a secret key into polynomial slots 0 to 4. */
module Unpack {
  import opened Bytes
  import opened Codec
  import opened Ring
  import opened PolyRam
  import opened Layout

  // ---------------------------------------------------------------- registers

  datatype State = Idle | ReadReq | ReadWait | WriteCoeff | NextPhase | Done

  datatype Regs = Regs(state: State, phase: Phase, byteIndex: nat, groupCount: nat, groupIndex: nat, writeIndex: nat,
                       group: Five, ctQ: Word, skQ: Word)

  function Selected(x: Regs): Byte {
    (if x.phase == 2 then x.skQ else x.ctQ)[x.byteIndex % 4]
  }

  predicate InRange(x: Regs) {
    && x.groupCount < Size(x.phase) && x.groupIndex <= Groups(x.phase)
    && (x.state == WriteCoeff ==> x.writeIndex < Count(x.phase) && x.groupIndex < Groups(x.phase))
  }

  function NextRegs(x: Regs, start: bool, ct: Ciphertext, sk: SecretKey): Regs
    requires InRange(x)
  {
    var n := x.(ctQ := WordAt(ct, x.byteIndex), skQ := WordAt(sk, x.byteIndex));
    match x.state
    case Idle =>
      if start then n.(phase := 0, byteIndex := 0, groupCount := 0, groupIndex := 0, group := [0, 0, 0, 0, 0], state := ReadReq)
      else n
    case ReadReq => n.(state := ReadWait)
    case ReadWait =>
      var y := n.(group := x.group[x.groupCount := Selected(x)], byteIndex := x.byteIndex + 1);
      if x.groupCount == Size(x.phase) - 1 then y.(groupCount := 0, writeIndex := 0, state := WriteCoeff)
      else y.(groupCount := x.groupCount + 1, state := ReadReq)
    case WriteCoeff =>
      if x.writeIndex == Count(x.phase) - 1 then
        n.(writeIndex := 0, groupIndex := x.groupIndex + 1,
           state := if x.byteIndex == (if x.phase == 0 then 640 else 768) then NextPhase else ReadReq)
      else n.(writeIndex := x.writeIndex + 1)
    case NextPhase =>
      var y := n.(group := [0, 0, 0, 0, 0], groupIndex := 0, groupCount := 0, byteIndex := 0);
      if x.phase == 0 then y.(phase := 1, byteIndex := 640, state := ReadReq)
      else if x.phase == 1 then y.(phase := 2, state := ReadReq)
      else y.(state := Done)
    case Done => n.(state := Idle)
  }

  function RamWe(x: Regs): bool { x.state == WriteCoeff }

  function RamAddr(x: Regs): nat {
    if x.state == WriteCoeff then AddrOf(x.phase, x.groupIndex) + x.writeIndex else 0
  }

  function RamData(x: Regs): int
    requires InRange(x)
  {
    if x.state == WriteCoeff then Field(x.phase, x.group, x.writeIndex) else 0
  }

  // ---------------------------------------------------------------- what every register means

  /** Addresses below n are expanded, the others old. */
  ghost predicate Prefix(slots: Slots, was: Slots, ct: Ciphertext, sk: SecretKey, n: nat) {
    forall s: Slot, i: Index :: slots[s][i] == if Address(s, i) < n && s < 5 then Coeff(ct, sk, Address(s, i)) else was[s][i]
  }

  function Written(x: Regs): nat {
    match x.state
    case WriteCoeff => AddrOf(x.phase, x.groupIndex) + x.writeIndex
    case NextPhase => if x.phase == 2 then 1280 else Start(x.phase + 1)
    case Done => 1280
    case _ => AddrOf(x.phase, x.groupIndex)
  }

  ghost predicate Captured(x: Regs, ct: Ciphertext, sk: SecretKey, n: nat)
    requires x.groupIndex < Groups(x.phase)
  {
    forall i :: 0 <= i < n && i < Size(x.phase) ==> x.group[i] == GroupAt(x.phase, ct, sk, x.groupIndex, i)
  }

  ghost predicate Inv(x: Regs, ram: Ram, was: Slots, ct: Ciphertext, sk: SecretKey) {
    && InRange(x)
    && (x.state != Idle ==> Prefix(ram.slots, was, ct, sk, Written(x)))
    && match x.state
       case ReadReq =>
         x.groupIndex < Groups(x.phase) && x.byteIndex == ByteOf(x.phase, x.groupIndex) + x.groupCount
         && Captured(x, ct, sk, x.groupCount)
       case ReadWait =>
         x.groupIndex < Groups(x.phase) && x.byteIndex == ByteOf(x.phase, x.groupIndex) + x.groupCount
         && Captured(x, ct, sk, x.groupCount)
         && x.ctQ == WordAt(ct, x.byteIndex) && x.skQ == WordAt(sk, x.byteIndex)
       case WriteCoeff =>
         x.groupCount == 0 && x.byteIndex == ByteOf(x.phase, x.groupIndex) + Size(x.phase) && Captured(x, ct, sk, 5)
       case _ => true
  }

  /** Clocks until idle, counted from the first clock of group g. */
  function LeftFrom(p: Phase, g: nat): int {
    if p == 0 then 2564 + 14 * (128 - g) else if p == 1 then 2051 + 4 * (128 - g) else 2 + 8 * (256 - g)
  }

  /** Clocks until idle. */
  function Left(x: Regs): int {
    match x.state
    case Idle => 0
    case ReadReq => LeftFrom(x.phase, x.groupIndex) - 2 * x.groupCount
    case ReadWait => LeftFrom(x.phase, x.groupIndex) - 2 * x.groupCount - 1
    case WriteCoeff => LeftFrom(x.phase, x.groupIndex) - 2 * Size(x.phase) - x.writeIndex
    case NextPhase => if x.phase == 0 then 2564 else if x.phase == 1 then 2051 else 2
    case Done => 1
  }

  // ---------------------------------------------------------------- steps

  lemma CaptureStep(x: Regs, ct: Ciphertext, sk: SecretKey)
    requires InRange(x) && x.state == ReadWait && x.groupIndex < Groups(x.phase)
    requires x.byteIndex == ByteOf(x.phase, x.groupIndex) + x.groupCount
    requires Captured(x, ct, sk, x.groupCount) && x.ctQ == WordAt(ct, x.byteIndex) && x.skQ == WordAt(sk, x.byteIndex)
    ensures Captured(x.(group := x.group[x.groupCount := Selected(x)]), ct, sk, x.groupCount + 1)
  {
    SelectedByte(Source(x.phase, ct, sk), x.byteIndex);
  }

  /** The group register holds the group, and what is written is the coefficient of that address. */
  lemma FieldIsCoeff(x: Regs, ct: Ciphertext, sk: SecretKey)
    requires InRange(x) && x.state == WriteCoeff && Captured(x, ct, sk, 5)
    ensures RamAddr(x) < 1280 && RamData(x) == Coeff(ct, sk, RamAddr(x))
  {
    hide Unpack10, Unpack4, Decode12;
    var g := GroupOf(x.phase, ct, sk, x.groupIndex);
    assert forall i :: 0 <= i < Size(x.phase) ==> x.group[i] == g[i];
    assert x.phase == 0 ==> x.group == g;
    var k := RamAddr(x) - Start(x.phase);
    assert k / Count(x.phase) == x.groupIndex && k % Count(x.phase) == x.writeIndex;
  }

  lemma PrefixStep(ram: Ram, was: Slots, ct: Ciphertext, sk: SecretKey, n: nat)
    requires n < 1280 && Prefix(ram.slots, was, ct, sk, n)
    ensures Prefix(RamEdge(ram, true, n, Coeff(ct, sk, n)).slots, was, ct, sk, n + 1)
  {
    hide Coeff;
    var slots := RamEdge(ram, true, n, Coeff(ct, sk, n)).slots;
    forall s: Slot, i: Index
      ensures slots[s][i] == if Address(s, i) < n + 1 && s < 5 then Coeff(ct, sk, Address(s, i)) else was[s][i]
    {
      assert Address(s, i) == n <==> s == n / 256 && i == n % 256;
    }
  }

  lemma LeftDown(x: Regs, start: bool, ct: Ciphertext, sk: SecretKey)
    requires InRange(x) && x.state != Idle
    requires x.state in {ReadReq, ReadWait} ==> x.groupIndex < Groups(x.phase)
    requires x.state == WriteCoeff ==> x.groupCount == 0 && x.byteIndex == ByteOf(x.phase, x.groupIndex) + Size(x.phase)
    ensures Left(NextRegs(x, start, ct, sk)) == Left(x) - 1 >= 0
  {
    hide WordAt, Selected;
  }

  lemma WriteStep(x: Regs, ram: Ram, was: Slots, ct: Ciphertext, sk: SecretKey)
    requires Inv(x, ram, was, ct, sk) && x.state == WriteCoeff
    ensures RamAddr(x) < 1280
    ensures Prefix(RamEdge(ram, true, RamAddr(x), RamData(x)).slots, was, ct, sk, RamAddr(x) + 1)
  {
    hide Prefix, RamEdge, Coeff, Field, GroupAt, RamData, Captured;
    FieldIsCoeff(x, ct, sk);
    PrefixStep(ram, was, ct, sk, RamAddr(x));
  }

  lemma InvKept(x: Regs, ram: Ram, was: Slots, ct: Ciphertext, sk: SecretKey, start: bool)
    requires Inv(x, ram, was, ct, sk) && x.state != Idle
    ensures RamAddr(x) < 3072
    ensures Inv(NextRegs(x, start, ct, sk), RamEdge(ram, RamWe(x), RamAddr(x), RamData(x)), was, ct, sk)
  {
    hide Prefix, RamEdge, Coeff, Field, GroupAt, WordAt, RamData, Selected;
    if x.state == ReadWait { CaptureStep(x, ct, sk); }
    if x.state == WriteCoeff { WriteStep(x, ram, was, ct, sk); } else { RamUntouched(ram, RamAddr(x), RamData(x)); }
  }

  lemma AllWritten(ram: Ram, was: Slots, ct: Ciphertext, sk: SecretKey)
    requires Prefix(ram.slots, was, ct, sk, 1280)
    ensures ram.slots == Unpacked(ct, sk, was)
  {
    hide Coeff;
    forall s: Slot ensures ram.slots[s] == Unpacked(ct, sk, was)[s] {
      assert |ram.slots[s]| == |Unpacked(ct, sk, was)[s]|;
      forall i: Index ensures ram.slots[s][i] == Unpacked(ct, sk, was)[s][i] { }
    }
  }

  lemma NoneWritten(was: Slots, ct: Ciphertext, sk: SecretKey)
    ensures Prefix(was, was, ct, sk, 0)
  {
    hide Coeff;
  }

  // ---------------------------------------------------------------- the machine

  class UnpackController {
    var x: Regs
    ghost var was: Slots

    ghost predicate Valid(ram: Ram, ct: Ciphertext, sk: SecretKey)
      reads this
    {
      Inv(x, ram, was, ct, sk)
    }

    ghost predicate Resting()
      reads this
    {
      x.state == Idle && InRange(x)
    }

    /** A command that found the slots w is under way. */
    ghost predicate Working(w: Slots, ram: Ram, ct: Ciphertext, sk: SecretKey)
      reads this
    {
      x.state != Idle && was == w && Valid(ram, ct, sk)
    }

    predicate AtDone()
      reads this
    {
      x.state == Done
    }

    constructor (ctQ: Word, skQ: Word)
      ensures Resting()
    {
      x := Regs(Idle, 0, 0, 0, 0, 0, [0, 0, 0, 0, 0], ctQ, skQ);
    }

    /** One rising edge of the controller, both byte memories and the polynomial memory. */
    method Clock(start: bool, ct: Ciphertext, sk: SecretKey, ram: Ram) returns (ram': Ram)
      requires Valid(ram, ct, sk)
      modifies this
      ensures Valid(ram', ct, sk)
      ensures old(x.state) == Idle ==> ram'.slots == ram.slots && (start ==> was == ram.slots && Left(x) == 4356)
      ensures old(x.state) == Idle && !start ==> x.state == Idle
      ensures old(x.state) != Idle ==> Left(x) == old(Left(x)) - 1 && was == old(was)
      ensures x.state == Done ==> ram'.slots == Unpacked(ct, sk, was)
      ensures old(x.state) == Done ==> ram'.slots == ram.slots
      ensures old(x.state) != Idle && x.state == Idle ==> old(x.state) == Done
    {
      hide Prefix, RamEdge, Coeff, Captured, RamData, Unpacked;
      if x.state == Idle {
        was := ram.slots;
        NoneWritten(was, ct, sk);
        RamUntouched(ram, RamAddr(x), RamData(x));
        if start { EmptyCapture(NextRegs(x, start, ct, sk), ct, sk); }
      } else {
        InvKept(x, ram, was, ct, sk, start);
        LeftDown(x, start, ct, sk);
        if x.state == Done { RamUntouched(ram, RamAddr(x), RamData(x)); }
      }
      ram' := RamEdge(ram, RamWe(x), RamAddr(x), RamData(x));
      x := NextRegs(x, start, ct, sk);
      if x.state == Done { AllWritten(ram', was, ct, sk); }
    }

    /** The same edge as an engine sees it. */
    method Step(start: bool, ct: Ciphertext, sk: SecretKey, ghost w: Slots, ram: Ram) returns (ram': Ram)
      requires Resting() || Working(w, ram, ct, sk)
      modifies this
      ensures old(Resting()) ==> ram'.slots == ram.slots
      ensures old(Resting()) && !start ==> Resting()
      ensures old(Resting()) && start ==> Working(ram.slots, ram', ct, sk)
      ensures !old(Resting()) && !old(AtDone()) ==> Working(w, ram', ct, sk) && 0 <= Left(x) < old(Left(x))
      ensures !old(Resting()) && old(AtDone()) ==> Resting() && ram'.slots == ram.slots == Unpacked(ct, sk, w)
    {
      hide Prefix, Captured, Unpacked;
      if x.state == Done { AllWritten(ram, was, ct, sk); }
      ram' := Clock(start, ct, sk, ram);
      LeftIsPositive(x, ram', was, ct, sk);
      IdleInRange(x, ram', was, ct, sk);
    }

    method Run(ct: Ciphertext, sk: SecretKey, ram: Ram) returns (out: Ram)
      requires Resting()
      modifies this
      ensures Resting() && out.slots == Unpacked(ct, sk, ram.slots)
    {
      assert Valid(ram, ct, sk);
      hide Inv, Unpacked;
      out := Clock(true, ct, sk, ram);
      while x.state != Idle
        invariant Valid(out, ct, sk) && was == ram.slots
        invariant x.state == Done || x.state == Idle ==> out.slots == Unpacked(ct, sk, ram.slots)
        decreases Left(x)
      {
        LeftIsPositive(x, out, was, ct, sk);
        out := Clock(false, ct, sk, out);
      }
      IdleInRange(x, out, was, ct, sk);
    }
  }

  lemma EmptyCapture(x: Regs, ct: Ciphertext, sk: SecretKey)
    requires x.groupIndex < Groups(x.phase)
    ensures Captured(x, ct, sk, 0)
  {
  }

  lemma IdleInRange(x: Regs, ram: Ram, was: Slots, ct: Ciphertext, sk: SecretKey)
    requires Inv(x, ram, was, ct, sk)
    ensures InRange(x)
  {
  }

  lemma LeftIsPositive(x: Regs, ram: Ram, was: Slots, ct: Ciphertext, sk: SecretKey)
    requires Inv(x, ram, was, ct, sk)
    ensures Left(x) >= 0
  {
    hide Prefix, Captured;
  }
}
