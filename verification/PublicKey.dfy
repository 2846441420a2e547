/** The controller that unpacks the public key embedded in a secret key, a byte at a time. */
module PublicKey {
  import opened Bytes
  import opened Codec
  import opened Ring
  import opened PolyRam
  import opened Layout
  import opened Messages

  type Three = b: seq<Byte> | |b| == 3 witness [0, 0, 0]
  type Value = v: seq<Byte> | |v| == 32 witness seq(32, _ => 0)

  datatype State = Idle | Req | Wait | Write0 | Write1 | MetaNext | Done

  datatype Regs = Regs(state: State, byteIndex: nat, bytePhase: nat, groupIndex: nat, group: Three, rho: Value, hpk: Value, z: Value,
                       skQ: Word)

  function Zeros(): Value { seq(32, _ => 0) }

  predicate InRange(x: Regs) {
    && x.bytePhase < 3 && x.groupIndex <= 256
    && (x.state == Wait ==> x.byteIndex < 1632)
    && (x.state in {Write0, Write1} ==> x.groupIndex < 256)
  }

  /** A byte behind the key goes to the value it belongs to. */
  function Stored(x: Regs, b: Byte): Regs
    requires x.byteIndex < 1632
  {
    if x.byteIndex < 1536 then x
    else if x.byteIndex < 1568 then x.(rho := x.rho[x.byteIndex - 1536 := b])
    else if x.byteIndex < 1600 then x.(hpk := x.hpk[x.byteIndex - 1568 := b])
    else x.(z := x.z[x.byteIndex - 1600 := b])
  }

  function NextRegs(x: Regs, start: bool, sk: SecretKey): Regs
    requires InRange(x)
  {
    var n := x.(skQ := WordAt(sk, x.byteIndex));
    match x.state
    case Idle =>
      if start then n.(byteIndex := 768, bytePhase := 0, groupIndex := 0, group := [0, 0, 0], rho := Zeros(), hpk := Zeros(), z := Zeros(), state := Req)
      else n
    case Req => n.(state := Wait)
    case Wait =>
      var b := x.skQ[x.byteIndex % 4];
      if x.byteIndex < 1536 then
        var y := n.(group := x.group[x.bytePhase := b], byteIndex := x.byteIndex + 1);
        if x.bytePhase == 2 then y.(bytePhase := 0, state := Write0) else y.(bytePhase := x.bytePhase + 1, state := Req)
      else Stored(n, b).(byteIndex := x.byteIndex + 1, state := MetaNext)
    case Write0 => n.(state := Write1)
    case Write1 => n.(groupIndex := x.groupIndex + 1, group := [0, 0, 0], state := Req)
    case MetaNext => n.(state := if x.byteIndex == 1632 then Done else Req)
    case Done => n.(state := Idle)
  }

  function RamWe(x: Regs): bool { x.state == Write0 || x.state == Write1 }

  function RamAddr(x: Regs): nat { if x.groupIndex < 256 then 2 * x.groupIndex + (if x.state == Write1 then 1 else 0) else 512 }

  function RamData(x: Regs): int { Decode12(x.group[0], x.group[1], x.group[2], if x.state == Write1 then 1 else 0) }

  function NextRam(x: Regs, ram: Ram): Ram { RamEdge(ram, RamWe(x), RamAddr(x), RamData(x)) }

  // ---------------------------------------------------------------- what every register means

  /** The first n bytes behind the key are in their registers. */
  ghost predicate Tail(x: Regs, sk: SecretKey, n: nat) {
    forall i: nat :: i < 32 ==>
      && (1536 + i < n ==> x.rho[i] == sk[1536 + i])
      && (1568 + i < n ==> x.hpk[i] == sk[1568 + i])
      && (1600 + i < n ==> x.z[i] == sk[1600 + i])
  }

  ghost predicate Captured(x: Regs, sk: SecretKey, n: nat)
    requires x.groupIndex < 256
  {
    forall i :: 0 <= i < n && i < 3 ==> x.group[i] == sk[768 + 3 * x.groupIndex + i]
  }

  ghost predicate Inv(x: Regs, was: Slots, slots: Slots, sk: SecretKey) {
    && InRange(x)
    && match x.state
       case Idle => true
       case Req => Asking(x, was, slots, sk)
       case Wait => Asking(x, was, slots, sk) && x.skQ == WordAt(sk, x.byteIndex)
       case Write0 =>
         x.bytePhase == 0 && x.byteIndex == 771 + 3 * x.groupIndex && Captured(x, sk, 3) && PublicPrefix(slots, was, sk, 2 * x.groupIndex)
       case Write1 =>
         x.bytePhase == 0 && x.byteIndex == 771 + 3 * x.groupIndex && Captured(x, sk, 3) && PublicPrefix(slots, was, sk, 2 * x.groupIndex + 1)
       case MetaNext =>
         1536 < x.byteIndex <= 1632 && x.groupIndex == 256 && x.bytePhase == 0 && Tail(x, sk, x.byteIndex) && PublicPrefix(slots, was, sk, 512)
       case Done => x.groupIndex == 256 && Tail(x, sk, 1632) && PublicPrefix(slots, was, sk, 512)
  }

  ghost predicate Asking(x: Regs, was: Slots, slots: Slots, sk: SecretKey)
    requires InRange(x)
  {
    && x.byteIndex < 1632 && PublicPrefix(slots, was, sk, 2 * x.groupIndex)
    && (if x.groupIndex < 256 then x.byteIndex == 768 + 3 * x.groupIndex + x.bytePhase && Captured(x, sk, x.bytePhase)
        else x.byteIndex >= 1536 && x.bytePhase == 0 && Tail(x, sk, x.byteIndex))
  }

  /** Clocks until idle. */
  function Left(x: Regs): int {
    match x.state
    case Idle => 0
    case Req => if x.groupIndex < 256 then 2337 - 8 * x.groupIndex - 2 * x.bytePhase else 3 * (1632 - x.byteIndex) + 1
    case Wait => if x.groupIndex < 256 then 2336 - 8 * x.groupIndex - 2 * x.bytePhase else 3 * (1632 - x.byteIndex)
    case Write0 => 2331 - 8 * x.groupIndex
    case Write1 => 2330 - 8 * x.groupIndex
    case MetaNext => 3 * (1632 - x.byteIndex) + 2
    case Done => 1
  }

  // ---------------------------------------------------------------- steps

  lemma LeftDown(x: Regs, was: Slots, slots: Slots, sk: SecretKey, start: bool)
    requires Inv(x, was, slots, sk) && x.state != Idle
    ensures Left(NextRegs(x, start, sk)) == Left(x) - 1 >= 0
  {
    hide WordAt, PublicPrefix, Captured, Tail;
  }

  lemma CaptureStep(x: Regs, was: Slots, slots: Slots, sk: SecretKey, start: bool)
    requires Inv(x, was, slots, sk) && x.state == Wait
    ensures Inv(NextRegs(x, start, sk), was, slots, sk)
  {
    hide PublicPrefix, WordAt;
    SelectedByte(sk, x.byteIndex);
  }

  lemma WriteStep(x: Regs, was: Slots, ram: Ram, sk: SecretKey, start: bool)
    requires Inv(x, was, ram.slots, sk) && RamWe(x)
    ensures RamAddr(x) < 512 && Inv(NextRegs(x, start, sk), was, NextRam(x, ram).slots, sk)
  {
    hide PublicPrefix, RamEdge, PublicCoeff, Decode12, WordAt;
    var g := x.groupIndex;
    assert x.group == sk[768 + 3 * g..771 + 3 * g];
    GroupWords(sk, x.group, g);
    PublicStep(ram, was, sk, RamAddr(x));
  }

  lemma InvKept(x: Regs, was: Slots, ram: Ram, sk: SecretKey, start: bool)
    requires Inv(x, was, ram.slots, sk) && x.state != Idle
    ensures Inv(NextRegs(x, start, sk), was, NextRam(x, ram).slots, sk)
  {
    hide PublicPrefix, RamEdge, RamData, WordAt;
    if RamWe(x) { WriteStep(x, was, ram, sk, start); }
    else {
      RamUntouched(ram, RamAddr(x), RamData(x));
      if x.state == Wait { CaptureStep(x, was, ram.slots, sk, start); }
    }
  }

  lemma Begins(x: Regs, ram: Ram, sk: SecretKey)
    requires InRange(x) && x.state == Idle
    ensures Inv(NextRegs(x, true, sk), ram.slots, ram.slots, sk)
  {
    hide PublicCoeff, WordAt;
  }

  /** What a command leaves behind. */
  ghost predicate KeyRead(x: Regs, was: Slots, slots: Slots, sk: SecretKey) {
    slots == Published(sk, was) && x.rho == sk[1536..1568] && x.hpk == sk[1568..1600] && x.z == sk[1600..1632]
  }

  lemma DoneMeans(x: Regs, was: Slots, slots: Slots, sk: SecretKey)
    requires Inv(x, was, slots, sk) && x.state == Done
    ensures KeyRead(x, was, slots, sk)
  {
    hide PublicPrefix, Published;
    PublicDone(slots, was, sk);
    assert forall i: nat :: i < 32 ==> x.rho[i] == sk[1536..1568][i] && x.hpk[i] == sk[1568..1600][i] && x.z[i] == sk[1600..1632][i];
  }

  // ---------------------------------------------------------------- the machine

  class PublicKeyController {
    var x: Regs

    ghost predicate Resting()
      reads this
    {
      x.state == Idle && InRange(x)
    }

    ghost predicate Working(was: Slots, ram: Ram, sk: SecretKey)
      reads this
    {
      x.state != Idle && Inv(x, was, ram.slots, sk)
    }

    predicate Done()
      reads this
    {
      x.state == State.Done
    }

    constructor (skQ: Word)
      ensures Resting()
    {
      x := Regs(Idle, 768, 0, 0, [0, 0, 0], Zeros(), Zeros(), Zeros(), skQ);
    }

    /** One rising edge of the controller, the key memory and the polynomial memory. */
    method Clock(start: bool, sk: SecretKey, ghost was: Slots, ram: Ram) returns (ram': Ram)
      requires Resting() || Working(was, ram, sk)
      modifies this
      ensures old(Resting()) ==> ram'.slots == ram.slots
      ensures old(Resting()) && !start ==> Resting() && x == old(x).(skQ := x.skQ)
      ensures old(Resting()) && start ==> Working(ram.slots, ram', sk) && Left(x) == 2337
      ensures !old(Resting()) ==> Left(x) == old(Left(x)) - 1 >= 0
      ensures !old(Resting()) && !old(Done()) ==> Working(was, ram', sk)
      ensures old(Done()) ==> Resting() && ram'.slots == ram.slots && KeyRead(x, was, ram'.slots, sk)
    {
      hide RamEdge, RamData, WordAt, PublicPrefix, Captured, Tail, Published;
      if x.state == Idle {
        if start { Begins(x, ram, sk); }
        RamUntouched(ram, RamAddr(x), RamData(x));
      } else {
        InvKept(x, was, ram, sk, start);
        LeftDown(x, was, ram.slots, sk, start);
        if x.state == State.Done {
          DoneMeans(x, was, ram.slots, sk);
          RamUntouched(ram, RamAddr(x), RamData(x));
        }
      }
      ram' := NextRam(x, ram);
      x := NextRegs(x, start, sk);
    }

    /** A whole command: the key in slots 0 and 1, and the three values behind it in their registers. */
    method Run(sk: SecretKey, ram: Ram) returns (out: Ram)
      requires Resting()
      modifies this
      ensures Resting() && KeyRead(x, ram.slots, out.slots, sk)
    {
      hide Inv, InRange, KeyRead;
      out := Clock(true, sk, ram.slots, ram);
      while x.state != Idle
        invariant if x.state == Idle then Resting() && KeyRead(x, ram.slots, out.slots, sk) else Working(ram.slots, out, sk)
        decreases Left(x)
      {
        out := Clock(false, sk, ram.slots, out);
      }
    }
  }
}
