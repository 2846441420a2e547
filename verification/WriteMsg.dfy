/** The controller that writes a message polynomial, one coefficient a clock. */
module WriteMsg {
  import opened Ring
  import opened PolyRam
  import opened Messages

  datatype State = Idle | Write | Done

  datatype Regs = Regs(state: State, index: Index, slot: Slot)

  function NextRegs(x: Regs, start: bool, dst: Slot): Regs {
    match x.state
    case Idle => if start then Regs(Write, 0, dst) else x
    case Write => if x.index == 255 then x.(state := Done) else x.(index := x.index + 1)
    case Done => x.(state := Idle)
  }

  function NextRam(x: Regs, m: Message, ram: Ram): Ram {
    RamEdgeAt(ram, x.state == Write, x.slot, x.index, BitPoly(m[x.index]));
    RamEdge(ram, x.state == Write, Address(x.slot, x.index), BitPoly(m[x.index]))
  }

  function Execute(m: Message, dst: Slot, slots: Slots): Slots { slots[dst := FromMessage(m)] }

  /** Words below the index are written. */
  ghost predicate Inv(x: Regs, m: Message, was: Slots, slots: Slots) {
    match x.state
    case Idle => true
    case Write => slots == was[x.slot := Mixed(was[x.slot], FromMessage(m), x.index)]
    case Done => slots == Execute(m, x.slot, was)
  }

  /** Clocks until idle. */
  function Left(x: Regs): nat {
    match x.state case Idle => 0 case Write => 257 - x.index case Done => 1
  }

  lemma InvKept(x: Regs, start: bool, m: Message, dst: Slot, was: Slots, ram: Ram)
    requires Inv(x, m, was, ram.slots) && x.state != Idle
    ensures var n := NextRegs(x, start, dst);
      && Inv(n, m, was, NextRam(x, m, ram).slots) && Left(n) == Left(x) - 1 && n.slot == x.slot
      && (x.state == Done ==> n.state == Idle && NextRam(x, m, ram).slots == ram.slots) && (n.state == Idle ==> x.state == Done)
  {
    hide RamEdge;
    RamEdgeAt(ram, x.state == Write, x.slot, x.index, BitPoly(m[x.index]));
    if x.state == Write { MixedWrite(was, x.slot, FromMessage(m), x.index, BitPoly(m[x.index])); }
  }

  class WriteMsgController {
    var x: Regs

    ghost predicate Resting()
      reads this
    {
      x.state == Idle
    }

    /** The command that found `was` is under way. */
    ghost predicate Working(m: Message, dst: Slot, was: Slots, ram: Ram)
      reads this
    {
      x.state != Idle && x.slot == dst && Inv(x, m, was, ram.slots)
    }

    predicate Done()
      reads this
    {
      x.state == State.Done
    }

    constructor ()
      ensures Resting()
    {
      x := Regs(Idle, 0, 0);
    }

    /** One rising edge of the controller and the polynomial memory.  The message input must not move
        while a command is under way. */
    method Clock(start: bool, m: Message, dst: Slot, ghost was: Slots, ram: Ram) returns (ram': Ram)
      requires Resting() || Working(m, x.slot, was, ram)
      modifies this
      ensures old(Resting()) ==> ram'.slots == ram.slots
      ensures old(Resting()) && !start ==> Resting()
      ensures old(Resting()) && start ==> Working(m, dst, ram.slots, ram') && Left(x) == 257
      ensures !old(Resting()) ==> Left(x) == old(Left(x)) - 1 && x.slot == old(x.slot)
      ensures !old(Resting()) && !old(Done()) ==> Working(m, x.slot, was, ram')
      ensures old(Done()) ==> Resting() && ram'.slots == ram.slots == Execute(m, old(x.slot), was)
    {
      hide Execute, RamEdge;
      RamEdgeAt(ram, x.state == Write, x.slot, x.index, BitPoly(m[x.index]));
      MixedNone(ram.slots, dst, FromMessage(m));
      if x.state != Idle { InvKept(x, start, m, dst, was, ram); }
      ram' := NextRam(x, m, ram);
      x := NextRegs(x, start, dst);
    }

    method Run(m: Message, dst: Slot, ram: Ram) returns (out: Ram)
      requires Resting()
      modifies this
      ensures Resting() && out.slots == Execute(m, dst, ram.slots)
    {
      hide Execute, Inv;
      out := Clock(true, m, dst, ram.slots, ram);
      while x.state != Idle
        invariant if x.state == Idle then out.slots == Execute(m, dst, ram.slots) else Working(m, dst, ram.slots, out)
        decreases Left(x)
      {
        out := Clock(false, m, dst, ram.slots, out);
      }
    }
  }
}
