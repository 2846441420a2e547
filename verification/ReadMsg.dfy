/** The controller that reads a message out of a polynomial, two clocks a coefficient. */
module ReadMsg {
  import opened Ring
  import opened PolyRam
  import opened Layout
  import opened Messages

  datatype State = Idle | Read | Wait | Done

  datatype Regs = Regs(state: State, index: Index, slot: Slot, message: Message)

  function Zeros(): Message { seq(256, _ => false) }

  function NextRegs(x: Regs, start: bool, src: Slot, q: int): Regs {
    match x.state
    case Idle => if start then Regs(Read, 0, src, Zeros()) else x
    case Read => x.(state := Wait)
    case Wait =>
      var y := x.(message := x.message[x.index := TopBit(U16(q))]);
      if x.index == 255 then y.(state := Done) else y.(index := x.index + 1, state := Read)
    case Done => x.(state := Idle)
  }

  function NextRam(x: Regs, ram: Ram): Ram {
    RamEdgeAt(ram, false, x.slot, x.index, 0);
    RamEdge(ram, false, Address(x.slot, x.index), 0)
  }

  /** Bits below the index are read; a word asked for has arrived. */
  ghost predicate Inv(x: Regs, ram: Ram) {
    var p := ram.slots[x.slot];
    match x.state
    case Idle => true
    case Read => forall i :: 0 <= i < x.index ==> x.message[i] == TopBit(U16(p[i]))
    case Wait => ram.q == p[x.index] && forall i :: 0 <= i < x.index ==> x.message[i] == TopBit(U16(p[i]))
    case Done => x.message == ToMessage(p)
  }

  /** Clocks until idle. */
  function Left(x: Regs): nat {
    match x.state case Idle => 0 case Read => 2 * (256 - x.index) + 1 case Wait => 2 * (256 - x.index) case Done => 1
  }

  lemma InvKept(x: Regs, start: bool, src: Slot, ram: Ram)
    requires Inv(x, ram) && x.state != Idle
    ensures var n := NextRegs(x, start, src, ram.q);
      && Inv(n, NextRam(x, ram)) && Left(n) == Left(x) - 1 && n.slot == x.slot
      && (x.state == Done ==> n.state == Idle && n.message == x.message) && (n.state == Idle ==> x.state == Done)
  {
    hide RamEdge, TopBit;
    RamEdgeAt(ram, false, x.slot, x.index, 0);
    var n := NextRegs(x, start, src, ram.q);
    if n.state == Done { assert n.message == ToMessage(ram.slots[x.slot]); }
  }

  class ReadMsgController {
    var x: Regs

    ghost predicate Resting()
      reads this
    {
      x.state == Idle
    }

    ghost predicate Working(src: Slot, ram: Ram)
      reads this
    {
      x.state != Idle && x.slot == src && Inv(x, ram)
    }

    predicate Done()
      reads this
    {
      x.state == State.Done
    }

    constructor ()
      ensures Resting()
    {
      x := Regs(Idle, 0, 0, Zeros());
    }

    /** One rising edge of the controller and the polynomial memory. */
    method Clock(start: bool, src: Slot, ram: Ram) returns (ram': Ram)
      requires Resting() || Working(x.slot, ram)
      modifies this
      ensures ram'.slots == ram.slots
      ensures old(Resting()) && !start ==> Resting() && x.message == old(x.message)
      ensures old(Resting()) && start ==> Working(src, ram') && Left(x) == 513
      ensures !old(Resting()) ==> Left(x) == old(Left(x)) - 1 && x.slot == old(x.slot)
      ensures !old(Resting()) && !old(Done()) ==> Working(x.slot, ram')
      ensures old(Done()) ==> Resting() && x.message == ToMessage(ram.slots[old(x.slot)])
    {
      hide RamEdge, ToMessage;
      RamEdgeAt(ram, false, x.slot, x.index, 0);
      if x.state != Idle { InvKept(x, start, src, ram); }
      ram' := NextRam(x, ram);
      x := NextRegs(x, start, src, ram.q);
    }

    method Run(src: Slot, ram: Ram) returns (message: Message, out: Ram)
      requires Resting()
      modifies this
      ensures Resting() && out.slots == ram.slots && message == x.message == ToMessage(ram.slots[src])
    {
      hide Inv, ToMessage;
      out := Clock(true, src, ram);
      while x.state != Idle
        invariant out.slots == ram.slots
        invariant if x.state == Idle then x.message == ToMessage(ram.slots[src]) else Working(src, out)
        decreases Left(x)
      {
        out := Clock(false, src, out);
      }
      message := x.message;
    }
  }
}
