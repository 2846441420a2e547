/** Polynomial addition and subtraction with canonical results, three memory cycles a coefficient. */
module AddSub {
  import opened ModQ
  import opened Ring
  import opened Kernel
  import opened PolyRam

  // ---------------------------------------------------------------- meaning

  datatype Command = Command(subtract: bool, srcA: Slot, srcB: Slot, dst: Slot)

  function Sum(subtract: bool, a: int, b: int): int { if subtract then a - b else a + b }

  /** Coefficient-wise sum or difference, reduced to 0..3328. */
  function AddSubPoly(subtract: bool, x: Poly, y: Poly): Poly {
    seq(256, i requires 0 <= i < 256 => Sum(subtract, x[i], y[i]) % 3329)
  }

  function Execute(c: Command, slots: Slots): Slots {
    slots[c.dst := AddSubPoly(c.subtract, slots[c.srcA], slots[c.srcB])]
  }

  // ---------------------------------------------------------------- registers

  datatype State = Idle | ReadA | ReadB | IssueWrite | Drain0 | Drain1 | FinalWrite | Done

  /** The three reduction stages, 18, 8 and 20 bits wide. */
  datatype Pipe = Pipe(sum: int, sumDelay: int, quotient: int, remainder: int)

  datatype Regs = Regs(state: State, index: Index, cmd: Command, left: int, pipe: Pipe)

  function Signed(x: int, half: nat): int
    requires half > 0
  {
    (x + half) % (2 * half) - half
  }

  /** The stages move every clock, whatever the state. */
  function PipeEdge(p: Pipe, a: int, b: int, subtract: bool): Pipe {
    Pipe(Signed(Sum(subtract, a, b), 131072), p.sum, Signed((20159 * p.sum + 33554432) / 67108864, 128),
         Signed(p.sumDelay - p.quotient * 3329, 524288))
  }

  function Canonical(p: Pipe): int { if p.remainder < 0 then p.remainder + 3329 else p.remainder }

  function RamWe(r: Regs): bool { (r.state == IssueWrite && r.index != 0) || r.state == FinalWrite }

  function RamSlot(r: Regs): Slot {
    if r.state == ReadA then r.cmd.srcA else if r.state == ReadB then r.cmd.srcB else r.cmd.dst
  }

  function RamIndex(r: Regs): Index {
    if r.state == ReadA || r.state == ReadB then r.index
    else if r.state == IssueWrite then (if r.index == 0 then 0 else r.index - 1)
    else 255
  }

  function NextRegs(r: Regs, start: bool, c: Command, q: int): Regs {
    var n := r.(pipe := PipeEdge(r.pipe, r.left, q, r.cmd.subtract));
    match r.state
    case Idle => if start then n.(cmd := c, index := 0, state := ReadA) else n
    case ReadA => n.(state := ReadB)
    case ReadB => n.(left := q, state := IssueWrite)
    case IssueWrite => if r.index == 255 then n.(state := Drain0) else n.(index := r.index + 1, state := ReadA)
    case Drain0 => n.(state := Drain1)
    case Drain1 => n.(state := FinalWrite)
    case FinalWrite => n.(state := Done)
    case Done => n.(state := Idle)
  }

  function NextRam(r: Regs, ram: Ram): Ram {
    RamEdgeAt(ram, RamWe(r), RamSlot(r), RamIndex(r), Canonical(r.pipe));
    RamEdge(ram, RamWe(r), Address(RamSlot(r), RamIndex(r)), Canonical(r.pipe))
  }

  // ---------------------------------------------------------------- the reduction is exact

  /** Three clocks through the stages take any two 16-bit words to the canonical residue. */
  lemma ReductionExact(s: int)
    requires -65536 <= s <= 65535
    ensures Signed(s, 131072) == s
    ensures Signed((20159 * s + 33554432) / 67108864, 128) == BarrettQuotient(s)
    ensures var rem := Signed(s - BarrettQuotient(s) * 3329, 524288);
      (if rem < 0 then rem + 3329 else rem) == s % 3329
  {
    BarrettExact(s);
    var rem := s - BarrettQuotient(s) * 3329;
    CongWitness(if rem < 0 then rem + 3329 else rem, s, if rem < 0 then 1 - BarrettQuotient(s) else -BarrettQuotient(s));
    CanonicalIsMod(if rem < 0 then rem + 3329 else rem, s);
  }

  // ---------------------------------------------------------------- what every register means

  ghost function SumAt(was: Slots, c: Command, i: Index): int {
    Sum(c.subtract, was[c.srcA][i], was[c.srcB][i])
  }

  ghost function Res(was: Slots, c: Command): Poly {
    AddSubPoly(c.subtract, was[c.srcA], was[c.srcB])
  }

  ghost predicate Sources(was: Slots, c: Command) { Words(was[c.srcA]) && Words(was[c.srcB]) }

  /** The pipeline after one, two or three clocks holds the reduction of sum s. */
  ghost predicate Stage(p: Pipe, depth: nat, s: int) {
    && (depth == 1 ==> p.sum == s)
    && (depth == 2 ==> p.sumDelay == s && p.quotient == BarrettQuotient(s))
    && (depth == 3 ==> Canonical(p) == s % 3329)
  }

  ghost predicate Inv(r: Regs, ram: Ram, was: Slots) {
    var c, i := r.cmd, r.index;
    r.state != Idle ==>
      && Sources(was, c)
      && ram.slots == was[c.dst := Mixed(was[c.dst], Res(was, c), Written(r))]
      && match r.state
         case ReadA => i > 0 ==> Stage(r.pipe, 1, SumAt(was, c, i - 1))
         case ReadB => ram.q == was[c.srcA][i] && (i > 0 ==> Stage(r.pipe, 2, SumAt(was, c, i - 1)))
         case IssueWrite =>
           r.left == was[c.srcA][i] && ram.q == was[c.srcB][i] && (i > 0 ==> Stage(r.pipe, 3, SumAt(was, c, i - 1)))
         case Drain0 => Stage(r.pipe, 1, SumAt(was, c, 255))
         case Drain1 => Stage(r.pipe, 2, SumAt(was, c, 255))
         case FinalWrite => Stage(r.pipe, 3, SumAt(was, c, 255))
         case _ => true
  }

  /** Words of the destination already written: always behind the words still to be read. */
  ghost function Written(r: Regs): nat {
    if r.state in {ReadA, ReadB, IssueWrite} then (if r.index == 0 then 0 else r.index - 1)
    else if r.state == Done then 256
    else 255
  }

  /** Clocks until idle. */
  function Left(r: Regs): nat {
    match r.state
    case Idle => 0
    case ReadA => 3 * (256 - r.index) + 4
    case ReadB => 3 * (256 - r.index) + 3
    case IssueWrite => 3 * (256 - r.index) + 2
    case Drain0 => 4
    case Drain1 => 3
    case FinalWrite => 2
    case Done => 1
  }

  lemma StageStep(p: Pipe, depth: nat, s: int, a: int, b: int, subtract: bool)
    requires Stage(p, depth, s) && 1 <= depth < 3 && -65536 <= s <= 65535
    ensures Stage(PipeEdge(p, a, b, subtract), depth + 1, s)
  {
    hide BarrettQuotient;
    ReductionExact(s);
  }

  lemma StageBegins(p: Pipe, a: int, b: int, subtract: bool)
    requires Is16(a) && Is16(b)
    ensures Stage(PipeEdge(p, a, b, subtract), 1, Sum(subtract, a, b))
  {
    ReductionExact(Sum(subtract, a, b));
  }

  /** A word not yet overwritten is still the original, even when the destination is a source. */
  lemma StillOriginal(was: Slots, dst: Slot, res: Poly, n: nat, src: Slot, i: Index)
    requires n <= i
    ensures was[dst := Mixed(was[dst], res, n)][src][i] == was[src][i]
  {
  }

  lemma InvKept(r: Regs, ram: Ram, was: Slots, start: bool, c: Command)
    requires Inv(r, ram, was) && r.state != Idle
    ensures Inv(NextRegs(r, start, c, ram.q), NextRam(r, ram), was)
    ensures Left(NextRegs(r, start, c, ram.q)) == Left(r) - 1
  {
    hide Mixed, RamEdge, Stage, PipeEdge, Canonical, BarrettQuotient, AddSubPoly;
    var d, i := r.cmd, r.index;
    var res := Res(was, d);
    RamEdgeAt(ram, RamWe(r), RamSlot(r), RamIndex(r), Canonical(r.pipe));
    match r.state {
    case ReadA =>
      StillOriginal(was, d.dst, res, Written(r), d.srcA, i);
      if i > 0 { SumRange(was, d, i - 1); StageStep(r.pipe, 1, SumAt(was, d, i - 1), r.left, ram.q, d.subtract); }
    case ReadB =>
      StillOriginal(was, d.dst, res, Written(r), d.srcB, i);
      if i > 0 { SumRange(was, d, i - 1); StageStep(r.pipe, 2, SumAt(was, d, i - 1), r.left, ram.q, d.subtract); }
    case IssueWrite =>
      StageBegins(r.pipe, r.left, ram.q, d.subtract);
      if i > 0 { ResultWord(r.pipe, was, d, i - 1); MixedWrite(was, d.dst, res, i - 1, Canonical(r.pipe)); }
    case Drain0 => SumRange(was, d, 255); StageStep(r.pipe, 1, SumAt(was, d, 255), r.left, ram.q, d.subtract);
    case Drain1 => SumRange(was, d, 255); StageStep(r.pipe, 2, SumAt(was, d, 255), r.left, ram.q, d.subtract);
    case FinalWrite => ResultWord(r.pipe, was, d, 255); MixedWrite(was, d.dst, res, 255, Canonical(r.pipe));
    case _ =>
    }
  }

  lemma SumRange(was: Slots, c: Command, i: Index)
    requires Sources(was, c)
    ensures -65536 <= SumAt(was, c, i) <= 65535
  {
  }

  lemma ResultWord(p: Pipe, was: Slots, c: Command, i: Index)
    requires Stage(p, 3, SumAt(was, c, i))
    ensures Canonical(p) == Res(was, c)[i]
  {
  }

  // ---------------------------------------------------------------- the machine

  class AddSubController {
    var r: Regs
    ghost var was: Slots

    ghost predicate Valid(ram: Ram)
      reads this
    {
      Inv(r, ram, was)
    }

    ghost predicate Resting()
      reads this
    {
      r.state == Idle
    }

    /** Command d, which found the slots w, is under way. */
    ghost predicate Working(d: Command, w: Slots, ram: Ram)
      reads this
    {
      r.state != Idle && r.cmd == d && was == w && Valid(ram)
    }

    predicate AtDone()
      reads this
    {
      r.state == Done
    }

    constructor (c0: Command, p0: Pipe)
      ensures Resting()
    {
      r := Regs(Idle, 0, c0, 0, p0);
    }

    /** One rising edge of the controller and the memory.  At the done pulse the destination slot
        holds the canonical sum or difference of the two slots found at the start, even when it is
        one of them, and every other slot is unchanged. */
    method Clock(start: bool, c: Command, ram: Ram) returns (ram': Ram)
      requires Valid(ram)
      requires r.state == Idle && start ==> Sources(ram.slots, c)
      modifies this
      ensures Valid(ram')
      ensures old(r.state) == Idle ==> ram'.slots == ram.slots && (start ==> r.cmd == c && was == ram.slots && Left(r) == 772)
      ensures old(r.state) == Idle && !start ==> r.state == Idle
      ensures old(r.state) != Idle ==> Left(r) == old(Left(r)) - 1 && r.cmd == old(r.cmd) && was == old(was)
      ensures r.state == Done ==> ram'.slots == Execute(r.cmd, was)
      ensures old(r.state) == Done ==> ram'.slots == ram.slots
    {
      hide Inv, Mixed, PipeEdge, Canonical, Sources;
      RamEdgeAt(ram, RamWe(r), RamSlot(r), RamIndex(r), Canonical(r.pipe));
      if r.state == Idle { was := ram.slots; Starts(NextRegs(r, start, c, ram.q), NextRam(r, ram), was); } else { InvKept(r, ram, was, start, c); }
      ram' := NextRam(r, ram);
      r := NextRegs(r, start, c, ram.q);
      DoneMeans(r, ram', was);
    }

    /** The same edge as an engine sees it, which knows the command under way. */
    method Step(start: bool, c: Command, ghost d: Command, ghost w: Slots, ram: Ram) returns (ram': Ram)
      requires Resting() || Working(d, w, ram)
      requires Resting() && start ==> Sources(ram.slots, c)
      modifies this
      ensures old(Resting()) ==> ram'.slots == ram.slots
      ensures old(Resting()) && !start ==> Resting()
      ensures old(Resting()) && start ==> Working(c, ram.slots, ram')
      ensures !old(Resting()) && !old(AtDone()) ==> Working(d, w, ram') && Left(r) < old(Left(r))
      ensures !old(Resting()) && old(AtDone()) ==> Resting() && ram'.slots == ram.slots == Execute(d, w)
    {
      hide Execute, Sources;
      DoneMeans(r, ram, was);
      hide Inv;
      ram' := Clock(start, c, ram);
    }

    method Run(c: Command, ram: Ram) returns (out: Ram)
      requires Resting() && Sources(ram.slots, c)
      modifies this
      ensures Resting() && out.slots == Execute(c, ram.slots)
    {
      assert Valid(ram);
      hide Inv, Execute, Sources;
      out := Clock(true, c, ram);
      while r.state != Idle
        invariant Valid(out) && r.cmd == c && was == ram.slots
        invariant r.state == Done || r.state == Idle ==> out.slots == Execute(c, ram.slots)
        decreases Left(r)
      {
        out := Clock(false, c, out);
      }
    }
  }

  lemma Starts(r: Regs, ram: Ram, was: Slots)
    requires r.state == Idle || (r.state == ReadA && r.index == 0 && ram.slots == was && Sources(was, r.cmd))
    ensures Inv(r, ram, was)
  {
    hide Mixed, AddSubPoly;
    MixedNone(was, r.cmd.dst, Res(was, r.cmd));
  }

  lemma DoneMeans(r: Regs, ram: Ram, was: Slots)
    requires Inv(r, ram, was)
    ensures r.state == Done ==> ram.slots == Execute(r.cmd, was)
  {
    if r.state == Done { assert Mixed(was[r.cmd.dst], Res(was, r.cmd), 256) == Res(was, r.cmd); }
  }
}
