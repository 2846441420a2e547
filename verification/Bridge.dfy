/** The controller that overlaps loading, computing and storing polynomial commands.

  While one half of the kernel's memories computes, the other half is emptied of the previous
  result and filled with the next operands.  A command's operands are therefore read before its
  immediate predecessor's result is stored, and after every earlier one's. */
module Bridge {
  import opened ModQ
  import opened Ring
  import opened Kernel
  import opened PolyRam
  import opened Accelerator

  // ---------------------------------------------------------------- what the commands mean

  /** 0 forward, 1 inverse, 2 BaseMul; slot numbers of the operands and of the result.  The unused
      code 3 loads no second operand and stores the first one back. */
  datatype Command = Command(op: Op, srcA: Slot, srcB: Slot, dst: Slot)

  type Op = n: nat | n < 4

  function Result(z: Zetas, op: Op, x: Poly, y: Poly): Poly {
    if op == 0 then NttCommand(z, x) else if op == 1 then InttCommand(z, x) else if op == 2 then BaseMulWords(z, x, y) else x
  }

  /** One command that reads its operands in `from` and leaves its result in `to`. */
  function Execute(z: Zetas, c: Command, from: Slots, to: Slots): Slots
  {
    to[c.dst := Result(z, c.op, from[c.srcA], from[c.srcB])]
  }

  /** Load, compute and store, one command at a time. */
  function Serial(z: Zetas, cmds: seq<Command>, slots: Slots): Slots
  {
    if cmds == [] then slots
    else
      var k := |cmds| - 1;
      var before := Serial(z, cmds[..k], slots);
      Execute(z, cmds[k], before, before)
  }

  /** The overlapped order: operands come from the memory without the predecessor's result. */
  function Overlapped(z: Zetas, cmds: seq<Command>, slots: Slots): Slots
  {
    if cmds == [] then slots
    else
      var k := |cmds| - 1;
      Execute(z, cmds[k], Overlapped(z, cmds[..if k == 0 then 0 else k - 1], slots), Overlapped(z, cmds[..k], slots))
  }

  predicate Reads(c: Command, slot: Slot) { c.srcA == slot || (c.op == 2 && c.srcB == slot) }

  predicate NoHazard(cmds: seq<Command>) {
    forall k :: 0 < k < |cmds| ==> !Reads(cmds[k], cmds[k - 1].dst)
  }

  /** Without a read of the immediate predecessor's destination, overlapping is invisible. */
  lemma {:induction false} OverlapInvisible(z: Zetas, cmds: seq<Command>, slots: Slots)
    requires NoHazard(cmds)
    ensures Overlapped(z, cmds, slots) == Serial(z, cmds, slots)
  {
    hide Result;
    if cmds != [] {
      var k := |cmds| - 1;
      OverlapInvisible(z, cmds[..k], slots);
      if k > 0 {
        var i := k - 1;
        assert cmds[..k][..i] == cmds[..i] && cmds[..k][i] == cmds[i];
        OverlapInvisible(z, cmds[..i], slots);
        assert !Reads(cmds[k], cmds[k - 1].dst);
        ExecuteElsewhere(z, cmds[i], cmds[k], Serial(z, cmds[..i], slots), Serial(z, cmds[..k], slots));
      }
    }
  }

  lemma ExecuteElsewhere(z: Zetas, c: Command, d: Command, early: Slots, late: Slots)
    requires late == Execute(z, c, early, early) && !Reads(d, c.dst)
    ensures Execute(z, d, early, late) == Execute(z, d, late, late)
  {
    hide NttCommand, InttCommand, BaseMulWords;
  }

  /** With such a read the second command works on the stale slot, through either operand. */
  lemma HazardReadsStale(z: Zetas, c: Command, d: Command, slots: Slots)
    requires Reads(d, c.dst)
    ensures var new' := Result(z, c.op, slots[c.srcA], slots[c.srcB]);
      && Overlapped(z, [c, d], slots)[d.dst] == Result(z, d.op, slots[d.srcA], slots[d.srcB])
      && Serial(z, [c, d], slots)[d.dst]
         == Result(z, d.op, if d.srcA == c.dst then new' else slots[d.srcA], if d.srcB == c.dst then new' else slots[d.srcB])
  {
    TwoCommands(z, c, d, slots);
  }

  lemma TwoCommands(z: Zetas, c: Command, d: Command, slots: Slots)
    ensures var one := Execute(z, c, slots, slots);
      Overlapped(z, [c, d], slots) == Execute(z, d, slots, one) && Serial(z, [c, d], slots) == Execute(z, d, one, one)
  {
    hide Execute;
    assert [c, d][..1] == [c] && [c, d][..0] == [] && [c][..0] == [];
    assert Serial(z, [], slots) == slots && Overlapped(z, [], slots) == slots;
    assert Serial(z, [c], slots) == Execute(z, c, slots, slots) && Overlapped(z, [c], slots) == Execute(z, c, slots, slots);
  }

  /** Two commands may be overlapped exactly when the second one's result is the same computed from the
      operands before the first one's result and from those after it. */
  lemma OverlapDecides(z: Zetas, c: Command, d: Command, slots: Slots)
    ensures var one := Execute(z, c, slots, slots);
      Overlapped(z, [c, d], slots) == Serial(z, [c, d], slots) <==>
        Result(z, d.op, slots[d.srcA], slots[d.srcB]) == Result(z, d.op, one[d.srcA], one[d.srcB])
  {
    hide Result;
    TwoCommands(z, c, d, slots);
    var one := Execute(z, c, slots, slots);
    assert Execute(z, d, slots, one)[d.dst] == Result(z, d.op, slots[d.srcA], slots[d.srcB]);
    assert Execute(z, d, one, one)[d.dst] == Result(z, d.op, one[d.srcA], one[d.srcB]);
  }

  /** The constant one. */
  function Unit(): Poly { ZeroPoly()[0 := 1] }

  function OneInSlotOne(): Slots {
    var zeros: Slots := seq(12, _ => ZeroPoly());
    zeros[1 := Unit()]
  }

  /** A transform of slot 0 into slot 1 followed by a transform of slot 1, with one in slot 1 and zero
      elsewhere: overlapped, the second transforms one; one at a time, it transforms zero. */
  lemma OverlapMatters(z: Zetas)
    requires GoodRom(z)
    ensures var cmds := [Command(0, 0, 0, 1), Command(0, 1, 0, 2)];
      Overlapped(z, cmds, OneInSlotOne()) != Serial(z, cmds, OneInSlotOne())
  {
    hide NttWords, GoodRom;
    ZeroTransforms(z, 7);
    OverlapDecides(z, Command(0, 0, 0, 1), Command(0, 1, 0, 2), OneInSlotOne());
    if NttCommand(z, Unit()) == NttCommand(z, ZeroPoly()) { TransformsDiffer(z, Unit(), ZeroPoly(), 0); }
  }

  lemma {:induction false} ZeroTransforms(z: Zetas, l: nat)
    requires l <= 7
    ensures NttWords(z, ZeroPoly(), l) == ZeroPoly()
  {
    hide NttCoeff;
    if l > 0 {
      ZeroTransforms(z, l - 1);
      forall a: nat | a < 256 ensures NttLayer(z, ZeroPoly(), l)[a] == ZeroPoly()[a] { ZeroCoeff(z, l, a); }
      assert NttLayer(z, ZeroPoly(), l) == ZeroPoly();
    }
  }

  lemma ZeroCoeff(z: Zetas, l: nat, a: nat)
    requires 1 <= l <= 7 && a < 256
    ensures NttCoeff(z, ZeroPoly(), l, a) == 0
  {
    hide FqMul, ZetaAt, Within, BlockOf, Base, Span, Blocks, Width;
    ZeroProduct(ZetaAt(z, l, a));
    ChildBlocks(l, BlockOf(l - 1, a));
    assert forall i :: 0 <= i < 256 ==> ZeroPoly()[i] == 0;
  }

  lemma ZeroProduct(zeta: int)
    ensures FqMul(0, zeta) == 0
  {
    assert 0 * zeta == 0;
  }

  /** Reduced polynomials with the same transform have the same residues. */
  lemma TransformsDiffer(z: Zetas, x: Poly, y: Poly, a: Index)
    requires GoodRom(z) && Bounded(x, 3328) && Bounded(y, 3328) && NttCommand(z, x) == NttCommand(z, y)
    ensures Cong(x[a], y[a])
  {
    hide NttWords, InttWords, GoodRom, Cong;
    ForwardInverse(z, x);
    ForwardInverse(z, y);
    var w := InttCommand(z, NttCommand(z, x));
    assert Cong(w[a], Scaled(R, x)[a]) && Cong(w[a], Scaled(R, y)[a]);
    Backwards(w[a], R * x[a]);
    CongTrans(R * x[a], w[a], R * y[a]);
    CancelR(x[a], y[a]);
  }

  lemma Backwards(a: int, b: int)
    requires Cong(a, b)
    ensures Cong(b, a)
  {
  }

  // ---------------------------------------------------------------- registers

  datatype State = Idle | LdA | LdADrain | LdB | LdBDrain | LdDone | Go | CoreGo | OvWait | St | StDrain | Flip | Done

  /** Commands in flight: queued, loaded and waiting, in the kernel, and waiting to be stored. */
  datatype Queue = Queue(
    pend: bool, pendCmd: Command,
    ld: bool, ldCmd: Op, ldSd: Slot,
    run: bool, cmd: Op, sd: Slot,
    stq: bool, stCmd: Op, stSd: Slot)

  datatype Regs = Regs(state: State, index: Index, pipeIndex: Index, pipeValid: bool, sel: bool, coreFin: bool, q: Queue)

  predicate Ready(r: Regs, coreDone: bool) {
    !r.q.pend && !r.q.ld && (r.state == State.Idle || (r.q.run && !r.coreFin && !coreDone && r.state != Flip))
  }

  predicate Busy(r: Regs) { r.state != State.Idle || r.q.pend }

  predicate Loading(s: State) { s in {LdA, LdADrain, LdB, LdBDrain} }

  predicate Storing(s: State) { s in {St, StDrain} }

  function StoreBank(q: Queue): nat { if q.stCmd == 2 then 2 else 0 }

  /** The kernel's host port. */
  function HostPort(r: Regs, ramQ: int): Host {
    Host(r.pipeValid && Loading(r.state),
         if r.state in {LdB, LdBDrain} then 1 else if Storing(r.state) then StoreBank(r.q) else 0,
         if Storing(r.state) then r.index else r.pipeIndex,
         ramQ)
  }

  function RamWe(r: Regs): bool { r.pipeValid && Storing(r.state) }

  function RamAddr(r: Regs): nat {
    if r.state == LdA then Address(r.q.pendCmd.srcA, r.index)
    else if r.state == LdB then Address(r.q.pendCmd.srcB, r.index)
    else if Storing(r.state) then Address(r.q.stSd, r.pipeIndex)
    else 0
  }

  function Stream(r: Regs, drained: State): Regs {
    var n := r.(pipeValid := true, pipeIndex := r.index);
    if r.index == 255 then n.(state := drained) else n.(index := r.index + 1)
  }

  function Restarted(r: Regs, next: State): Regs {
    r.(index := 0, pipeIndex := 0, pipeValid := false, state := next)
  }

  /** Accepting a command happens in every state. */
  function Accepted(r: Regs, start: bool, c: Command, coreDone: bool): Queue {
    if start && Ready(r, coreDone) then r.q.(pend := true, pendCmd := c) else r.q
  }

  function MoveQueue(s: State, q: Queue): Queue {
    match s
    case LdDone => q.(ld := true, ldCmd := q.pendCmd.op, ldSd := q.pendCmd.dst, pend := false)
    case Go => q.(cmd := q.ldCmd, sd := q.ldSd, run := true, ld := false, stq := q.run, stCmd := q.cmd, stSd := q.sd)
    case StDrain => q.(stq := false)
    case Flip => q.(stq := true, stCmd := q.cmd, stSd := q.sd, run := false)
    case _ => q
  }

  function MoveState(r: Regs): Regs {
    match r.state
    case Idle => if r.q.pend then Restarted(r, LdA) else r
    case LdA => Stream(r, LdADrain)
    case LdADrain => r.(pipeValid := false, index := 0, state := if r.q.pendCmd.op == 2 then LdB else LdDone)
    case LdB => Stream(r, LdBDrain)
    case LdBDrain => r.(pipeValid := false, index := 0, state := LdDone)
    case LdDone => r.(state := if r.q.run then OvWait else Go)
    case Go => Restarted(r.(sel := !r.sel), CoreGo)
    case CoreGo => r.(state := if r.q.stq then St else OvWait)
    case St => Stream(r, StDrain)
    case StDrain => r.(pipeValid := false, index := 0, state := if r.q.run then OvWait else Done)
    case OvWait =>
      if r.q.pend && !r.q.ld then Restarted(r, LdA)
      else if r.coreFin then r.(state := if r.q.ld then Go else Flip)
      else r
    case Flip => Restarted(r.(sel := !r.sel), St)
    case Done => r.(state := State.Idle)
  }

  function NextRegs(r: Regs, start: bool, c: Command, coreDone: bool): Regs {
    MoveState(r).(coreFin := r.state != Go && (r.coreFin || coreDone),
                  q := MoveQueue(r.state, Accepted(r, start, c, coreDone)))
  }

  // ---------------------------------------------------------------- what every register means

  /** The commands accepted since the bridge was last idle, the memory it had then, and how many
      results have been stored. */
  datatype Batch = Batch(origin: Slots, cmds: seq<Command>, stored: nat)

  /** Memory with the first k results stored. */
  ghost function After(z: Zetas, b: Batch, k: nat): Slots
    requires k <= |b.cmds|
  {
    Overlapped(z, b.cmds[..k], b.origin)
  }

  /** Memory command k reads its operands from. */
  ghost function Source(z: Zetas, b: Batch, k: nat): Slots
    requires k < |b.cmds|
  {
    After(z, b, if k == 0 then 0 else k - 1)
  }

  ghost function OpA(z: Zetas, b: Batch, k: nat): Poly
    requires k < |b.cmds|
  {
    Source(z, b, k)[b.cmds[k].srcA]
  }

  ghost function OpB(z: Zetas, b: Batch, k: nat): Poly
    requires k < |b.cmds|
  {
    Source(z, b, k)[b.cmds[k].srcB]
  }

  ghost function ResultOf(z: Zetas, b: Batch, k: nat): Poly
    requires k < |b.cmds|
  {
    Result(z, b.cmds[k].op, OpA(z, b, k), OpB(z, b, k))
  }

  lemma AfterStep(z: Zetas, b: Batch, k: nat)
    requires k < |b.cmds|
    ensures After(z, b, k + 1) == After(z, b, k)[b.cmds[k].dst := ResultOf(z, b, k)]
  {
    hide Result;
    assert b.cmds[..k + 1][..k] == b.cmds[..k];
    if k > 0 { assert b.cmds[..k + 1][..k - 1] == b.cmds[..k - 1]; }
    assert b.cmds[..k + 1][..0] == b.cmds[..0];
  }

  /** Accepting one more command changes nothing about the earlier ones. */
  lemma Appended(z: Zetas, b: Batch, c: Command, k: nat)
    requires k <= |b.cmds|
    ensures After(z, b.(cmds := b.cmds + [c]), k) == After(z, b, k)
    ensures k < |b.cmds| ==>
      var b' := b.(cmds := b.cmds + [c]);
      && b'.cmds[k] == b.cmds[k] && OpA(z, b', k) == OpA(z, b, k) && OpB(z, b', k) == OpB(z, b, k)
      && ResultOf(z, b', k) == ResultOf(z, b, k)
  {
    hide Overlapped, Result;
    assert (b.cmds + [c])[..k] == b.cmds[..k];
    var j := if k == 0 then 0 else k - 1;
    assert (b.cmds + [c])[..j] == b.cmds[..j];
  }

  // positions of the commands in flight: stored, then waiting to be stored, running, loaded, queued
  ghost function RunAt(q: Queue, b: Batch): nat { b.stored + (if q.stq then 1 else 0) }
  ghost function LdAt(q: Queue, b: Batch): nat { RunAt(q, b) + (if q.run then 1 else 0) }
  ghost function PendAt(q: Queue, b: Batch): nat { LdAt(q, b) + (if q.ld then 1 else 0) }

  ghost predicate Positions(q: Queue, b: Batch) {
    && |b.cmds| == PendAt(q, b) + (if q.pend then 1 else 0)
    && (q.pend ==> q.pendCmd == b.cmds[PendAt(q, b)])
    && (q.ld ==> q.ldCmd == b.cmds[LdAt(q, b)].op && q.ldSd == b.cmds[LdAt(q, b)].dst)
    && (q.run ==> q.cmd == b.cmds[RunAt(q, b)].op && q.sd == b.cmds[RunAt(q, b)].dst)
    && (q.stq ==> q.stCmd == b.cmds[b.stored].op && q.stSd == b.cmds[b.stored].dst)
  }

  ghost predicate StateFlags(r: Regs, stored: nat) {
    var q := r.q;
    match r.state
    case Idle => !q.ld && !q.run && !q.stq && stored == 0
    case LdDone => q.pend && !q.ld && !q.stq && (!q.run ==> stored == 0)
    case Go => q.ld && !q.stq && (q.run ==> r.coreFin)
    case CoreGo => q.run && !q.ld && !q.pend && !r.coreFin && !r.pipeValid && r.index == 0
    case OvWait => q.run && !q.stq
    case St => q.stq && !q.ld && (!q.run ==> !q.pend)
    case StDrain => q.stq && !q.ld && r.pipeValid && (!q.run ==> !q.pend)
    case Flip => q.run && !q.ld && !q.pend && !q.stq && r.coreFin
    case Done => !q.pend && !q.ld && !q.run && !q.stq
    case _ => q.pend && !q.ld && !q.stq && (!q.run ==> stored == 0)   // the four load states
  }

  ghost predicate Flags(r: Regs, b: Batch) {
    !(r.q.ld && r.q.pend) && StateFlags(r, b.stored)
  }

  ghost predicate Loaded(z: Zetas, h: Half, b: Batch, k: nat)
    requires k < |b.cmds|
  {
    h.a == OpA(z, b, k) && (b.cmds[k].op == 2 ==> h.b == OpB(z, b, k))
  }

  function ResultBank(h: Half, op: Op): Poly { if op == 2 then h.r else h.a }

  ghost predicate Computed(z: Zetas, h: Half, b: Batch, k: nat)
    requires k < |b.cmds|
  {
    ResultBank(h, b.cmds[k].op) == ResultOf(z, b, k)
  }

  /** What the bridge sees of its kernel: busy and done flags, memories, and the job it runs. */
  datatype Core = Core(busy: bool, done: bool, mem: Memory, command: nat, found: Half)

  ghost predicate KernelPart(z: Zetas, r: Regs, b: Batch, k: Core)
    requires Positions(r.q, b)
  {
    if !r.q.run then !k.busy && !k.done
    else if r.state == CoreGo then !k.busy && !k.done && Loaded(z, HalfOf(k.mem, r.sel), b, RunAt(r.q, b))
    else if k.busy then
      && !k.done && !r.coreFin && k.mem.setQ == r.sel && k.command == r.q.cmd && Loaded(z, k.found, b, RunAt(r.q, b))
    else k.done == !r.coreFin && Computed(z, HalfOf(k.mem, r.sel), b, RunAt(r.q, b))
  }

  /** Words that have arrived in the half being filled. */
  ghost predicate Filled(f: Poly, x: Poly, n: nat) {
    forall i: nat :: i < n && i < 256 ==> f[i] == x[i]
  }

  /** One word is on its way from the source x: pipeIndex names it, q is its value. */
  ghost predicate Streaming(r: Regs, x: Poly, q: int, f: Poly, drained: bool) {
    if r.pipeValid then
      && (if drained then r.pipeIndex == 255 else r.index == r.pipeIndex + 1)
      && q == x[r.pipeIndex] && Filled(f, x, r.pipeIndex)
    else !drained && r.index == 0
  }

  ghost predicate LoadPart(z: Zetas, r: Regs, b: Batch, h: Half, q: int)
    requires Positions(r.q, b) && Flags(r, b)
  {
    var n := PendAt(r.q, b);
    && (r.q.ld ==> Loaded(z, h, b, LdAt(r.q, b)))
    && match r.state {
         case LdA => Streaming(r, OpA(z, b, n), q, h.a, false)
         case LdADrain => Streaming(r, OpA(z, b, n), q, h.a, true)
         case LdB => h.a == OpA(z, b, n) && r.q.pendCmd.op == 2 && Streaming(r, OpB(z, b, n), q, h.b, false)
         case LdBDrain => h.a == OpA(z, b, n) && Streaming(r, OpB(z, b, n), q, h.b, true)
         case LdDone => Loaded(z, h, b, n)
         case _ => true
       }
  }

  /** One word is on its way to the destination slot; those before it have arrived. */
  ghost predicate Flowing(r: Regs, res: Poly, word: int, was: Slots, slots: Slots) {
    var sd := r.q.stSd;
    && slots == was[sd := Mixed(was[sd], res, if r.pipeValid then r.pipeIndex else 0)]
    && (if r.pipeValid then
          (if r.state == St then r.index == r.pipeIndex + 1 else r.pipeIndex == 255) && word == res[r.pipeIndex]
        else r.state == St && r.index == 0)
  }

  ghost predicate StorePart(z: Zetas, r: Regs, b: Batch, mem: Memory, slots: Slots)
    requires Positions(r.q, b) && Flags(r, b)
  {
    && (r.q.stq ==> Computed(z, HalfOf(mem, !r.sel), b, b.stored))
    && (if Storing(r.state) then
          Flowing(r, ResultOf(z, b, b.stored), HostData(mem, StoreBank(r.q)), After(z, b, b.stored), slots)
        else slots == After(z, b, b.stored))
  }

  ghost predicate Inv(z: Zetas, r: Regs, b: Batch, k: Core, ram: Ram) {
    && Positions(r.q, b) && Flags(r, b)
    && KernelPart(z, r, b, k) && LoadPart(z, r, b, HalfOf(k.mem, !r.sel), ram.q) && StorePart(z, r, b, k.mem, ram.slots)
  }

  /** One clock of the kernel, as its own contract states it. */
  ghost predicate CoreEdge(z: Zetas, k: Core, start: bool, command: nat, sel: bool, h: Host, k': Core)
    requires h.Ok()
  {
    && HostServed(k.mem, k'.mem, sel, h)
    && (!k.busy && !start ==> !k'.busy && !k'.done && HalfOf(k'.mem, sel) == HalfOf(k.mem, sel))
    && (!k.busy && start ==> k'.busy && !k'.done && k'.command == command && k'.found == HalfOf(k.mem, sel))
    && (k.busy ==>
          && k'.command == k.command && k'.found == k.found && k'.done == !k'.busy
          && (k'.done ==> HalfOf(k'.mem, sel) == Executed(z, k.command, k.found)))
  }

  /** The batch with a command that is being accepted. */
  ghost function Grown(r: Regs, b: Batch, start: bool, c: Command, coreDone: bool): Batch {
    b.(cmds := if start && Ready(r, coreDone) then b.cmds + [c] else b.cmds)
  }

  ghost function NextBatch(r: Regs, b: Batch, start: bool, c: Command, coreDone: bool, slots: Slots): Batch {
    if r.state == Done then Batch(slots, [], 0)
    else
      var g := Grown(r, b, start, c, coreDone);
      g.(stored := if r.state == StDrain then g.stored + 1 else g.stored)
  }

  // ---------------------------------------------------------------- registers keep their meaning

  /** The kernel only reports while a command runs whose report is still awaited. */
  ghost predicate DonePossible(r: Regs, coreDone: bool) {
    coreDone ==> r.q.run && !r.coreFin && r.state != CoreGo
  }

  lemma FlagsKept(r: Regs, b: Batch, start: bool, c: Command, coreDone: bool, slots: Slots)
    requires Positions(r.q, b) && Flags(r, b) && DonePossible(r, coreDone)
    ensures Flags(NextRegs(r, start, c, coreDone), NextBatch(r, b, start, c, coreDone, slots))
  {
    hide Positions;
  }

  lemma PositionsMove(s: State, q: Queue, b: Batch)
    requires Positions(q, b)
    requires match s { case LdDone => q.pend && !q.ld case Go => q.ld && !q.stq case StDrain => q.stq case Flip => !q.stq && q.run case _ => true }
    ensures Positions(MoveQueue(s, q), b.(stored := if s == StDrain then b.stored + 1 else b.stored))
  {
  }

  lemma PositionsKept(r: Regs, b: Batch, start: bool, c: Command, coreDone: bool, slots: Slots)
    requires Positions(r.q, b) && Flags(r, b) && DonePossible(r, coreDone)
    ensures Positions(Accepted(r, start, c, coreDone), Grown(r, b, start, c, coreDone))
    ensures Positions(NextRegs(r, start, c, coreDone).q, NextBatch(r, b, start, c, coreDone, slots))
  {
    hide MoveState;
    PositionsMove(r.state, Accepted(r, start, c, coreDone), Grown(r, b, start, c, coreDone));
  }

  /** The batch only grows until it is done, so operands and results keep their values. */
  lemma ValuesKept(z: Zetas, r: Regs, b: Batch, start: bool, c: Command, coreDone: bool, slots: Slots, k: nat)
    requires k <= |b.cmds| && r.state != Done
    ensures var b' := NextBatch(r, b, start, c, coreDone, slots);
      && |b.cmds| <= |b'.cmds| && After(z, b', k) == After(z, b, k)
      && (k < |b.cmds| ==>
            && b'.cmds[k] == b.cmds[k] && OpA(z, b', k) == OpA(z, b, k) && OpB(z, b', k) == OpB(z, b, k)
            && ResultOf(z, b', k) == ResultOf(z, b, k))
  {
    hide Overlapped, Result;
    Appended(z, b, c, k);
  }

  lemma ExecutedResult(z: Zetas, b: Batch, k: nat, found: Half)
    requires k < |b.cmds| && Loaded(z, found, b, k)
    ensures ResultBank(Executed(z, b.cmds[k].op, found), b.cmds[k].op) == ResultOf(z, b, k)
  {
    hide OpA, OpB, NttCommand, InttCommand, BaseMulWords;
  }

  /** Batch b' gives position k the values batch b gives it. */
  ghost predicate SameAt(z: Zetas, b: Batch, b': Batch, k: nat) {
    && k < |b.cmds| <= |b'.cmds|
    && b'.cmds[k] == b.cmds[k] && OpA(z, b', k) == OpA(z, b, k) && OpB(z, b', k) == OpB(z, b, k)
    && ResultOf(z, b', k) == ResultOf(z, b, k)
  }

  lemma KernelLaunched(z: Zetas, r: Regs, b: Batch, k: Core, h: Host, r': Regs, b': Batch, k': Core)
    requires Positions(r.q, b) && Flags(r, b) && KernelPart(z, r, b, k) && Positions(r'.q, b') && h.Ok()
    requires r.state == Go || r.state == CoreGo
    requires r.state == Go ==>
      && Loaded(z, HalfOf(k.mem, !r.sel), b, LdAt(r.q, b)) && !h.we
      && r'.state == CoreGo && r'.sel == !r.sel && r'.q.run && RunAt(r'.q, b') == LdAt(r.q, b)
    requires r.state == CoreGo ==>
      r'.state != CoreGo && r'.sel == r.sel && !r'.coreFin && r'.q.run && r'.q.cmd == r.q.cmd && RunAt(r'.q, b') == RunAt(r.q, b)
    requires SameAt(z, b, b', RunAt(r'.q, b'))
    requires CoreEdge(z, k, r.state == CoreGo, r.q.cmd, r.sel, h, k')
    ensures KernelPart(z, r', b', k')
  {
    hide Overlapped, OpA, OpB, ResultOf, HalfOf, HostData, HostWord, Executed, Positions;
  }

  lemma KernelRuns(z: Zetas, r: Regs, b: Batch, k: Core, h: Host, r': Regs, b': Batch, k': Core)
    requires Positions(r.q, b) && KernelPart(z, r, b, k) && Positions(r'.q, b') && h.Ok()
    requires r.q.run && r.state != CoreGo && r'.state != CoreGo
    requires r'.sel == r.sel && r'.coreFin == (r.coreFin || k.done) && r'.q.run && r'.q.cmd == r.q.cmd && RunAt(r'.q, b') == RunAt(r.q, b)
    requires SameAt(z, b, b', RunAt(r'.q, b'))
    requires CoreEdge(z, k, false, r.q.cmd, r.sel, h, k')
    ensures KernelPart(z, r', b', k')
  {
    hide Overlapped, OpA, OpB, ResultOf, HalfOf, HostData, HostWord, Executed;
    if k.busy { ExecutedResult(z, b, RunAt(r.q, b), k.found); }
  }

  lemma Placed(q: Queue, b: Batch)
    requires Positions(q, b)
    ensures q.run ==> RunAt(q, b) < |b.cmds|
    ensures q.ld ==> LdAt(q, b) < |b.cmds|
    ensures q.pend ==> PendAt(q, b) < |b.cmds|
    ensures q.stq ==> b.stored < |b.cmds|
    ensures b.stored <= |b.cmds|
  {
  }

  lemma KernelKept(z: Zetas, r: Regs, b: Batch, k: Core, q: int, start: bool, c: Command, slots: Slots, k': Core)
    requires Positions(r.q, b) && Flags(r, b) && KernelPart(z, r, b, k)
    requires r.state == Go ==> Loaded(z, HalfOf(k.mem, !r.sel), b, LdAt(r.q, b))
    requires CoreEdge(z, k, r.state == CoreGo, r.q.cmd, r.sel, HostPort(r, q), k')
    ensures var r' := NextRegs(r, start, c, k.done); var b' := NextBatch(r, b, start, c, k.done, slots);
      Positions(r'.q, b') && KernelPart(z, r', b', k')
  {
    hide Overlapped, OpA, OpB, ResultOf, HalfOf, HostServed, Loaded, Computed, Positions, Executed, Ready;
    PositionsKept(r, b, start, c, k.done, slots);
    Placed(r.q, b);
    var r', b' := NextRegs(r, start, c, k.done), NextBatch(r, b, start, c, k.done, slots);
    if r.state == Go || r.state == CoreGo {
      ValuesKept(z, r, b, start, c, k.done, slots, if r.state == Go then LdAt(r.q, b) else RunAt(r.q, b));
      KernelLaunched(z, r, b, k, HostPort(r, q), r', b', k');
    } else if r.q.run && r.state != Flip {
      ValuesKept(z, r, b, start, c, k.done, slots, RunAt(r.q, b));
      KernelRuns(z, r, b, k, HostPort(r, q), r', b', k');
    }
  }

  // ---------------------------------------------------------------- operands arrive

  lemma StreamStep(r: Regs, drained: State, x: Poly, q: int, f: Poly, q': int, f': Poly)
    requires Streaming(r, x, q, f, false)
    requires f' == (if r.pipeValid then f[r.pipeIndex := q] else f) && q' == x[r.index]
    ensures Streaming(Stream(r, drained), x, q', f', r.index == 255)
  {
  }

  lemma DrainStep(r: Regs, x: Poly, q: int, f: Poly)
    requires Streaming(r, x, q, f, true)
    ensures r.pipeValid && f[r.pipeIndex := q] == x
  {
  }

  /** What loading needs of the memory: the queued command's operands are in place. */
  lemma OperandsInPlace(z: Zetas, r: Regs, b: Batch, slots: Slots)
    requires Positions(r.q, b) && Flags(r, b) && Loading(r.state) && slots == After(z, b, b.stored)
    ensures PendAt(r.q, b) < |b.cmds| && b.cmds[PendAt(r.q, b)] == r.q.pendCmd
    ensures OpA(z, b, PendAt(r.q, b)) == slots[r.q.pendCmd.srcA] && OpB(z, b, PendAt(r.q, b)) == slots[r.q.pendCmd.srcB]
  {
    hide Overlapped;
  }

  lemma LoadStep(z: Zetas, r: Regs, b: Batch, h: Half, ram: Ram, word: int, r': Regs, b': Batch, ram': Ram)
    requires Positions(r.q, b) && Flags(r, b) && LoadPart(z, r, b, h, ram.q) && Loading(r.state)
    requires ram.slots == After(z, b, b.stored)
    requires RamAddr(r) < 3072 && ram' == RamEdge(ram, RamWe(r), RamAddr(r), word)
    requires r'.q == r.q && r' == MoveState(r).(coreFin := r'.coreFin, q := r.q)
    requires Positions(r'.q, b') && Flags(r', b') && PendAt(r'.q, b') == PendAt(r.q, b)
    requires SameAt(z, b, b', PendAt(r.q, b))
    ensures LoadPart(z, r', b', HostWritten(h, HostPort(r, ram.q)), ram'.q)
  {
    hide Overlapped, OpA, OpB, ResultOf, Positions, Filled, RamEdge;
    var x, y := OpA(z, b, PendAt(r.q, b)), OpB(z, b, PendAt(r.q, b));
    OperandsInPlace(z, r, b, ram.slots);
    match r.state {
    case LdA =>
      RamEdgeAt(ram, false, r.q.pendCmd.srcA, r.index, word);
      StreamStep(r, LdADrain, x, ram.q, h.a, ram'.q, HostWritten(h, HostPort(r, ram.q)).a);
    case LdADrain => DrainStep(r, x, ram.q, h.a);
    case LdB =>
      RamEdgeAt(ram, false, r.q.pendCmd.srcB, r.index, word);
      StreamStep(r, LdBDrain, y, ram.q, h.b, ram'.q, HostWritten(h, HostPort(r, ram.q)).b);
    case LdBDrain => DrainStep(r, y, ram.q, h.b);
    }
  }

  lemma LoadKept(z: Zetas, r: Regs, b: Batch, h: Half, ram: Ram, word: int, start: bool, c: Command, coreDone: bool, h': Half, ram': Ram)
    requires Positions(r.q, b) && Flags(r, b) && DonePossible(r, coreDone) && LoadPart(z, r, b, h, ram.q)
    requires !Storing(r.state) ==> ram.slots == After(z, b, b.stored)
    requires RamAddr(r) < 3072 && ram' == RamEdge(ram, RamWe(r), RamAddr(r), word)
    requires r.state != Go && r.state != Flip ==> h' == HostWritten(h, HostPort(r, ram.q))
    ensures var r' := NextRegs(r, start, c, coreDone); var b' := NextBatch(r, b, start, c, coreDone, ram.slots);
      Positions(r'.q, b') && Flags(r', b') && LoadPart(z, r', b', h', ram'.q)
  {
    hide Overlapped, OpA, OpB, ResultOf, Positions, Filled, RamEdge, Loaded, HostWritten;
    PositionsKept(r, b, start, c, coreDone, ram.slots);
    FlagsKept(r, b, start, c, coreDone, ram.slots);
    var r', b' := NextRegs(r, start, c, coreDone), NextBatch(r, b, start, c, coreDone, ram.slots);
    if Loading(r.state) {
      OperandsInPlace(z, r, b, ram.slots);
      ValuesKept(z, r, b, start, c, coreDone, ram.slots, PendAt(r.q, b));
      LoadStep(z, r, b, h, ram, word, r', b', ram');
    } else if r.state != Go && r.state != Flip && r.state != Done {
      LoadHeld(z, r, b, h, ram, start, c, coreDone, h', ram'.q);
    }
  }

  /** Outside the load states the loaded operands stay where they are. */
  lemma LoadHeld(z: Zetas, r: Regs, b: Batch, h: Half, ram: Ram, start: bool, c: Command, coreDone: bool, h': Half, q': int)
    requires Positions(r.q, b) && Flags(r, b) && DonePossible(r, coreDone) && LoadPart(z, r, b, h, ram.q)
    requires !Loading(r.state) && r.state != Go && r.state != Flip && r.state != Done
    requires h' == HostWritten(h, HostPort(r, ram.q))
    ensures var r' := NextRegs(r, start, c, coreDone); var b' := NextBatch(r, b, start, c, coreDone, ram.slots);
      Positions(r'.q, b') && Flags(r', b') && LoadPart(z, r', b', h', q')
  {
    hide Overlapped, OpA, OpB, ResultOf, Positions, Filled, Ready;
    PositionsKept(r, b, start, c, coreDone, ram.slots);
    FlagsKept(r, b, start, c, coreDone, ram.slots);
    Placed(r.q, b);
    if r.q.ld { ValuesKept(z, r, b, start, c, coreDone, ram.slots, LdAt(r.q, b)); }
    if r.q.pend { ValuesKept(z, r, b, start, c, coreDone, ram.slots, PendAt(r.q, b)); }
  }

  // ---------------------------------------------------------------- results leave

  lemma FlowBegins(r: Regs, res: Poly, word: int, was: Slots)
    requires r.state == St && !r.pipeValid && r.index == 0
    ensures Flowing(r, res, word, was, was)
  {
    MixedNone(was, r.q.stSd, res);
  }

  /** One store clock on the memory. */
  lemma FlowStep(r: Regs, res: Poly, word: int, was: Slots, ram: Ram, ram': Ram, next: int)
    requires Storing(r.state) && Flowing(r, res, word, was, ram.slots) && (r.state == StDrain ==> r.pipeValid)
    requires RamAddr(r) < 3072 && ram' == RamEdge(ram, RamWe(r), RamAddr(r), word) && next == res[r.index]
    ensures r.state == St ==> Flowing(Stream(r, StDrain), res, next, was, ram'.slots)
    ensures r.state == StDrain ==> ram'.slots == was[r.q.stSd := res]
  {
    hide RamEdge, Mixed;
    RamEdgeAt(ram, RamWe(r), r.q.stSd, r.pipeIndex, word);
    if r.pipeValid { MixedWrite(was, r.q.stSd, res, r.pipeIndex, word); } else { FlowBegins(r, res, word, was); }
  }

  lemma StoreStep(z: Zetas, r: Regs, b: Batch, mem: Memory, ram: Ram, start: bool, c: Command, coreDone: bool, mem': Memory, ram': Ram)
    requires Positions(r.q, b) && Flags(r, b) && DonePossible(r, coreDone) && StorePart(z, r, b, mem, ram.slots)
    requires Storing(r.state) && HostServed(mem, mem', r.sel, HostPort(r, ram.q))
    requires RamAddr(r) < 3072 && ram' == RamEdge(ram, RamWe(r), RamAddr(r), HostData(mem, StoreBank(r.q)))
    ensures var r' := NextRegs(r, start, c, coreDone); var b' := NextBatch(r, b, start, c, coreDone, ram.slots);
      Positions(r'.q, b') && Flags(r', b') && StorePart(z, r', b', mem', ram'.slots)
  {
    hide Overlapped, OpA, OpB, ResultOf, After, RamEdge, Mixed, HalfOf, HostData, Ready, Result, RamAddr, Positions;
    PositionsKept(r, b, start, c, coreDone, ram.slots);
    FlagsKept(r, b, start, c, coreDone, ram.slots);
    StoreBankAt(r.q, b);
    ValuesKept(z, r, b, start, c, coreDone, ram.slots, b.stored);
    var res := ResultOf(z, b, b.stored);
    FlowStep(r, res, HostData(mem, StoreBank(r.q)), After(z, b, b.stored), ram, ram', res[r.index]);
    if r.state == StDrain {
      var b' := NextBatch(r, b, start, c, coreDone, ram.slots);
      AfterStep(z, b', b.stored);
    }
  }

  lemma StoreBankAt(q: Queue, b: Batch)
    requires Positions(q, b) && q.stq
    ensures b.stored < |b.cmds| && q.stCmd == b.cmds[b.stored].op && q.stSd == b.cmds[b.stored].dst
  {
  }

  /** A flip, or the end of a batch: the half just computed becomes the half to store. */
  lemma StoreFlips(z: Zetas, r: Regs, b: Batch, ram: Ram, start: bool, c: Command, coreDone: bool, mem': Memory)
    requires Positions(r.q, b) && Flags(r, b) && DonePossible(r, coreDone) && r.state in {Go, Flip, Done}
    requires ram.slots == After(z, b, b.stored)
    requires r.q.run && r.state != Done ==> Computed(z, HalfOf(mem', r.sel), b, RunAt(r.q, b))
    ensures var r' := NextRegs(r, start, c, coreDone); var b' := NextBatch(r, b, start, c, coreDone, ram.slots);
      Positions(r'.q, b') && Flags(r', b') && StorePart(z, r', b', mem', ram.slots)
  {
    hide Overlapped, OpA, OpB, ResultOf, Mixed, HalfOf, HostData, Ready, Result, Flowing, Positions, After;
    PositionsKept(r, b, start, c, coreDone, ram.slots);
    FlagsKept(r, b, start, c, coreDone, ram.slots);
    var r', b' := NextRegs(r, start, c, coreDone), NextBatch(r, b, start, c, coreDone, ram.slots);
    Placed(r.q, b);
    if r.state == Done { AfterNone(z, ram.slots); } else { ValuesKept(z, r, b, start, c, coreDone, ram.slots, b.stored); }
    if r.state == Flip { FlowBegins(r', ResultOf(z, b', b'.stored), HostData(mem', StoreBank(r'.q)), ram.slots); }
  }

  /** Anywhere else the memory and the half waiting to be stored are left alone. */
  lemma StoreHeld(z: Zetas, r: Regs, b: Batch, mem: Memory, ram: Ram, start: bool, c: Command, coreDone: bool, mem': Memory)
    requires Positions(r.q, b) && Flags(r, b) && DonePossible(r, coreDone) && StorePart(z, r, b, mem, ram.slots)
    requires r.state !in {Go, Flip, Done} && !Storing(r.state)
    requires HostServed(mem, mem', r.sel, HostPort(r, ram.q))
    ensures var r' := NextRegs(r, start, c, coreDone); var b' := NextBatch(r, b, start, c, coreDone, ram.slots);
      Positions(r'.q, b') && Flags(r', b') && StorePart(z, r', b', mem', ram.slots)
  {
    hide Overlapped, OpA, OpB, ResultOf, Mixed, HalfOf, HostData, Ready, Result, Flowing, Positions, After, HostWord;
    PositionsKept(r, b, start, c, coreDone, ram.slots);
    FlagsKept(r, b, start, c, coreDone, ram.slots);
    var r', b' := NextRegs(r, start, c, coreDone), NextBatch(r, b, start, c, coreDone, ram.slots);
    Placed(r.q, b);
    ValuesKept(z, r, b, start, c, coreDone, ram.slots, b.stored);
    if r'.state == St { FlowBegins(r', ResultOf(z, b', b'.stored), HostData(mem', StoreBank(r'.q)), ram.slots); }
  }

  lemma StoreKept(z: Zetas, r: Regs, b: Batch, mem: Memory, ram: Ram, start: bool, c: Command, coreDone: bool, mem': Memory, ram': Ram)
    requires Positions(r.q, b) && Flags(r, b) && DonePossible(r, coreDone) && StorePart(z, r, b, mem, ram.slots)
    requires HostServed(mem, mem', r.sel, HostPort(r, ram.q))
    requires r.q.run && r.state in {Go, Flip} ==> Computed(z, HalfOf(mem', r.sel), b, RunAt(r.q, b))
    requires RamAddr(r) < 3072 && ram' == RamEdge(ram, RamWe(r), RamAddr(r), HostData(mem, StoreBank(r.q)))
    ensures var r' := NextRegs(r, start, c, coreDone); var b' := NextBatch(r, b, start, c, coreDone, ram.slots);
      Positions(r'.q, b') && Flags(r', b') && StorePart(z, r', b', mem', ram'.slots)
  {
    hide Overlapped, ResultOf, RamEdge, HostData, RamAddr, Positions, After, Flowing, NextBatch, NextRegs, HostServed, Computed;
    RamUntouched(ram, RamAddr(r), HostData(mem, StoreBank(r.q)));
    if Storing(r.state) { StoreStep(z, r, b, mem, ram, start, c, coreDone, mem', ram'); }
    else if r.state in {Go, Flip, Done} { StoreFlips(z, r, b, ram, start, c, coreDone, mem'); }
    else { StoreHeld(z, r, b, mem, ram, start, c, coreDone, mem'); }
  }

  lemma AfterNone(z: Zetas, slots: Slots)
    ensures After(z, Batch(slots, [], 0), 0) == slots
  {
  }

  // ---------------------------------------------------------------- one edge of everything

  lemma DoneIsPossible(z: Zetas, r: Regs, b: Batch, k: Core)
    requires Positions(r.q, b) && KernelPart(z, r, b, k)
    ensures DonePossible(r, k.done)
    ensures k.busy ==> r.sel == k.mem.setQ && r.state != CoreGo && r.q.run && !r.coreFin
    ensures r.q.run && r.state != CoreGo && !r.coreFin ==> k.busy || k.done
    ensures r.q.run && r.coreFin && r.state != CoreGo ==> Computed(z, HalfOf(k.mem, r.sel), b, RunAt(r.q, b))
  {
    hide Computed, HalfOf, Loaded, Positions;
  }

  lemma Addressed(r: Regs)
    ensures RamAddr(r) < 3072
  {
  }

  lemma SlotsBetweenStores(z: Zetas, r: Regs, b: Batch, mem: Memory, slots: Slots)
    requires Positions(r.q, b) && Flags(r, b) && StorePart(z, r, b, mem, slots) && !Storing(r.state)
    ensures slots == After(z, b, b.stored)
  {
    hide After, Computed, Flowing;
  }

  lemma LoadedAtGo(z: Zetas, r: Regs, b: Batch, h: Half, q: int)
    requires Positions(r.q, b) && Flags(r, b) && LoadPart(z, r, b, h, q) && r.state == Go
    ensures Loaded(z, h, b, LdAt(r.q, b)) && (r.q.run ==> r.coreFin)
  {
    hide Loaded, Streaming;
  }

  lemma FlipIdle(z: Zetas, r: Regs, b: Batch, k: Core, q: int, k': Core)
    requires Positions(r.q, b) && Flags(r, b) && KernelPart(z, r, b, k)
    requires CoreEdge(z, k, r.state == CoreGo, r.q.cmd, r.sel, HostPort(r, q), k')
    ensures r.q.run && r.state in {Go, Flip} ==> Computed(z, HalfOf(k'.mem, r.sel), b, RunAt(r.q, b))
  {
    hide Computed, HalfOf, Loaded, Positions, HostServed, Executed;
    DoneIsPossible(z, r, b, k);
  }

  /** Every register keeps its meaning through one edge of the bridge, its kernel and the memory. */
  lemma InvKept(z: Zetas, r: Regs, b: Batch, k: Core, ram: Ram, start: bool, c: Command, k': Core, ram': Ram)
    requires Inv(z, r, b, k, ram)
    requires CoreEdge(z, k, r.state == CoreGo, r.q.cmd, r.sel, HostPort(r, ram.q), k')
    requires RamAddr(r) < 3072 && ram' == RamEdge(ram, RamWe(r), RamAddr(r), HostData(k.mem, StoreBank(r.q)))
    ensures Inv(z, NextRegs(r, start, c, k.done), NextBatch(r, b, start, c, k.done, ram.slots), k', ram')
  {
    hide KernelPart, LoadPart, StorePart, Positions, Flags, NextRegs, NextBatch, HalfOf, HostPort, Loaded, Computed, Executed,
         HostServed, RamEdge, RamAddr, HostData, After, DonePossible;
    DoneIsPossible(z, r, b, k);
    if r.state == Go { LoadedAtGo(z, r, b, HalfOf(k.mem, !r.sel), ram.q); }
    if !Storing(r.state) { SlotsBetweenStores(z, r, b, k.mem, ram.slots); }
    FlagsKept(r, b, start, c, k.done, ram.slots);
    KernelKept(z, r, b, k, ram.q, start, c, ram.slots, k');
    FlipIdle(z, r, b, k, ram.q, k');
    StoreKept(z, r, b, k.mem, ram, start, c, k.done, k'.mem, ram');
    var r' := NextRegs(r, start, c, k.done);
    HostHalf(r, k.mem, k'.mem, ram.q, start, c, k.done);
    LoadKept(z, r, b, HalfOf(k.mem, !r.sel), ram, HostData(k.mem, StoreBank(r.q)), start, c, k.done, HalfOf(k'.mem, !r'.sel), ram');
  }

  lemma HostHalf(r: Regs, mem: Memory, mem': Memory, q: int, start: bool, c: Command, coreDone: bool)
    requires HostServed(mem, mem', r.sel, HostPort(r, q))
    ensures r.state != Go && r.state != Flip ==>
      HalfOf(mem', !NextRegs(r, start, c, coreDone).sel) == HostWritten(HalfOf(mem, !r.sel), HostPort(r, q))
  {
    hide HalfOf, HostWritten, HostPort, HostData, HostWord;
  }

  // ---------------------------------------------------------------- progress

  ghost function LoadWork(r: Regs): nat {
    if !r.q.pend then 0
    else
      match r.state
      case LdA => 3560 - r.index
      case LdADrain => 3300
      case LdB => 3290 - r.index
      case LdBDrain => 3010
      case LdDone => 3005
      case _ => 3600
  }

  ghost function StoreWork(r: Regs): nat {
    if !r.q.stq then 0 else if r.state == St then 300 - r.index else if r.state == StDrain then 10 else 310
  }

  ghost function RunWork(r: Regs, busy: bool, left: int): nat {
    if !r.q.run then 0
    else 700 + (if r.state == CoreGo then 1200 else if busy then (if left > 0 then left + 2 else 2) else if r.coreFin then 0 else 1)
  }

  ghost function Rank(s: State): nat {
    match s case CoreGo => 4 case OvWait => 3 case Go => 2 case Flip => 2 case Done => 1 case _ => 0
  }

  /** A bound on the clocks until everything accepted is stored and the bridge is idle again. */
  ghost function Work(r: Regs, busy: bool, left: int): nat {
    LoadWork(r) + (if r.q.ld then 2990 else 0) + RunWork(r, busy, left) + StoreWork(r) + Rank(r.state)
  }

  lemma WorkDown(r: Regs, b: Batch, busy: bool, done: bool, left: int, start: bool, c: Command, busy': bool, left': int)
    requires Flags(r, b) && DonePossible(r, done) && Busy(r) && !(start && Ready(r, done))
    requires r.q.run && r.state != CoreGo && !r.coreFin ==> busy || done
    requires busy ==> left > 0 && left' == left - 1 && (busy' <==> left' > 0) && r.state != CoreGo && r.q.run && !r.coreFin && !done
    requires !busy && r.state == CoreGo ==> busy' && 0 < left' <= 1191
    requires !busy && r.state != CoreGo ==> !busy'
    ensures Work(NextRegs(r, start, c, done), busy', left') < Work(r, busy, left)
  {
  }

  /** The last accepted command has not been launched yet, or is being launched. */
  predicate Unlaunched(r: Regs) { r.q.pend || r.q.ld || r.state == CoreGo }

  /** A caller that polls ready_o every clock first sees it on the launch clock, and ready_o is
      still up one clock later, when its start arrives. */
  lemma ReadyLasts(r: Regs, b: Batch, done: bool, c: Command, done': bool)
    requires Flags(r, b) && DonePossible(r, done) && Unlaunched(r)
    requires r.state == CoreGo ==> !done'
    ensures Ready(r, done) <==> r.state == CoreGo
    ensures !Ready(r, done) ==> Unlaunched(NextRegs(r, false, c, done))
    ensures Ready(r, done) ==> Ready(NextRegs(r, false, c, done), done')
  {
  }

  lemma AcceptedUnlaunched(r: Regs, b: Batch, done: bool, c: Command)
    requires Flags(r, b) && Ready(r, done)
    ensures Unlaunched(NextRegs(r, true, c, done))
  {
  }

  /** At the done pulse everything accepted has been stored. */
  lemma DoneMeans(z: Zetas, r: Regs, b: Batch, k: Core, ram: Ram)
    requires Inv(z, r, b, k, ram) && r.state == Done
    ensures b.stored == |b.cmds| && ram.slots == Overlapped(z, b.cmds, b.origin)
  {
    hide Overlapped, HalfOf, Loaded, Computed, Flowing, Streaming;
    assert b.cmds[..b.stored] == b.cmds;
  }

  lemma IdleMeans(z: Zetas, r: Regs, b: Batch, k: Core, ram: Ram)
    requires Inv(z, r, b, k, ram) && !Busy(r)
    ensures b.cmds == [] && b.stored == 0 && ram.slots == b.origin && Ready(r, k.done)
  {
    hide HalfOf, Loaded, Computed, Flowing, Streaming;
  }

  /** An idle bridge depends on nothing in the memory. */
  lemma IdleRebased(z: Zetas, r: Regs, b: Batch, k: Core, ram: Ram, ram': Ram)
    requires Inv(z, r, b, k, ram) && !Busy(r)
    ensures Inv(z, r, Batch(ram'.slots, [], 0), k, ram')
    ensures Inv(z, r, b, k, Ram(b.origin, 0))
  {
    hide HalfOf, Computed, Flowing, Streaming, Loaded;
    IdleMeans(z, r, b, k, ram);
  }

  // ---------------------------------------------------------------- the machine

  class PolyBridge {
    const core: PolyAccelerator
    var r: Regs
    ghost var batch: Batch

    ghost function View(): Core
      reads core
    {
      Core(core.ctl.busy, core.ctl.done, core.mem, core.job.command, core.job.found)
    }

    ghost predicate Valid(ram: Ram)
      reads this, core
    {
      core.Valid() && Inv(core.zetas, r, batch, View(), ram) && (core.ctl.busy <==> core.Left() > 0)
    }

    /** Clocks until idle, at most. */
    ghost function Bound(): nat
      reads this, core
    {
      Work(r, core.ctl.busy, core.Left())
    }

    predicate IsReady()
      reads this, core
    {
      Ready(r, core.ctl.done)
    }

    /** Nothing is queued, loaded, running or unstored, so the memory may change hands. */
    ghost predicate Resting()
      reads this, core
    {
      !Busy(r) && Valid(Ram(batch.origin, 0))
    }

    /** The commands q, accepted since the bridge found the slots `base`, are under way. */
    ghost predicate Working(q: seq<Command>, base: Slots, ram: Ram)
      reads this, core
    {
      Busy(r) && Valid(ram) && batch.cmds == q && batch.origin == base
    }

    /** The last of them has not been launched yet, or is being launched. */
    ghost predicate Waiting()
      reads this
    {
      Unlaunched(r)
    }

    predicate AtDone()
      reads this
    {
      r.state == Done
    }

    constructor (kernel: PolyAccelerator)
      requires kernel.Valid() && !kernel.ctl.busy && !kernel.ctl.done && kernel.Left() == 0
      ensures Resting() && core == kernel
    {
      core := kernel;
      r := Regs(State.Idle, 0, 0, false, false, false,
                Queue(false, Command(0, 0, 0, 0), false, 0, 0, false, 0, 0, false, 0, 0));
      batch := Batch(seq(12, _ => ZeroPoly()), [], 0);
    }

    /** One rising edge of the controller, its kernel and the polynomial memory. */
    method Clock(start: bool, c: Command, ram: Ram) returns (ram': Ram)
      requires Valid(ram)
      modifies this, core
      ensures Valid(ram')
      ensures r == NextRegs(old(r), start, c, old(core.ctl.done))
      ensures batch == NextBatch(old(r), old(batch), start, c, old(core.ctl.done), ram.slots)
      ensures old(Busy(r)) && !(start && old(IsReady())) ==> Bound() < old(Bound())
      ensures old(r.state) == CoreGo ==> !core.ctl.done
      ensures !Storing(old(r.state)) ==> ram'.slots == ram.slots
    {
      hide Inv, HalfOf, Executed, HostServed, NextRegs, NextBatch, Work, RamEdge, HostData, RamAddr, ValidRegs, Remaining;
      ghost var r0, b0, k0, left0 := r, batch, View(), core.Left();
      PartsOf(core.zetas, r, batch, View(), ram);
      Addressed(r);
      ram' := RamEdge(ram, RamWe(r), RamAddr(r), HostData(core.mem, StoreBank(r.q)));
      if !Storing(r.state) { RamUntouched(ram, RamAddr(r), HostData(core.mem, StoreBank(r.q))); }
      var next := NextRegs(r, start, c, core.ctl.done);
      core.Clock(r.state == CoreGo, r.q.cmd, r.sel, HostPort(r, ram.q));
      r := next;
      batch := NextBatch(r0, b0, start, c, k0.done, ram.slots);
      assert CoreEdge(core.zetas, k0, r0.state == CoreGo, r0.q.cmd, r0.sel, HostPort(r0, ram.q), View());
      InvKept(core.zetas, r0, b0, k0, ram, start, c, View(), ram');
      if Busy(r0) && !(start && Ready(r0, k0.done)) {
        WorkDown(r0, b0, k0.busy, k0.done, left0, start, c, core.ctl.busy, core.Left());
      }
    }

    /** The same edge as an engine sees it, which knows the commands under way. */
    method Step(start: bool, c: Command, ghost q: seq<Command>, ghost base: Slots, ram: Ram) returns (ram': Ram)
      requires Resting() || Working(q, base, ram)
      requires start ==> Resting() || IsReady()
      modifies this, core
      ensures old(Resting()) ==> ram'.slots == ram.slots
      ensures old(Resting()) && !start ==> Resting()
      ensures old(Resting()) && start ==> Working([c], ram.slots, ram') && Waiting()
      ensures !old(Resting()) && start ==> Working(q + [c], base, ram') && Waiting()
      ensures !old(Resting()) && !start && !old(AtDone()) ==> Working(q, base, ram') && Bound() < old(Bound())
      ensures !old(Resting()) && !start && old(Waiting()) ==> !old(AtDone()) && (if old(IsReady()) then IsReady() else Waiting())
      ensures !old(Resting()) && old(AtDone()) ==> Resting() && !start && ram'.slots == ram.slots == Overlapped(core.zetas, q, base)
    {
      hide Inv, HalfOf, NextRegs, Work, Overlapped, Remaining, ValidRegs, Positions, StateFlags, Flags, Execute;
      if Busy(r) {
        PartsOf(core.zetas, r, batch, View(), ram);
        if start {
          ReadyIsNotDone(r, batch, core.ctl.done);
          AcceptedUnlaunched(r, batch, core.ctl.done, c);
          ram' := Clock(true, c, ram);
          PartsOf(core.zetas, r, batch, View(), ram');
          ReadyIsNotDone(r, batch, core.ctl.done);
        } else {
          if r.state == Done { DoneMeans(core.zetas, r, batch, View(), ram); }
          StaysBusy(r, batch, core.ctl.done, c);
          ghost var r0, b0, done0, seen := r, batch, core.ctl.done, Unlaunched(r);
          ram' := Clock(false, c, ram);
          if seen { StillWaits(r0, b0, done0, c, core.ctl.done); }
          if r0.state == Done { IdleRebased(core.zetas, r, batch, View(), ram', Ram(batch.origin, 0)); }
        }
      } else {
        IdleRebased(core.zetas, r, batch, View(), Ram(batch.origin, 0), ram);
        batch := Batch(ram.slots, [], 0);
        IdleMeans(core.zetas, r, batch, View(), ram);
        PartsOf(core.zetas, r, batch, View(), ram);
        IdleClock(r, batch, core.ctl.done, start, c, ram.slots);
        if start { AcceptedUnlaunched(r, batch, core.ctl.done, c); }
        ram' := Clock(start, c, ram);
        PartsOf(core.zetas, r, batch, View(), ram');
        if start { ReadyIsNotDone(r, batch, core.ctl.done); }
        else { IdleRebased(core.zetas, r, batch, View(), ram', Ram(batch.origin, 0)); }
      }
    }

    /** One command after another as the engines issue them: each is started the clock after
        ready_o was seen, and only the last one waits for the done pulse. */
    method Run(cmds: seq<Command>, ram: Ram) returns (out: Ram)
      requires Resting() && cmds != []
      modifies this, core
      ensures Resting()
      ensures out.slots == Overlapped(core.zetas, cmds, ram.slots)
      ensures NoHazard(cmds) ==> out.slots == Serial(core.zetas, cmds, ram.slots)
    {
      hide Inv, HalfOf, NextRegs, NextBatch, Work, Serial, Overlapped, Remaining, ValidRegs, Positions, StateFlags, Flags;
      IdleRebased(core.zetas, r, batch, View(), Ram(batch.origin, 0), ram);
      batch := Batch(ram.slots, [], 0);
      IdleMeans(core.zetas, r, batch, View(), ram);
      out := Issue(cmds[0], ram);
      var i := 1;
      assert cmds[..1] == [cmds[0]];
      while i < |cmds|
        invariant 1 <= i <= |cmds|
        invariant Valid(out) && Unlaunched(r) && batch.cmds == cmds[..i] && batch.origin == ram.slots
      {
        out := AwaitReady(out);
        out := Issue(cmds[i], out);
        assert cmds[..i] + [cmds[i]] == cmds[..i + 1];
        i := i + 1;
      }
      assert cmds[..i] == cmds;
      PartsOf(core.zetas, r, batch, View(), out);
      ReadyIsNotDone(r, batch, core.ctl.done);
      out := AwaitDone(out);
      IdleRebased(core.zetas, r, batch, View(), out, Ram(batch.origin, 0));
      if NoHazard(cmds) { OverlapInvisible(core.zetas, cmds, ram.slots); }
    }

    /** The clock in which a start meets ready_o. */
    method Issue(c: Command, ram: Ram) returns (out: Ram)
      requires Valid(ram) && IsReady()
      modifies this, core
      ensures Valid(out) && Unlaunched(r)
      ensures batch.cmds == old(batch.cmds) + [c] && batch.origin == old(batch.origin)
    {
      hide Inv, HalfOf, NextRegs, Work, Remaining, ValidRegs, Positions, StateFlags, Flags;
      PartsOf(core.zetas, r, batch, View(), ram);
      AcceptedUnlaunched(r, batch, core.ctl.done, c);
      ReadyIsNotDone(r, batch, core.ctl.done);
      out := Clock(true, c, ram);
    }

    method AwaitReady(ram: Ram) returns (out: Ram)
      requires Valid(ram) && Unlaunched(r)
      modifies this, core
      ensures Valid(out) && IsReady() && batch.cmds == old(batch.cmds) && batch.origin == old(batch.origin)
    {
      hide Inv, HalfOf, NextRegs, Work, Remaining, ValidRegs, Positions, StateFlags, Flags;
      out := ram;
      var seen := false;
      while !seen
        invariant Valid(out) && batch.cmds == old(batch.cmds) && batch.origin == old(batch.origin)
        invariant if seen then IsReady() else Unlaunched(r)
        decreases !seen, Bound()
      {
        PartsOf(core.zetas, r, batch, View(), out);
        ReadyIsNotDone(r, batch, core.ctl.done);
        seen := IsReady();
        ghost var r0, b0, done0 := r, batch, core.ctl.done;
        out := Clock(false, Command(0, 0, 0, 0), out);
        ReadyLasts(r0, b0, done0, Command(0, 0, 0, 0), core.ctl.done);
      }
    }

    method AwaitDone(ram: Ram) returns (out: Ram)
      requires Valid(ram) && Busy(r)
      modifies this, core
      ensures Valid(out) && !Busy(r) && out.slots == Overlapped(core.zetas, old(batch.cmds), old(batch.origin))
    {
      hide Inv, HalfOf, NextRegs, Work, Remaining, ValidRegs, Positions, StateFlags, Flags, Overlapped;
      out := ram;
      var seen := false;
      while !seen
        invariant Valid(out)
        invariant if seen then !Busy(r) && out.slots == Overlapped(core.zetas, old(batch.cmds), old(batch.origin))
                  else Busy(r) && batch.cmds == old(batch.cmds) && batch.origin == old(batch.origin)
        decreases !seen, Bound()
      {
        PartsOf(core.zetas, r, batch, View(), out);
        seen := r.state == Done;
        if seen { DoneMeans(core.zetas, r, batch, View(), out); }
        StaysBusy(r, batch, core.ctl.done, Command(0, 0, 0, 0));
        out := Clock(false, Command(0, 0, 0, 0), out);
      }
    }
  }

  lemma ReadyIsNotDone(r: Regs, b: Batch, done: bool)
    requires Flags(r, b) && (Ready(r, done) || Unlaunched(r))
    ensures r.state != Done && (Unlaunched(r) ==> Busy(r))
  {
  }

  /** A busy bridge becomes idle only through its done pulse. */
  lemma StaysBusy(r: Regs, b: Batch, done: bool, c: Command)
    requires Flags(r, b) && DonePossible(r, done) && Busy(r)
    ensures Busy(NextRegs(r, false, c, done)) <==> r.state != Done
  {
  }

  lemma PartsOf(z: Zetas, r: Regs, b: Batch, k: Core, ram: Ram)
    requires Inv(z, r, b, k, ram)
    ensures Positions(r.q, b) && Flags(r, b) && DonePossible(r, k.done)
    ensures k.busy ==> r.sel == k.mem.setQ && r.state != CoreGo && r.q.run && !r.coreFin && !k.done
    ensures r.q.run && r.state != CoreGo && !r.coreFin ==> k.busy || k.done
  {
    hide Positions, Flags, Computed, HalfOf, Loaded, LoadPart, StorePart;
    DoneIsPossible(z, r, b, k);
  }

  lemma StillWaits(r: Regs, b: Batch, done: bool, c: Command, done': bool)
    requires Flags(r, b) && DonePossible(r, done) && Unlaunched(r)
    requires r.state == CoreGo ==> !done'
    ensures r.state != Done
    ensures if Ready(r, done) then Ready(NextRegs(r, false, c, done), done') else Unlaunched(NextRegs(r, false, c, done))
  {
    ReadyIsNotDone(r, b, done);
    ReadyLasts(r, b, done, c, done');
  }

  lemma IdleClock(r: Regs, b: Batch, done: bool, start: bool, c: Command, slots: Slots)
    requires !Busy(r) && Flags(r, b) && Ready(r, done)
    ensures !Storing(r.state) && r.state != Done
    ensures NextBatch(r, b, start, c, done, slots) == if start then b.(cmds := b.cmds + [c]) else b
    ensures !start ==> !Busy(NextRegs(r, start, c, done))
  {
  }
}
