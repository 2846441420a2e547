/** The clocked polynomial kernel: memories, control registers and one method per rising edge. */
module Accelerator {
  import opened ModQ
  import opened Ring
  import opened Kernel
  import opened ParityBank
  import opened Pipeline

  // ---------------------------------------------------------------- memories

  /** One half of every memory with its output registers. */
  datatype HalfMem = HalfMem(even: Bank, odd: Bank, b: Poly, r: Poly, evenQ: int, oddQ: int, b0Q: int, b1Q: int, rQ: int)

  /** Both halves, and the selectors delayed by the read latency. */
  datatype Memory = Memory(m0: HalfMem, m1: HalfMem, aSelQ: bool, haSelQ: bool, setQ: bool)

  /** Contents of the three memories of one half. */
  datatype Half = Half(a: Poly, b: Poly, r: Poly)

  function Contents(h: HalfMem): Half { Half(View(h.even, h.odd), h.b, h.r) }

  function Side(m: Memory, sel: bool): HalfMem { if sel then m.m1 else m.m0 }

  function HalfOf(m: Memory, sel: bool): Half { Contents(Side(m, sel)) }

  /** Addresses are eight bits wide. */
  datatype Request = Request(ra0: nat, ra1: nat, rb0: nat, rb1: nat, wa0: nat, wa1: nat, we0: bool, we1: bool, w0: int, w1: int)
  {
    predicate Ok() {
      && ra0 < 256 && ra1 < 256 && rb0 < 256 && rb1 < 256 && wa0 < 256 && wa1 < 256
      && (we1 ==> Parity(wa0) != Parity(wa1))
    }
  }

  datatype Host = Host(we: bool, bank: nat, addr: nat, data: int)
  {
    predicate Ok() { addr < 256 }
  }

  /** The half the arithmetic owns: a routed pair of coefficient accesses, two operand reads, and
      the result pair of BaseMul whenever one leaves its pipeline. */
  function ArithEdge(h: HalfMem, q: Request, m: MulPipe): HalfMem
    requires q.Ok() && (m.v8 ==> m.idx8 < 128)
  {
    EvenIndexRange(q.ra0, q.ra1);
    h.(evenQ := h.even[EvenIndex(q.ra0, q.ra1)], oddQ := h.odd[OddIndex(q.ra0, q.ra1)],
       b0Q := h.b[q.rb0], b1Q := h.b[q.rb1],
       even := EvenAfter(h.even, q.wa0, q.wa1, q.we0, q.we1, q.w0, q.w1),
       odd := OddAfter(h.odd, q.wa0, q.wa1, q.we0, q.we1, q.w0, q.w1),
       r := if m.v8 then MulRetired(h.r, m) else h.r)
  }

  function MulRetired(r: Poly, m: MulPipe): Poly
    requires m.idx8 < 128
  {
    r[2 * m.idx8 := Wrap16(m.p11z + m.p00D3)][2 * m.idx8 + 1 := Wrap16(m.p01D3 + m.p10D3)]
  }

  /** The half the host owns: one access per clock. */
  function HostEdge(h: HalfMem, p: Host): HalfMem
    requires p.Ok()
  {
    EvenIndexRange(p.addr, p.addr);
    var we := p.we && p.bank == 0;
    h.(evenQ := h.even[EvenIndex(p.addr, p.addr)], oddQ := h.odd[OddIndex(p.addr, p.addr)],
       b0Q := h.b[p.addr], rQ := h.r[p.addr],
       even := EvenAfter(h.even, p.addr, p.addr, we, false, p.data, 0),
       odd := OddAfter(h.odd, p.addr, p.addr, we, false, p.data, 0),
       b := WritePort(h.b, p.we && p.bank == 1, p.addr, p.data),
       r := WritePort(h.r, p.we && p.bank >= 2, p.addr, p.data))
  }

  function MemEdge(m: Memory, sel: bool, q: Request, mul: MulPipe, p: Host): Memory
    requires q.Ok() && p.Ok() && (mul.v8 ==> mul.idx8 < 128)
  {
    Memory(if sel then HostEdge(m.m0, p) else ArithEdge(m.m0, q, mul),
           if sel then ArithEdge(m.m1, q, mul) else HostEdge(m.m1, p),
           Parity(q.ra0) == 1, Parity(p.addr) == 1, sel)
  }

  // words on the arithmetic side and on the host side of the output registers
  function ADout0(m: Memory): int { if m.aSelQ then Side(m, m.setQ).oddQ else Side(m, m.setQ).evenQ }
  function ADout1(m: Memory): int { if m.aSelQ then Side(m, m.setQ).evenQ else Side(m, m.setQ).oddQ }
  function BDout0(m: Memory): int { Side(m, m.setQ).b0Q }
  function BDout1(m: Memory): int { Side(m, m.setQ).b1Q }

  function HostData(m: Memory, bank: nat): int {
    var h := Side(m, !m.setQ);
    if bank == 0 then (if m.haSelQ then h.oddQ else h.evenQ) else if bank == 1 then h.b0Q else h.rQ
  }

  function HostWritten(h: Half, p: Host): Half
    requires p.Ok()
  {
    if !p.we then h
    else if p.bank == 0 then h.(a := h.a[p.addr := p.data])
    else if p.bank == 1 then h.(b := h.b[p.addr := p.data])
    else h.(r := h.r[p.addr := p.data])
  }

  function HostWord(h: Half, bank: nat, addr: nat): int
    requires addr < 256
  {
    if bank == 0 then h.a[addr] else if bank == 1 then h.b[addr] else h.r[addr]
  }

  /** The host's access to the other half is served in one clock, whatever the kernel does. */
  ghost predicate HostServed(m: Memory, m': Memory, sel: bool, p: Host)
    requires p.Ok()
  {
    && m'.setQ == sel
    && HalfOf(m', !sel) == HostWritten(HalfOf(m, !sel), p)
    && forall bank: nat :: HostData(m', bank) == HostWord(HalfOf(m, !sel), bank, p.addr)
  }

  lemma MemEdgeMeaning(m: Memory, sel: bool, q: Request, mul: MulPipe, p: Host)
    requires q.Ok() && p.Ok() && (mul.v8 ==> mul.idx8 < 128)
    ensures var m' := MemEdge(m, sel, q, mul, p);
      && HalfOf(m', sel).a == WritePort(WritePort(HalfOf(m, sel).a, q.we0, q.wa0, q.w0), q.we1, q.wa1, q.w1)
      && HalfOf(m', sel).b == HalfOf(m, sel).b
      && HalfOf(m', sel).r == (if mul.v8 then MulRetired(HalfOf(m, sel).r, mul) else HalfOf(m, sel).r)
      && ADout0(m') == HalfOf(m, sel).a[q.ra0]
      && (Parity(q.ra0) != Parity(q.ra1) ==> ADout1(m') == HalfOf(m, sel).a[q.ra1])
      && BDout0(m') == HalfOf(m, sel).b[q.rb0] && BDout1(m') == HalfOf(m, sel).b[q.rb1]
      && HostServed(m, m', sel, p) && m'.setQ == sel
  {
    hide View, EvenAfter, OddAfter, Parity, MulRetired, EvenIndex, OddIndex;
    var h, g := Side(m, sel), Side(m, !sel);
    ReadPair(h.even, h.odd, q.ra0, q.ra1);
    WritePair(h.even, h.odd, q.wa0, q.wa1, q.we0, q.we1, q.w0, q.w1);
    ReadPair(g.even, g.odd, p.addr, p.addr);
    WritePair(g.even, g.odd, p.addr, p.addr, p.we && p.bank == 0, false, p.data, 0);
  }

  // ---------------------------------------------------------------- control

  datatype State = Idle | NttRun | NttDrain | ScaleRun | ScaleDrain | InttRun | InttDrain | MulRun | MulDrain

  datatype Control = Control(
    state: State, busy: bool, done: bool, layer: nat, span: nat, blockStart: nat, butterfly: nat,
    zetaIndex: int, drain: nat, bmPtr: nat)

  /** What a command leaves in the half it runs on: 0 forward, 1 inverse, otherwise BaseMul. */
  function Executed(z: Zetas, command: nat, h: Half): Half {
    if command == 0 then h.(a := NttCommand(z, h.a))
    else if command == 1 then h.(a := InttCommand(z, h.a))
    else h.(r := BaseMulWords(z, h.a, h.b))
  }

  /** Clocks from the start of a command to its done pulse. */
  function Latency(command: nat): nat {
    if command == 0 then 924 else if command == 1 then 1191 else 136
  }

  function Finished(c: Control): Control { c.(state := Idle, busy := false, done := true) }

  function StartEdge(c: Control, command: nat): Control {
    if command == 0 then
      c.(busy := true, done := false, layer := 1, span := 128, blockStart := 0, butterfly := 0, zetaIndex := 1, state := NttRun)
    else if command == 1 then c.(busy := true, done := false, butterfly := 0, state := ScaleRun)
    else c.(busy := true, done := false, bmPtr := 0, state := MulRun)
  }

  /** Issue counters of a butterfly layer; `step` is +1 forward and -1 on the way back. */
  function WalkEdge(c: Control, step: int, depth: nat, drained: State): Control {
    if c.butterfly == c.blockStart + c.span - 1 then
      if c.blockStart + 2 * c.span >= 256 then c.(drain := depth, state := drained)
      else c.(blockStart := c.blockStart + 2 * c.span, butterfly := c.blockStart + 2 * c.span, zetaIndex := c.zetaIndex + step)
    else c.(butterfly := c.butterfly + 1)
  }

  function NttControl(c: Control): Control {
    var c := c.(done := false);
    if c.state == NttRun then WalkEdge(c, 1, 3, NttDrain)
    else if c.drain == 0 then
      if c.layer == 7 then Finished(c)
      else c.(layer := c.layer + 1, span := c.span / 2, blockStart := 0, butterfly := 0,
              zetaIndex := c.zetaIndex + 1, state := NttRun)
    else c.(drain := c.drain - 1)
  }

  function ScaleControl(c: Control): Control {
    var c := c.(done := false);
    if c.state == ScaleRun then
      if c.butterfly == 255 then c.(drain := 3, state := ScaleDrain) else c.(butterfly := c.butterfly + 1)
    else if c.drain == 0 then
      c.(layer := 7, span := 2, blockStart := 0, butterfly := 0, zetaIndex := 127, state := InttRun)
    else c.(drain := c.drain - 1)
  }

  /** 2^k, the shifter behind the next layer's first zeta index. */
  function Shifted(k: nat): nat { if k == 0 then 1 else 2 * Shifted(k - 1) }

  function InttControl(c: Control): Control {
    var c := c.(done := false);
    if c.state == InttRun then WalkEdge(c, -1, 4, InttDrain)
    else if c.drain == 0 then
      if c.layer <= 1 then Finished(c)
      else c.(layer := c.layer - 1, span := c.span * 2, blockStart := 0, butterfly := 0,
              zetaIndex := Shifted(c.layer - 1) - 1, state := InttRun)
    else c.(drain := c.drain - 1)
  }

  function MulControl(c: Control, m: MulPipe): Control {
    var c := c.(done := false);
    if c.state == MulRun then
      if c.bmPtr == 127 then c.(state := MulDrain) else c.(bmPtr := c.bmPtr + 1)
    else if m.v8 && m.idx8 == 127 then Finished(c)
    else c
  }

  // ---------------------------------------------------------------- requests to the memories

  function Quiet(): Request { Request(0, 0, 0, 0, 0, 0, false, false, 0, 0) }

  function NttRequest(c: Control, p: Pipe): Request {
    var q := if c.state == NttRun then Quiet().(ra0 := c.butterfly, ra1 := c.butterfly + c.span) else Quiet();
    if p.v4 then q.(wa0 := p.bf4, wa1 := p.bf4 + c.span, we0 := true, we1 := true,
                    w0 := Wrap16(p.butterflyAD2 + p.fqResult), w1 := Wrap16(p.butterflyAD2 - p.fqResult))
    else q
  }

  function ScaleRequest(c: Control, p: Pipe): Request {
    var q := if c.state == ScaleRun then Quiet().(ra0 := c.butterfly) else Quiet();
    if p.v4 then q.(wa0 := p.bf4, we0 := true, w0 := p.fqResult) else q
  }

  function InttRequest(c: Control, p: Pipe): Request {
    var q := if c.state == InttRun then Quiet().(ra0 := c.butterfly, ra1 := c.butterfly + c.span) else Quiet();
    if p.v5 then q.(wa0 := p.bf5, wa1 := p.bf5 + c.span, we0 := true, we1 := true, w0 := p.barrettResult, w1 := p.fqResult)
    else q
  }

  function MulRequest(c: Control): Request {
    if c.state == MulRun then
      Quiet().(ra0 := 2 * c.bmPtr, ra1 := 2 * c.bmPtr + 1, rb0 := 2 * c.bmPtr, rb1 := 2 * c.bmPtr + 1)
    else Quiet()
  }

  // ---------------------------------------------------------------- what every register means

  /** The command being run, the half it found and the coefficient memory its current pass found. */
  datatype Job = Job(command: nat, found: Half, x: Poly)

  /** First butterfly not yet issued; 256 when the layer is out. */
  ghost function Next(c: Control): nat {
    if c.state in {NttRun, InttRun, ScaleRun} then c.butterfly else 256
  }

  ghost predicate Walking(c: Control)
    requires 1 <= c.layer <= 7
  {
    && c.span == Span(c.layer)
    && c.butterfly < 256 && IsLow(c.layer, c.butterfly)
    && c.blockStart == Base(c.layer - 1, BlockOf(c.layer - 1, c.butterfly))
  }

  /** Issuing stopped some clocks ago, so the first stages have run empty. */
  ghost predicate Draining(drain: nat, p: Pipe) {
    drain <= 3 && (drain <= 2 ==> !p.v1) && (drain <= 1 ==> !p.v2) && (drain == 0 ==> !p.v3)
  }

  ghost predicate ValidNtt(z: Zetas, c: Control, p: Pipe, m: MulPipe, mem: Memory, j: Job) {
    && j.command == 0 && c.busy && MulQuiet(m)
    && HalfOf(mem, mem.setQ).b == j.found.b && HalfOf(mem, mem.setQ).r == j.found.r
    && 1 <= c.layer <= 7 && c.span == Span(c.layer)
    && j.x == NttWords(z, j.found.a, c.layer - 1)
    && (if c.state == NttRun then Walking(c) && c.zetaIndex == Blocks(c.layer - 1) + BlockOf(c.layer - 1, c.butterfly)
        else c.state == NttDrain && Draining(c.drain, p) && c.zetaIndex == Blocks(c.layer) - 1)
    && NttStages(z, j.x, c.layer, p, ADout0(mem), ADout1(mem), Next(c))
    && NttMemory(z, j.x, c.layer, p, HalfOf(mem, mem.setQ).a, Next(c))
  }

  ghost predicate ValidScale(z: Zetas, c: Control, p: Pipe, m: MulPipe, mem: Memory, j: Job) {
    && j.command == 1 && c.busy && MulQuiet(m)
    && HalfOf(mem, mem.setQ).b == j.found.b && HalfOf(mem, mem.setQ).r == j.found.r
    && j.x == j.found.a
    && (if c.state == ScaleRun then c.butterfly < 256 else c.state == ScaleDrain && Draining(c.drain, p))
    && ScaleStages(j.x, p, ADout0(mem), Next(c))
    && ScaleMemory(j.x, p, HalfOf(mem, mem.setQ).a, Next(c))
  }

  ghost predicate ValidIntt(z: Zetas, c: Control, p: Pipe, m: MulPipe, mem: Memory, j: Job) {
    && j.command == 1 && c.busy && MulQuiet(m)
    && HalfOf(mem, mem.setQ).b == j.found.b && HalfOf(mem, mem.setQ).r == j.found.r
    && 1 <= c.layer <= 7 && c.span == Span(c.layer)
    && j.x == InttWords(z, j.found.a, c.layer)
    && (if c.state == InttRun then Walking(c) && c.zetaIndex == Blocks(c.layer) - 1 - BlockOf(c.layer - 1, c.butterfly)
        else
          && c.state == InttDrain && c.drain <= 4 && 0 <= c.zetaIndex < 128
          && (c.drain <= 3 ==> !p.v1) && (c.drain <= 2 ==> !p.v2) && (c.drain <= 1 ==> !p.v3) && (c.drain == 0 ==> !p.v4))
    && InttStages(z, j.x, c.layer, p, ADout0(mem), ADout1(mem), Next(c))
    && InttMemory(z, j.x, c.layer, p, HalfOf(mem, mem.setQ).a, Next(c))
  }

  /** Clocks since the first BaseMul issue. */
  ghost function MulTime(c: Control, m: MulPipe): nat {
    if c.state == MulRun then c.bmPtr else m.idx8 + 8
  }

  ghost predicate ValidMul(z: Zetas, c: Control, m: MulPipe, mem: Memory, j: Job) {
    && j.command >= 2 && c.busy
    && (if c.state == MulRun then c.bmPtr < 128 else c.state == MulDrain && 128 <= MulTime(c, m) < 136)
    && HalfOf(mem, mem.setQ).a == j.found.a && HalfOf(mem, mem.setQ).b == j.found.b
    && MulStages(z, j.found.a, j.found.b, m, ADout0(mem), ADout1(mem), BDout0(mem), BDout1(mem), MulTime(c, m))
    && MulMemory(z, j.found.a, j.found.b, j.found.r, HalfOf(mem, mem.setQ).r, MulTime(c, m))
  }

  ghost predicate ValidRegs(z: Zetas, c: Control, p: Pipe, m: MulPipe, mem: Memory, j: Job) {
    match c.state
    case Idle => !c.busy && MulQuiet(m)
    case NttRun => ValidNtt(z, c, p, m, mem, j)
    case NttDrain => ValidNtt(z, c, p, m, mem, j)
    case ScaleRun => ValidScale(z, c, p, m, mem, j)
    case ScaleDrain => ValidScale(z, c, p, m, mem, j)
    case InttRun => ValidIntt(z, c, p, m, mem, j)
    case InttDrain => ValidIntt(z, c, p, m, mem, j)
    case MulRun => ValidMul(z, c, m, mem, j)
    case MulDrain => ValidMul(z, c, m, mem, j)
  }

  /** Clocks left before the done pulse. */
  ghost function Remaining(c: Control, m: MulPipe): int {
    match c.state
    case Idle => 0
    case NttRun => 132 * (7 - c.layer) + 132 - (c.butterfly - c.blockStart / 2)
    case NttDrain => 132 * (7 - c.layer) + c.drain + 1
    case ScaleRun => 931 + 260 - c.butterfly
    case ScaleDrain => 931 + c.drain + 1
    case InttRun => 133 * (c.layer - 1) + 133 - (c.butterfly - c.blockStart / 2)
    case InttDrain => 133 * (c.layer - 1) + c.drain + 1
    case MulRun => 136 - c.bmPtr
    case MulDrain => 136 - MulTime(c, m)
  }

  /** One edge brings a command one clock closer to its done pulse; with it comes the result. */
  ghost predicate Progress(z: Zetas, c: Control, m: MulPipe, c': Control, m': MulPipe, mem': Memory, j: Job) {
    && Remaining(c', m') == Remaining(c, m) - 1 >= 0
    && c'.done == (c'.state == Idle) && (c'.state == Idle <==> Remaining(c', m') == 0)
    && (c'.state == Idle ==> HalfOf(mem', mem'.setQ) == Executed(z, j.command, j.found))
  }

  // ---------------------------------------------------------------- forward edge

  /** Where the walk stands after this edge, with 256 for a layer that is out. */
  ghost function NextIssue(c: Control): nat {
    if c.state in {NttDrain, InttDrain} then 256
    else if c.butterfly != c.blockStart + c.span - 1 then c.butterfly + 1
    else if c.blockStart + 2 * c.span >= 256 then 256 else c.blockStart + 2 * c.span
  }

  lemma NttDatapath(z: Zetas, c: Control, p: Pipe, m: MulPipe, mem: Memory, j: Job, h: Host)
    requires ValidNtt(z, c, p, m, mem, j) && h.Ok()
    ensures 0 <= c.zetaIndex < 128 && NttRequest(c, p).Ok() && !m.v8
    ensures var p' := NttClock(p, ADout0(mem), ADout1(mem), z[c.zetaIndex], c.butterfly, c.state == NttRun);
      var mem' := MemEdge(mem, mem.setQ, NttRequest(c, p), m, h);
      && NttStages(z, j.x, c.layer, p', ADout0(mem'), ADout1(mem'), NextIssue(c))
      && NttMemory(z, j.x, c.layer, p', HalfOf(mem', mem'.setQ).a, NextIssue(c))
      && HalfOf(mem', mem'.setQ).b == j.found.b && HalfOf(mem', mem'.setQ).r == j.found.r
      && HostServed(mem, mem', mem.setQ, h) && mem'.setQ == mem.setQ
  {
    hide View, NttLayer, NttStages, NttMemory, IsLow, BlockOf, Base, Span, Blocks, NttClock, Parity, Within, NttWords,
         MemEdge, HalfOf, ADout0, ADout1, HostServed, Wrap16;
    var issue := c.state == NttRun;
    if issue {
      PairFacts(c.layer, c.butterfly);
      NextLow(c.layer, c.butterfly, BlockOf(c.layer - 1, c.butterfly), c.blockStart, c.span);
      NttReads(z, j.x, c.layer, p, HalfOf(mem, mem.setQ).a, c.butterfly);
    }
    NttMemoryAdvance(z, j.x, c.layer, p, ADout0(mem), ADout1(mem), HalfOf(mem, mem.setQ).a, Next(c), c.butterfly, issue,
                     z[c.zetaIndex], NextIssue(c));
    MemEdgeMeaning(mem, mem.setQ, NttRequest(c, p), m, h);
    var mem' := MemEdge(mem, mem.setQ, NttRequest(c, p), m, h);
    NttStagesAdvance(z, j.x, c.layer, p, ADout0(mem), ADout1(mem), Next(c), c.butterfly, issue,
                     z[c.zetaIndex], ADout0(mem'), ADout1(mem'), NextIssue(c));
  }

  lemma NttRunEdge(z: Zetas, c: Control, p: Pipe, m: MulPipe, mem: Memory, j: Job, h: Host, p': Pipe, mem': Memory, j': Job)
    requires ValidNtt(z, c, p, m, mem, j) && h.Ok() && 0 <= c.zetaIndex < 128 && NttRequest(c, p).Ok()
    requires p' == NttClock(p, ADout0(mem), ADout1(mem), z[c.zetaIndex], c.butterfly, c.state == NttRun)
    requires mem' == MemEdge(mem, mem.setQ, NttRequest(c, p), m, h)
    requires j' == if NttControl(c).layer == c.layer then j else j.(x := HalfOf(mem', mem'.setQ).a)
    requires c.state == NttRun
    ensures ValidRegs(z, NttControl(c), p', m, mem', j') && Progress(z, c, m, NttControl(c), m, mem', j')
    ensures HostServed(mem, mem', mem.setQ, h) && mem'.setQ == mem.setQ
  {
    hide View, NttLayer, NttStages, NttMemory, IsLow, BlockOf, Base, Span, Blocks, NttClock, Parity, Within,
         MemEdge, HalfOf, ADout0, ADout1, HostServed;
    NttDatapath(z, c, p, m, mem, j, h);
    NttClockValid(p, ADout0(mem), ADout1(mem), z[c.zetaIndex], c.butterfly, c.state == NttRun);
    ChildBlocks(c.layer, BlockOf(c.layer - 1, c.butterfly));
    NextLow(c.layer, c.butterfly, BlockOf(c.layer - 1, c.butterfly), c.blockStart, c.span);
  }

  lemma NttDrainEdge(z: Zetas, c: Control, p: Pipe, m: MulPipe, mem: Memory, j: Job, h: Host, p': Pipe, mem': Memory, j': Job)
    requires ValidNtt(z, c, p, m, mem, j) && h.Ok() && 0 <= c.zetaIndex < 128 && NttRequest(c, p).Ok()
    requires p' == NttClock(p, ADout0(mem), ADout1(mem), z[c.zetaIndex], c.butterfly, c.state == NttRun)
    requires mem' == MemEdge(mem, mem.setQ, NttRequest(c, p), m, h)
    requires j' == if NttControl(c).layer == c.layer then j else j.(x := HalfOf(mem', mem'.setQ).a)
    requires c.state == NttDrain
    ensures ValidRegs(z, NttControl(c), p', m, mem', j') && Progress(z, c, m, NttControl(c), m, mem', j')
    ensures HostServed(mem, mem', mem.setQ, h) && mem'.setQ == mem.setQ
  {
    hide View, NttLayer, NttStages, NttMemory, IsLow, BlockOf, Base, Span, Blocks, NttClock, Parity, Within,
         MemEdge, HalfOf, ADout0, ADout1, HostServed;
    NttDatapath(z, c, p, m, mem, j, h);
    NttClockValid(p, ADout0(mem), ADout1(mem), z[c.zetaIndex], c.butterfly, c.state == NttRun);
    if c.drain == 0 {
      NttLayerDone(z, j.x, c.layer, p', HalfOf(mem', mem'.setQ).a);
      if c.layer < 7 {
        NttLayerBegins(z, j'.x, c.layer + 1, p', ADout0(mem'), ADout1(mem'));
        LayerTables(c.layer);
      }
    }
  }

  lemma NttEdge(z: Zetas, c: Control, p: Pipe, m: MulPipe, mem: Memory, j: Job, h: Host, p': Pipe, mem': Memory, j': Job)
    requires ValidNtt(z, c, p, m, mem, j) && h.Ok() && 0 <= c.zetaIndex < 128 && NttRequest(c, p).Ok()
    requires p' == NttClock(p, ADout0(mem), ADout1(mem), z[c.zetaIndex], c.butterfly, c.state == NttRun)
    requires mem' == MemEdge(mem, mem.setQ, NttRequest(c, p), m, h)
    requires j' == if NttControl(c).layer == c.layer then j else j.(x := HalfOf(mem', mem'.setQ).a)
    ensures ValidRegs(z, NttControl(c), p', m, mem', j') && Progress(z, c, m, NttControl(c), m, mem', j')
    ensures HostServed(mem, mem', mem.setQ, h) && mem'.setQ == mem.setQ
  {
    hide ValidRegs, Progress, MemEdge, HalfOf, NttControl, NttClock;
    StateOfNtt(z, c, p, m, mem, j);
    if c.state == NttRun { NttRunEdge(z, c, p, m, mem, j, h, p', mem', j'); } else { NttDrainEdge(z, c, p, m, mem, j, h, p', mem', j'); }
  }

  lemma StateOfNtt(z: Zetas, c: Control, p: Pipe, m: MulPipe, mem: Memory, j: Job)
    requires ValidNtt(z, c, p, m, mem, j)
    ensures c.state == NttRun || c.state == NttDrain
  {
  }

  // ---------------------------------------------------------------- scale and inverse edges

  lemma ScaleEdge(z: Zetas, c: Control, p: Pipe, m: MulPipe, mem: Memory, j: Job, h: Host, p': Pipe, mem': Memory, j': Job)
    requires ValidScale(z, c, p, m, mem, j) && h.Ok()
    requires ScaleRequest(c, p).Ok() ==> mem' == MemEdge(mem, mem.setQ, ScaleRequest(c, p), m, h)
    requires ScaleControl(c).state == InttRun ==>
      p' == ScaleClock(p, ADout0(mem), c.butterfly, false).(v1 := false, v2 := false, v3 := false, v4 := false, v5 := false)
    requires ScaleControl(c).state != InttRun ==> p' == ScaleClock(p, ADout0(mem), c.butterfly, c.state == ScaleRun)
    requires j' == if ScaleControl(c).state == InttRun then j.(x := HalfOf(mem', mem'.setQ).a) else j
    ensures ScaleRequest(c, p).Ok()
    ensures ValidRegs(z, ScaleControl(c), p', m, mem', j') && Progress(z, c, m, ScaleControl(c), m, mem', j')
    ensures HostServed(mem, mem', mem.setQ, h) && mem'.setQ == mem.setQ
  {
    hide View, ScaleStages, ScaleMemory, IsLow, BlockOf, Base, Span, Blocks, ScaleClock, Parity, Within, InttStages, InttMemory,
         MemEdge, HalfOf, ADout0, ADout1, HostServed, ScalePass;
    var issue := c.state == ScaleRun;
    ScaleShape(j.x, p, ADout0(mem), Next(c), HalfOf(mem, mem.setQ).a, issue, c.butterfly);
    MemEdgeMeaning(mem, mem.setQ, ScaleRequest(c, p), m, h);
    var next := if issue then c.butterfly + 1 else 256;
    ScaleAdvance(j.x, p, ADout0(mem), HalfOf(mem, mem.setQ).a, Next(c), c.butterfly, issue, ADout0(mem'), next);
    ScaleClockValid(p, ADout0(mem), c.butterfly, issue);
    if !issue && c.drain == 0 {
      ScaleDone(j.x, ScaleClock(p, ADout0(mem), c.butterfly, false), HalfOf(mem', mem'.setQ).a);
      InttLayerBegins(z, j'.x, 7, p', ADout0(mem'), ADout1(mem'));
      LayerSeven();
    }
  }

  lemma LayerSeven()
    ensures Span(7) == 2 && Blocks(7) == 128 && Blocks(6) == 64
  {
  }

  lemma InttDatapath(z: Zetas, c: Control, p: Pipe, m: MulPipe, mem: Memory, j: Job, h: Host)
    requires ValidIntt(z, c, p, m, mem, j) && h.Ok()
    ensures 0 <= c.zetaIndex < 128 && InttRequest(c, p).Ok() && !m.v8
    ensures var p' := InttClock(p, ADout0(mem), ADout1(mem), z[c.zetaIndex], c.butterfly, c.state == InttRun);
      var mem' := MemEdge(mem, mem.setQ, InttRequest(c, p), m, h);
      && InttStages(z, j.x, c.layer, p', ADout0(mem'), ADout1(mem'), NextIssue(c))
      && InttMemory(z, j.x, c.layer, p', HalfOf(mem', mem'.setQ).a, NextIssue(c))
      && HalfOf(mem', mem'.setQ).b == j.found.b && HalfOf(mem', mem'.setQ).r == j.found.r
      && HostServed(mem, mem', mem.setQ, h) && mem'.setQ == mem.setQ
  {
    hide View, InttLayer, InttStages, InttMemory, IsLow, BlockOf, Base, Span, Blocks, InttClock, Parity, Within, InttWords,
         MemEdge, HalfOf, ADout0, ADout1, HostServed, Wrap16;
    var issue := c.state == InttRun;
    if issue {
      ChildBlocks(c.layer, BlockOf(c.layer - 1, c.butterfly));
      PairFacts(c.layer, c.butterfly);
      NextLow(c.layer, c.butterfly, BlockOf(c.layer - 1, c.butterfly), c.blockStart, c.span);
      InttReads(z, j.x, c.layer, p, HalfOf(mem, mem.setQ).a, c.butterfly);
    }
    InttMemoryAdvance(z, j.x, c.layer, p, ADout0(mem), ADout1(mem), HalfOf(mem, mem.setQ).a, Next(c), c.butterfly, issue,
                      z[c.zetaIndex], NextIssue(c));
    MemEdgeMeaning(mem, mem.setQ, InttRequest(c, p), m, h);
    var mem' := MemEdge(mem, mem.setQ, InttRequest(c, p), m, h);
    InttStagesAdvance(z, j.x, c.layer, p, ADout0(mem), ADout1(mem), Next(c), c.butterfly, issue,
                      z[c.zetaIndex], ADout0(mem'), ADout1(mem'), NextIssue(c));
  }

  lemma InttRunEdge(z: Zetas, c: Control, p: Pipe, m: MulPipe, mem: Memory, j: Job, h: Host, p': Pipe, mem': Memory, j': Job)
    requires ValidIntt(z, c, p, m, mem, j) && h.Ok() && 0 <= c.zetaIndex < 128 && InttRequest(c, p).Ok()
    requires p' == InttClock(p, ADout0(mem), ADout1(mem), z[c.zetaIndex], c.butterfly, c.state == InttRun)
    requires mem' == MemEdge(mem, mem.setQ, InttRequest(c, p), m, h)
    requires j' == if InttControl(c).layer == c.layer then j else j.(x := HalfOf(mem', mem'.setQ).a)
    requires c.state == InttRun
    ensures ValidRegs(z, InttControl(c), p', m, mem', j') && Progress(z, c, m, InttControl(c), m, mem', j')
    ensures HostServed(mem, mem', mem.setQ, h) && mem'.setQ == mem.setQ
  {
    hide View, InttLayer, InttStages, InttMemory, IsLow, BlockOf, Base, Span, Blocks, InttClock, Parity, Within,
         MemEdge, HalfOf, ADout0, ADout1, HostServed, Shifted;
    InttDatapath(z, c, p, m, mem, j, h);
    InttClockValid(p, ADout0(mem), ADout1(mem), z[c.zetaIndex], c.butterfly, c.state == InttRun);
    ChildBlocks(c.layer, BlockOf(c.layer - 1, c.butterfly));
    NextLow(c.layer, c.butterfly, BlockOf(c.layer - 1, c.butterfly), c.blockStart, c.span);
  }

  lemma InttDrainEdge(z: Zetas, c: Control, p: Pipe, m: MulPipe, mem: Memory, j: Job, h: Host, p': Pipe, mem': Memory, j': Job)
    requires ValidIntt(z, c, p, m, mem, j) && h.Ok() && 0 <= c.zetaIndex < 128 && InttRequest(c, p).Ok()
    requires p' == InttClock(p, ADout0(mem), ADout1(mem), z[c.zetaIndex], c.butterfly, c.state == InttRun)
    requires mem' == MemEdge(mem, mem.setQ, InttRequest(c, p), m, h)
    requires j' == if InttControl(c).layer == c.layer then j else j.(x := HalfOf(mem', mem'.setQ).a)
    requires c.state == InttDrain
    ensures ValidRegs(z, InttControl(c), p', m, mem', j') && Progress(z, c, m, InttControl(c), m, mem', j')
    ensures HostServed(mem, mem', mem.setQ, h) && mem'.setQ == mem.setQ
  {
    hide View, InttLayer, InttStages, InttMemory, IsLow, BlockOf, Base, Span, Blocks, InttClock, Parity, Within,
         MemEdge, HalfOf, ADout0, ADout1, HostServed, Shifted;
    InttDatapath(z, c, p, m, mem, j, h);
    InttClockValid(p, ADout0(mem), ADout1(mem), z[c.zetaIndex], c.butterfly, c.state == InttRun);
    if c.drain == 0 {
      InttLayerDone(z, j.x, c.layer, p', HalfOf(mem', mem'.setQ).a);
      if c.layer > 1 {
        InttLayerBegins(z, j'.x, c.layer - 1, p', ADout0(mem'), ADout1(mem'));
        LayerTables(c.layer - 1);
        ShiftedBlocks(c.layer - 1);
      }
    }
  }

  lemma InttEdge(z: Zetas, c: Control, p: Pipe, m: MulPipe, mem: Memory, j: Job, h: Host, p': Pipe, mem': Memory, j': Job)
    requires ValidIntt(z, c, p, m, mem, j) && h.Ok() && 0 <= c.zetaIndex < 128 && InttRequest(c, p).Ok()
    requires p' == InttClock(p, ADout0(mem), ADout1(mem), z[c.zetaIndex], c.butterfly, c.state == InttRun)
    requires mem' == MemEdge(mem, mem.setQ, InttRequest(c, p), m, h)
    requires j' == if InttControl(c).layer == c.layer then j else j.(x := HalfOf(mem', mem'.setQ).a)
    ensures ValidRegs(z, InttControl(c), p', m, mem', j') && Progress(z, c, m, InttControl(c), m, mem', j')
    ensures HostServed(mem, mem', mem.setQ, h) && mem'.setQ == mem.setQ
  {
    hide ValidRegs, Progress, MemEdge, HalfOf, InttControl, InttClock;
    StateOfIntt(z, c, p, m, mem, j);
    if c.state == InttRun { InttRunEdge(z, c, p, m, mem, j, h, p', mem', j'); } else { InttDrainEdge(z, c, p, m, mem, j, h, p', mem', j'); }
  }

  lemma StateOfIntt(z: Zetas, c: Control, p: Pipe, m: MulPipe, mem: Memory, j: Job)
    requires ValidIntt(z, c, p, m, mem, j)
    ensures c.state == InttRun || c.state == InttDrain
  {
  }

  lemma ShiftedBlocks(l: nat)
    requires l <= 7
    ensures Shifted(l) == Blocks(l)
  {
    assert Shifted(0) == 1 && Shifted(1) == 2 && Shifted(2) == 4 && Shifted(3) == 8;
    assert Shifted(4) == 16 && Shifted(5) == 32 && Shifted(6) == 64 && Shifted(7) == 128;
  }

  // ---------------------------------------------------------------- BaseMul edge

  /** Zeta of the pair in stage two; stages without a pair read the ROM all the same. */
  function StageZeta(z: Zetas, m: MulPipe): int {
    if m.idx2 < 128 then PairZeta(z, m.idx2) else 0
  }

  lemma MulEdge(z: Zetas, c: Control, m: MulPipe, mem: Memory, j: Job, h: Host, m': MulPipe, mem': Memory)
    requires ValidMul(z, c, m, mem, j) && h.Ok()
    requires m' == MulClock(m, ADout0(mem), ADout1(mem), BDout0(mem), BDout1(mem), StageZeta(z, m), c.bmPtr, c.state == MulRun)
    requires MulRequest(c).Ok() && (m.v8 ==> m.idx8 < 128) ==> mem' == MemEdge(mem, mem.setQ, MulRequest(c), m, h)
    ensures MulRequest(c).Ok() && (m.v8 ==> m.idx8 < 128)
    ensures forall p :: ValidRegs(z, MulControl(c, m), p, m', mem', j)
    ensures Progress(z, c, m, MulControl(c, m), m', mem', j)
    ensures HostServed(mem, mem', mem.setQ, h) && mem'.setQ == mem.setQ
  {
    hide View, BaseMulWords, MulMemory, MulStages, Parity, MemEdge, HalfOf, ADout0, ADout1, BDout0, BDout1, HostServed,
         PairZeta, MulRetired, MulClock;
    var t := MulTime(c, m);
    var x, y := j.found.a, j.found.b;
    MulShape(z, x, y, m, ADout0(mem), ADout1(mem), BDout0(mem), BDout1(mem), t);
    MulClockShape(m, ADout0(mem), ADout1(mem), BDout0(mem), BDout1(mem), StageZeta(z, m), c.bmPtr, c.state == MulRun);
    if c.state == MulRun { EvenOdd(c.bmPtr); }
    MemEdgeMeaning(mem, mem.setQ, MulRequest(c), m, h);
    MulMemoryAdvance(z, x, y, m, ADout0(mem), ADout1(mem), BDout0(mem), BDout1(mem), t, j.found.r, HalfOf(mem, mem.setQ).r);
    MulStagesAdvance(z, x, y, m, ADout0(mem), ADout1(mem), BDout0(mem), BDout1(mem), StageZeta(z, m), c.bmPtr,
                     c.state == MulRun, t, ADout0(mem'), ADout1(mem'), BDout0(mem'), BDout1(mem'));
    RetiredWords(HalfOf(mem, mem.setQ).r, m);
    if t == 135 { MulDone(z, x, y, j.found.r, HalfOf(mem', mem'.setQ).r); }
    MulShape(z, x, y, m', ADout0(mem'), ADout1(mem'), BDout0(mem'), BDout1(mem'), t + 1);
  }

  lemma RetiredWords(r: Poly, m: MulPipe)
    ensures m.v8 && m.idx8 < 128 ==>
      MulRetired(r, m) == r[2 * m.idx8 := Wrap16(m.p11z + m.p00D3)][2 * m.idx8 + 1 := Wrap16(m.p01D3 + m.p10D3)]
  {
  }

  lemma MulDone(z: Zetas, x: Poly, y: Poly, r0: Poly, r: Poly)
    requires MulMemory(z, x, y, r0, r, 136)
    ensures r == BaseMulWords(z, x, y)
  {
    hide BaseMulWords;
  }

  // ---------------------------------------------------------------- the machine

  class PolyAccelerator {
    const zetas: Zetas
    var ctl: Control
    var pipe: Pipe
    var mul: MulPipe
    var mem: Memory
    ghost var job: Job

    ghost predicate Valid()
      reads this
    {
      ValidRegs(zetas, ctl, pipe, mul, mem, job)
    }

    /** Clocks the running command still needs; 0 when idle. */
    ghost function Left(): int
      reads this
    {
      Remaining(ctl, mul)
    }

    constructor (rom: Zetas, powerUp: Memory, pipe0: Pipe, mul0: MulPipe)
      ensures Valid() && !ctl.busy && !ctl.done && Left() == 0 && zetas == rom && mem == powerUp
    {
      zetas := rom;
      ctl := Control(Idle, false, false, 0, 0, 0, 0, 0, 0, 0);
      pipe := pipe0.(v1 := false, v2 := false, v3 := false, v4 := false, v5 := false);
      mul := mul0.(v1 := false, v2 := false, v3 := false, v4 := false, v5 := false, v6 := false, v7 := false, v8 := false);
      mem := powerUp;
    }

    /** One rising edge.  Every register takes its next value from the old ones.

      `sel` names the half under computation and must not move while a command runs.  The host
      is served on the other half in every clock; an idle kernel changes nothing; a started
      command reaches its done pulse after exactly its latency, and then the half it ran on
      holds what the sequential loop nest computes from the half it found. */
    method Clock(start: bool, command: nat, sel: bool, h: Host)
      requires Valid() && h.Ok() && (ctl.busy ==> sel == mem.setQ)
      modifies this
      ensures Valid()
      ensures HostServed(old(mem), mem, sel, h)
      ensures !old(ctl.busy) && !start ==> !ctl.busy && !ctl.done && Left() == 0 && HalfOf(mem, sel) == HalfOf(old(mem), sel)
      ensures !old(ctl.busy) && start ==>
        && ctl.busy && !ctl.done && Left() == Latency(command)
        && job.command == command && job.found == HalfOf(old(mem), sel)
      ensures old(ctl.busy) ==>
        && Left() == old(Left()) - 1 >= 0
        && job.command == old(job.command) && job.found == old(job.found)
        && ctl.done == !ctl.busy && (ctl.busy <==> Left() > 0)
        && (ctl.done ==> HalfOf(mem, sel) == Executed(zetas, job.command, job.found))
    {
      hide ValidNtt, ValidScale, ValidIntt, ValidMul, HostServed, HalfOf, Executed, MulQuiet, Remaining;
      if ctl.state == Idle {
        if start { ClockStart(command, sel, h); } else { ClockIdle(sel, h); }
      } else {
        BusyMeaning(zetas, ctl, pipe, mul, mem, job);
        match ctl.state {
        case NttRun => ClockNtt(h);
        case NttDrain => ClockNtt(h);
        case ScaleRun => ClockScale(h);
        case ScaleDrain => ClockScale(h);
        case InttRun => ClockIntt(h);
        case InttDrain => ClockIntt(h);
        case MulRun => ClockMul(h);
        case MulDrain => ClockMul(h);
        }
        BusyMeaning(zetas, ctl, pipe, mul, mem, job);
      }
    }

    method ClockIdle(sel: bool, h: Host)
      requires Valid() && ctl.state == Idle && h.Ok()
      modifies this
      ensures Valid() && ctl.state == Idle && !ctl.done && Left() == 0
      ensures HostServed(old(mem), mem, sel, h) && HalfOf(mem, sel) == HalfOf(old(mem), sel)
    {
      hide HostServed, HalfOf, MemEdge;
      MemEdgeMeaning(mem, sel, Quiet(), mul, h);
      ctl, mem := ctl.(done := false), MemEdge(mem, sel, Quiet(), mul, h);
    }

    method ClockStart(command: nat, sel: bool, h: Host)
      requires Valid() && ctl.state == Idle && h.Ok()
      modifies this
      ensures Valid() && ctl.busy && !ctl.done && Left() == Latency(command)
      ensures job.command == command && job.found == HalfOf(old(mem), sel)
      ensures HostServed(old(mem), mem, sel, h)
    {
      hide HostServed, HalfOf, MemEdge, NttStages, NttMemory, ScaleStages, ScaleMemory, MulStages, MulMemory,
           IsLow, BlockOf, Base, ADout0, ADout1, BDout0, BDout1;
      MemEdgeMeaning(mem, sel, Quiet(), mul, h);
      job := Job(command, HalfOf(mem, sel), HalfOf(mem, sel).a);
      ctl, pipe, mem :=
        StartEdge(ctl, command),
        pipe.(v1 := false, v2 := false, v3 := false, v4 := false, v5 := false),
        MemEdge(mem, sel, Quiet(), mul, h);
      Begins(zetas, pipe, mul, mem, job);
    }

    method ClockNtt(h: Host)
      requires ValidNtt(zetas, ctl, pipe, mul, mem, job) && ctl.state in {NttRun, NttDrain} && h.Ok()
      modifies this
      ensures Valid() && Stepped(h)
    {
      hide HostServed, HalfOf, MemEdge, ValidNtt, NttClock, Executed, Remaining;
      NttDatapath(zetas, ctl, pipe, mul, mem, job, h);
      ghost var c, p, e, j := ctl, pipe, mem, job;
      ctl, pipe, mem :=
        NttControl(ctl),
        NttClock(pipe, ADout0(mem), ADout1(mem), zetas[ctl.zetaIndex], ctl.butterfly, ctl.state == NttRun),
        MemEdge(mem, mem.setQ, NttRequest(ctl, pipe), mul, h);
      if ctl.layer != c.layer { job := job.(x := HalfOf(mem, mem.setQ).a); }
      NttEdge(zetas, c, p, mul, e, j, h, pipe, mem, job);
    }

    /** The host was served, the clock counted, and the job is still the same. */
    twostate predicate Stepped(h: Host)
      requires h.Ok()
      reads this
    {
      && job.command == old(job.command) && job.found == old(job.found)
      && Progress(zetas, old(ctl), old(mul), ctl, mul, mem, job)
      && HostServed(old(mem), mem, old(mem.setQ), h) && mem.setQ == old(mem.setQ)
    }

    method ClockScale(h: Host)
      requires ValidScale(zetas, ctl, pipe, mul, mem, job) && ctl.state in {ScaleRun, ScaleDrain} && h.Ok()
      modifies this
      ensures Valid() && Stepped(h)
    {
      hide HostServed, HalfOf, MemEdge, ValidScale, ScaleClock, Executed, Remaining;
      ghost var c, p, e, j := ctl, pipe, mem, job;
      ScaleRequestOk(zetas, c, p, mul, e, j);
      var next := ScaleClock(pipe, ADout0(mem), ctl.butterfly, ctl.state == ScaleRun);
      ctl, mem, pipe :=
        ScaleControl(ctl),
        MemEdge(mem, mem.setQ, ScaleRequest(ctl, pipe), mul, h),
        if ScaleControl(ctl).state == InttRun then next.(v1 := false, v2 := false, v3 := false, v4 := false, v5 := false)
        else next;
      if ctl.state == InttRun { job := job.(x := HalfOf(mem, mem.setQ).a); }
      ScaleEdge(zetas, c, p, mul, e, j, h, pipe, mem, job);
    }

    method ClockIntt(h: Host)
      requires ValidIntt(zetas, ctl, pipe, mul, mem, job) && ctl.state in {InttRun, InttDrain} && h.Ok()
      modifies this
      ensures Valid() && Stepped(h)
    {
      hide HostServed, HalfOf, MemEdge, ValidIntt, InttClock, Executed, Remaining;
      InttDatapath(zetas, ctl, pipe, mul, mem, job, h);
      ghost var c, p, e, j := ctl, pipe, mem, job;
      ctl, pipe, mem :=
        InttControl(ctl),
        InttClock(pipe, ADout0(mem), ADout1(mem), zetas[ctl.zetaIndex], ctl.butterfly, ctl.state == InttRun),
        MemEdge(mem, mem.setQ, InttRequest(ctl, pipe), mul, h);
      if ctl.layer != c.layer { job := job.(x := HalfOf(mem, mem.setQ).a); }
      InttEdge(zetas, c, p, mul, e, j, h, pipe, mem, job);
    }

    method ClockMul(h: Host)
      requires ValidMul(zetas, ctl, mul, mem, job) && ctl.state in {MulRun, MulDrain} && h.Ok()
      modifies this
      ensures Valid() && Stepped(h)
    {
      hide HostServed, HalfOf, MemEdge, ValidMul, MulClock, Executed, Remaining;
      ghost var c, m, e := ctl, mul, mem;
      MulRequestOk(zetas, c, m, e, job);
      ctl, mul, mem :=
        MulControl(ctl, mul),
        MulClock(mul, ADout0(mem), ADout1(mem), BDout0(mem), BDout1(mem), StageZeta(zetas, mul), ctl.bmPtr, ctl.state == MulRun),
        MemEdge(mem, mem.setQ, MulRequest(ctl), mul, h);
      MulEdge(zetas, c, m, e, job, h, mul, mem);
      assert ValidRegs(zetas, ctl, pipe, mul, mem, job);
    }
  }

  lemma BusyMeaning(z: Zetas, c: Control, p: Pipe, m: MulPipe, mem: Memory, j: Job)
    requires ValidRegs(z, c, p, m, mem, j)
    ensures c.busy <==> c.state != Idle
  {
  }

  lemma ScaleRequestOk(z: Zetas, c: Control, p: Pipe, m: MulPipe, mem: Memory, j: Job)
    requires ValidScale(z, c, p, m, mem, j)
    ensures ScaleRequest(c, p).Ok() && !m.v8
  {
    hide ScaleMemory;
  }

  lemma MulRequestOk(z: Zetas, c: Control, m: MulPipe, mem: Memory, j: Job)
    requires ValidMul(z, c, m, mem, j)
    ensures MulRequest(c).Ok() && (m.v8 ==> m.idx8 < 128)
  {
    hide MulMemory, Parity;
  }

  /** A kernel with empty pipelines holds the invariant of the command it starts. */
  lemma Begins(z: Zetas, p: Pipe, m: MulPipe, mem: Memory, j: Job)
    requires !p.v1 && !p.v2 && !p.v3 && !p.v4 && !p.v5 && MulQuiet(m)
    requires j.found == HalfOf(mem, mem.setQ) && j.x == j.found.a
    ensures NttStages(z, j.x, 1, p, ADout0(mem), ADout1(mem), 0) && NttMemory(z, j.x, 1, p, j.x, 0)
    ensures IsLow(1, 0) && BlockOf(0, 0) == 0 && Base(0, 0) == 0
    ensures ScaleStages(j.x, p, ADout0(mem), 0) && ScaleMemory(j.x, p, j.x, 0)
    ensures MulStages(z, j.found.a, j.found.b, m, ADout0(mem), ADout1(mem), BDout0(mem), BDout1(mem), 0)
    ensures MulMemory(z, j.found.a, j.found.b, j.found.r, j.found.r, 0)
  {
    hide HalfOf, BaseMulWords, ScalePass, NttLayer;
    NttLayerBegins(z, j.x, 1, p, ADout0(mem), ADout1(mem));
  }
}
