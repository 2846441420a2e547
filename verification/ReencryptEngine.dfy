/** The clocked K-PKE re-encryption engine: one state register, a fail register, four controllers, the
  shared hash engine, and the memory port passed from one to the next. */
module ReencryptEngine {
  import opened Bytes
  import opened ModQ
  import opened Ring
  import opened Kernel
  import opened PolyRam
  import opened Layout
  import opened Messages
  import opened Decrypt
  import opened Encoding
  import opened SampleJobs
  import opened Reencrypt
  import opened Sequencer
  import AddSub
  import Bridge
  import HashEngine
  import HashFeeder
  import Kpke
  import PackCompare
  import Sponge
  import Unity
  import WriteMsg

  // ---------------------------------------------------------------- the schedule

  /** What a start and wait pair of states does. */
  datatype Step =
    | Write
    | Hash(o: HashFeeder.Operands)
    | Kernel(c: Bridge.Command, last: bool)
    | Sum(d: AddSub.Command)
    | Compare(pass: PackCompare.Job)

  const N: nat := 31

  type Pair = k: nat | k < N

  /** FM, NS0, NS1, NE0, NE1, NEP, NT0 and NT1. */
  function Opening(coins: Seed): (s: seq<Step>)
    ensures |s| == 8
  {
    [Write,
     Hash(NoiseJob(coins, 0, true, 2)), Hash(NoiseJob(coins, 1, true, 3)), Hash(NoiseJob(coins, 2, false, 4)),
     Hash(NoiseJob(coins, 3, false, 5)), Hash(NoiseJob(coins, 4, false, 6)),
     Kernel(TRANSFORM0, false), Kernel(TRANSFORM1, true)]
  }

  /** M, B, M, B, AB, IB, EB and CB of one row. */
  function RowSteps(rho: Seed, row: Byte): (s: seq<Step>)
    requires row < 2
    ensures |s| == 8
  {
    [Hash(FirstJob(rho, row)), Kernel(ROW0, true), Hash(SecondJob(rho, row)), Kernel(ROW1, true),
     Sum(ADD), Kernel(BACK, true), Sum(AddError(4 + row)), Compare(RowPass(row))]
  }

  function RowPass(row: Byte): (j: PackCompare.Job)
    requires row < 2
    ensures j.Ok()
  {
    PackCompare.Job(row == 0, false, 10, 320 * row)
  }

  const LAST: PackCompare.Job := PackCompare.Job(false, true, 11, 640)

  /** VP0, VP1, VA, VI, VE, VM and CV. */
  function Closing(): (s: seq<Step>)
    ensures |s| == 7
  {
    [Kernel(KEY0, false), Kernel(KEY1, true), Sum(ADD), Kernel(BACK, true), Sum(AddError(6)), Sum(ADDMESSAGE), Compare(LAST)]
  }

  function StepAt(rho: Seed, coins: Seed, k: Pair): Step {
    if k < 8 then Opening(coins)[k]
    else if k < 16 then RowSteps(rho, 0)[k - 8]
    else if k < 24 then RowSteps(rho, 1)[k - 16]
    else Closing()[k - 24]
  }

  /** The jobs a step may hold, and when its command stays queued. */
  predicate Proper(s: Step) { (s.Hash? ==> IsSampling(s.o)) && (s.Compare? ==> s.pass.Ok()) }

  predicate Queues(s: Step) { s.Kernel? && !s.last }

  lemma ProperJob(s: Step)
    requires Proper(s)
    ensures (s.Hash? ==> IsSampling(s.o)) && (s.Compare? ==> s.pass.Ok())
  {
  }

  lemma ProperSteps(rho: Seed, coins: Seed, k: Pair)
    ensures Proper(StepAt(rho, coins, k))
    ensures Queues(StepAt(rho, coins, k)) ==> k + 1 < N && StepAt(rho, coins, k + 1).Kernel?
  {
  }

  // ---------------------------------------------------------------- what the schedule does to the slots

  /** What a run works on: the memories, the permutation, its inputs, the slots it found, and the flag the
      last comparison left. */
  datatype Job = Job(z: Zetas, f: Sponge.Permutation, m: Message, rho: Seed, coins: Seed, ct: Ciphertext, was: Slots, seen: bool)

  /** The memory between two pairs, the fail register and the comparison flag. */
  datatype Mark = Mark(at: Point, fail: bool, differs: bool)

  function Passed(j: Job, q: Mark, s: Step): Mark
    requires Proper(s)
  {
    var b := q.at.base;
    match s
    case Write => q.(at := Point(WriteMsg.Execute(j.m, 7, b), []))
    case Hash(o) => Mark(Point(b[o.slot := Outcome(j.f, o, b[o.slot])], []), q.fail || Fails(j.f, o), q.differs)
    case Kernel(c, last) => q.(at := KernelPassed(j.z, q.at, c, last))
    case Sum(d) => q.(at := Point(AddSub.Execute(d, b), []))
    case Compare(pass) => Mark(Point(b, []), q.fail, PackCompare.Flagged(pass, q.differs, j.ct, b))
  }

  function MarkAt(j: Job, k: nat): Mark
    requires k <= N
  {
    if k == 0 then Mark(Point(j.was, []), false, j.seen)
    else (ProperSteps(j.rho, j.coins, k - 1); Passed(j, MarkAt(j, k - 1), StepAt(j.rho, j.coins, k - 1)))
  }

  lemma Passes(j: Job, k: Pair)
    ensures Proper(StepAt(j.rho, j.coins, k)) && MarkAt(j, k + 1) == Passed(j, MarkAt(j, k), StepAt(j.rho, j.coins, k))
  {
    hide Passed, StepAt, Proper;
    ProperSteps(j.rho, j.coins, k);
  }

  lemma StartsAt(j: Job)
    ensures MarkAt(j, 0) == Mark(Point(j.was, []), false, j.seen)
  {
  }

  /** Commands are queued exactly behind a kernel command that was not the last of its run. */
  lemma QueuedAt(j: Job, k: nat)
    requires k <= N
    ensures MarkAt(j, k).at.queued != [] <==> k > 0 && Queues(StepAt(j.rho, j.coins, k - 1))
    ensures MarkAt(j, k).at.queued != [] ==> k < N && StepAt(j.rho, j.coins, k).Kernel?
  {
    hide StepAt, MarkAt, Outcome, Bridge.Overlapped, AddSub.Execute, WriteMsg.Execute, PackCompare.Flagged;
    if k == 0 { StartsAt(j); } else { Passes(j, k - 1); ProperSteps(j.rho, j.coins, k - 1); }
  }

  lemma PassedWords(j: Job, q: Mark, s: Step)
    requires Proper(s) && WordSlots(q.at.base)
    ensures WordSlots(Passed(j, q, s).at.base)
  {
    hide Outcome, Bridge.Overlapped, AddSub.AddSubPoly, PackCompare.Flagged, Words;
    match s
    case Write => MessageWords(j.m);
    case Hash(o) => OutcomeWords(j.f, o, q.at.base[o.slot]);
    case Kernel(c, last) => OverlappedWords(j.z, q.at.queued + [c], q.at.base);
    case Sum(d) => SumKeepsWords(d, q.at.base);
    case Compare(_) =>
  }

  lemma MessageWords(m: Message)
    ensures Words(FromMessage(m))
  {
  }

  /** Every add/sub step finds 16-bit words, whatever the samples are. */
  lemma {:induction false} WordsAt(j: Job, k: nat)
    requires k <= N && WordSlots(j.was)
    ensures WordSlots(MarkAt(j, k).at.base)
  {
    hide MarkAt, StepAt, Passed, Proper, WordSlots;
    if k == 0 { StartsAt(j); } else {
      WordsAt(j, k - 1);
      Passes(j, k - 1);
      PassedWords(j, MarkAt(j, k - 1), StepAt(j.rho, j.coins, k - 1));
    }
  }

  // ---------------------------------------------------------------- the marks of the schedule

  function Raw(j: Job): Slots {
    NoiseSlots(StandardSamples(j.f, j.rho, j.coins), j.was[7 := FromMessage(j.m)])
  }

  function Ready(j: Job): Slots { Bridge.Overlapped(j.z, [TRANSFORM0, TRANSFORM1], Raw(j)) }

  lemma NoiseMarks(j: Job)
    ensures MarkAt(j, 6) == Mark(Point(Raw(j), []), false, j.seen)
  {
    hide MarkAt, NoisePoly, FromMessage, MatrixEntry;
    StartsAt(j);
    Passes(j, 0);
    Passes(j, 1);
    Passes(j, 2);
    Passes(j, 3);
    Passes(j, 4);
    Passes(j, 5);
  }

  lemma OpeningMarks(j: Job)
    ensures MarkAt(j, 8) == Mark(Point(Ready(j), []), false, j.seen)
  {
    hide MarkAt, Raw, Bridge.Overlapped;
    NoiseMarks(j);
    Passes(j, 6);
    Passes(j, 7);
    assert [] + [TRANSFORM0] == [TRANSFORM0] && [TRANSFORM0] + [TRANSFORM1] == [TRANSFORM0, TRANSFORM1];
  }

  predicate RowFails(j: Job, row: Byte)
  {
    Fails(j.f, FirstJob(j.rho, row)) || Fails(j.f, SecondJob(j.rho, row))
  }

  /** Pair i of row `row`. */
  lemma RowPasses(j: Job, row: Byte, i: nat)
    requires row < 2 && i < 8
    ensures Proper(RowSteps(j.rho, row)[i])
    ensures MarkAt(j, 8 + 8 * row + i + 1) == Passed(j, MarkAt(j, 8 + 8 * row + i), RowSteps(j.rho, row)[i])
  {
    hide MarkAt, Passed, RowSteps, Proper;
    assert StepAt(j.rho, j.coins, 8 + 8 * row + i) == RowSteps(j.rho, row)[i];
    Passes(j, 8 + 8 * row + i);
  }

  /** The slots after the two matrix jobs and their products. */
  function Products(j: Job, row: Byte, slots: Slots): Slots {
    var a0 := Outcome(j.f, FirstJob(j.rho, row), slots[8]);
    One(j.z, ROW1, One(j.z, ROW0, slots[8 := a0])[8 := Outcome(j.f, SecondJob(j.rho, row), a0)])
  }

  lemma ProductMarks(j: Job, row: Byte, slots: Slots, fail: bool, differs: bool)
    requires row < 2 && MarkAt(j, 8 + 8 * row) == Mark(Point(slots, []), fail, differs)
    ensures MarkAt(j, 12 + 8 * row) == Mark(Point(Products(j, row, slots), []), fail || RowFails(j, row), differs)
  {
    hide MarkAt, Outcome, Fails, Bridge.Overlapped, Bridge.Serial, AddSub.Execute, PackCompare.Flagged;
    var k, a0 := 8 + 8 * row, Outcome(j.f, FirstJob(j.rho, row), slots[8]);
    SecondFinds(j.z, slots, a0);
    RowPasses(j, row, 0);
    RowPasses(j, row, 1);
    RowPasses(j, row, 2);
    RowPasses(j, row, 3);
    assert [] + [ROW0] == [ROW0] && [] + [ROW1] == [ROW1];
    AloneInOrder(j.z, ROW0, MarkAt(j, k + 1).at.base);
    AloneInOrder(j.z, ROW1, MarkAt(j, k + 3).at.base);
  }

  /** One whole row, from the first job to the comparison. */
  lemma RowMarks(j: Job, row: Byte, slots: Slots, fail: bool, differs: bool)
    requires row < 2 && MarkAt(j, 8 + 8 * row) == Mark(Point(slots, []), fail, differs)
    ensures var end := SampledRow(j.f, j.z, slots, j.rho, row, 4 + row);
      MarkAt(j, 16 + 8 * row) == Mark(Point(end, []), fail || RowFails(j, row), PackCompare.Flagged(RowPass(row), differs, j.ct, end))
  {
    hide MarkAt, Outcome, RowFails, Bridge.Overlapped, Bridge.Serial, AddSub.Execute, PackCompare.Flagged;
    ProductMarks(j, row, slots, fail, differs);
    RowPasses(j, row, 4);
    RowPasses(j, row, 5);
    RowPasses(j, row, 6);
    RowPasses(j, row, 7);
    assert [] + [BACK] == [BACK];
    AloneInOrder(j.z, BACK, MarkAt(j, 13 + 8 * row).at.base);
  }

  lemma ClosingMarks(j: Job, slots: Slots, fail: bool, differs: bool)
    requires MarkAt(j, 24) == Mark(Point(slots, []), fail, differs)
    ensures MarkAt(j, 31) == Mark(Point(MessageSlots(j.z, slots), []), fail,
                                  PackCompare.Flagged(LAST, differs, j.ct, MessageSlots(j.z, slots)))
  {
    hide MarkAt, Bridge.Overlapped, Bridge.Serial, AddSub.Execute, PackCompare.Flagged;
    Passes(j, 24);
    Passes(j, 25);
    Passes(j, 26);
    Passes(j, 27);
    Passes(j, 28);
    Passes(j, 29);
    Passes(j, 30);
    assert [] + [KEY0] == [KEY0] && [KEY0] + [KEY1] == [KEY0, KEY1] && [] + [BACK] == [BACK];
    PairInOrder(j.z, KEY0, KEY1, slots);
    AloneInOrder(j.z, BACK, MarkAt(j, 27).at.base);
  }

  /** The fail register and the sticky flag together. */
  predicate Rejected(j: Job) { MarkAt(j, 31).fail || MarkAt(j, 31).differs }

  /** The three passes compare the three rows found in the slots. */
  lemma Verdict(j: Job)
    ensures var one := SampledRow(j.f, j.z, Ready(j), j.rho, 0, 4); var two := SampledRow(j.f, j.z, one, j.rho, 1, 5);
      var three := MessageSlots(j.z, two);
      Rejected(j) <==>
        || Starved(j.f, j.rho)
        || j.ct[0..320] != Encoded(one[10], false) || j.ct[320..640] != Encoded(two[10], false)
        || j.ct[640..768] != Encoded(three[11], true)
  {
    hide MarkAt, SampledRow, MessageSlots, Ready, Fails, Starved, Encoded;
    var one := SampledRow(j.f, j.z, Ready(j), j.rho, 0, 4);
    var two := SampledRow(j.f, j.z, one, j.rho, 1, 5);
    OpeningMarks(j);
    RowMarks(j, 0, Ready(j), false, j.seen);
    RowMarks(j, 1, one, MarkAt(j, 16).fail, MarkAt(j, 16).differs);
    ClosingMarks(j, two, MarkAt(j, 24).fail, MarkAt(j, 24).differs);
    StarvedMeans(j.f, j.rho);
  }

  /** The slots a run may find: 16-bit words, with a public key of 12-bit values in slots 0 and 1. */
  ghost predicate Fit(j: Job) {
    GoodRom(j.z) && WordSlots(j.was) && Bounded(j.was[0], 4095) && Bounded(j.was[1], 4095)
  }

  function Expected(j: Job): seq<Byte> {
    Reencrypted(Unity.StandardRoots(), StandardSamples(j.f, j.rho, j.coins), j.was[0], j.was[1], j.m)
  }

  lemma RomIsStandard(z: Zetas)
    requires GoodRom(z)
    ensures Unity.CongRoots(RootsOf(z), Unity.StandardRoots())
  {
  }

  /** A mismatch is reported exactly when a matrix stream was too short or the ciphertext is not the
      encryption of the message under these coins. */
  lemma RejectedExactly(j: Job)
    requires Fit(j)
    ensures Rejected(j) <==> Starved(j.f, j.rho) || j.ct != Expected(j)
  {
    hide Rejected, Starved, SampledRow, MessageSlots, RowSlots, Encoded, StandardSamples, Prepared, Sampled, Reencrypted, GoodRom, RootsOf,
         WordSlots, MatrixEntry, Fails, Bridge.Overlapped, Unity.StandardRoots, Unity.CongRoots;
    Verdict(j);
    RomIsStandard(j.z);
    SelfCong(j.was[0]);
    SelfCong(j.was[1]);
    Kpke.ReencryptedRoots(RootsOf(j.z), Unity.StandardRoots(), StandardSamples(j.f, j.rho, j.coins), j.was[0], j.was[0], j.was[1], j.was[1], j.m);
    if !Starved(j.f, j.rho) {
      var s := StandardSamples(j.f, j.rho, j.coins);
      StarvedMeans(j.f, j.rho);
      StandardRanges(j.f, j.rho, j.coins);
      StandardEntries(j.f, j.rho, j.coins);
      Prepares(j.z, s, j.m, j.was);
      SampledRowMeaning(j.f, j.z, Ready(j), j.rho, 0, 4);
      SampledRowMeaning(j.f, j.z, SampledRow(j.f, j.z, Ready(j), j.rho, 0, 4), j.rho, 1, 5);
      ComparisonDecides(j.z, s, j.m, j.was[0], j.was[1], j.ct, Ready(j));
    }
  }

  // ---------------------------------------------------------------- the engine

  /** What the contract of a hash command says of a sampling job. */
  lemma JobDone(f: Sponge.Permutation, o: HashFeeder.Operands, sk: SecretKey, ct: Ciphertext, was: Slots, slots: Slots, error: bool,
                digest: seq<Byte>)
    requires IsSampling(o) && HashEngine.Outcome(f, o, sk, ct, was, slots, error, digest)
    ensures slots == was[o.slot := Outcome(f, o, was[o.slot])] && (error <==> Fails(f, o))
  {
    hide HashEngine.Stream, HashEngine.Placed, HashEngine.Noise, NoisePoly, Entries;
    if o.cmd == HashFeeder.MATRIX { MatrixOutcome(f, o, sk, ct); } else { NoiseOutcome(f, o, sk, ct, was[o.slot]); }
  }

  /** A plain count of clocks, ordered among the hash engine's. */
  function Plain(n: int): HashEngine.Work { HashEngine.Work(0, 0, 0, 0, if n < 0 then 0 else n) }

  class KpkeReencryptEngine {
    const hash: HashEngine.SharedHashEngine
    const frommsg: WriteMsg.WriteMsgController
    const bridge: Bridge.PolyBridge
    const addsub: AddSub.AddSubController
    const compare: PackCompare.PackCompareController
    var state: State
    var hashFail: bool
    ghost var job: Job

    /** Where the memory stands: before the pair of a start state and during that of a wait state. */
    ghost function Here(): Mark
      requires InRange(N, state)
      reads this
    {
      match state case Start(k) => MarkAt(job, k) case Wait(k) => MarkAt(job, k) case _ => MarkAt(job, N)
    }

    /** The pair a state belongs to; the idle and done states leave the port where Compare has it. */
    function StepOf(s: State, rho: Seed, coins: Seed): (r: Step)
      requires InRange(N, s)
    {
      match s case Start(k) => StepAt(rho, coins, k) case Wait(k) => StepAt(rho, coins, k) case _ => Compare(LAST)
    }

    ghost predicate Others(s: Step, differs: bool)
      reads hash, frommsg, bridge, bridge.core, addsub, compare
    {
      && (!s.Hash? ==> hash.Resting()) && (!s.Write? ==> frommsg.Resting()) && (!s.Kernel? ==> bridge.Resting())
      && (!s.Sum? ==> addsub.Resting()) && (!s.Compare? ==> compare.Resting() && compare.Mismatch() == differs)
    }

    ghost predicate AllRest()
      reads hash, frommsg, bridge, bridge.core, addsub, compare
    {
      hash.Resting() && frommsg.Resting() && bridge.Resting() && addsub.Resting() && compare.Resting()
    }

    /** Ready for the next step: the slots are those of the mark, or its commands are queued in a bridge
        that has room. */
    ghost predicate Primed(q: Mark, ram: Ram)
      reads hash, frommsg, bridge, bridge.core, addsub, compare
    {
      && hash.Resting() && frommsg.Resting() && addsub.Resting() && compare.Resting() && compare.Mismatch() == q.differs
      && if q.at.queued == [] then bridge.Resting() && ram.slots == q.at.base
         else bridge.Working(q.at.queued, q.at.base, ram) && bridge.IsReady()
    }

    /** Step s, which found mark q, is under way. */
    ghost predicate AtWork(s: Step, q: Mark, m: Message, sk: SecretKey, ct: Ciphertext, ram: Ram)
      reads hash, frommsg, bridge, bridge.core, addsub, compare
    {
      Others(s, q.differs) && match s
      case Write => frommsg.Working(m, 7, q.at.base, ram)
      case Hash(o) => hash.Working(o, q.at.base, ram, sk, ct)
      case Kernel(c, last) => bridge.Working(q.at.queued + [c], q.at.base, ram) && (last || bridge.Waiting())
      case Sum(d) => addsub.Working(d, q.at.base, ram)
      case Compare(pass) => compare.Working(pass, q.differs, ram, ct) && ram.slots == q.at.base
    }

    ghost predicate Valid(sk: SecretKey, ram: Ram)
      reads this, hash, frommsg, bridge, bridge.core, addsub, compare
    {
      && GoodRom(bridge.core.zetas) && InRange(N, state)
      && (state != Idle ==> job.z == bridge.core.zetas && job.f == hash.f && Fit(job) && hashFail == Here().fail)
      && match state
         case Idle => AllRest()
         case Start(k) => Primed(Here(), ram)
         case Wait(k) => AtWork(StepOf(state, job.rho, job.coins), Here(), job.m, sk, job.ct, ram)
         case Done => AllRest() && compare.Mismatch() == Here().differs
    }

    /** The flag step s waits for. */
    predicate Finished(s: Step)
      reads hash, frommsg, bridge, bridge.core, addsub, compare
    {
      match s
      case Write => frommsg.Done()
      case Hash(_) => hash.AtDone()
      case Kernel(_, last) => if last then bridge.AtDone() else bridge.IsReady()
      case Sum(_) => addsub.AtDone()
      case Compare(_) => compare.AtDone()
    }

    predicate Mismatch()
      reads this, compare
    {
      compare.Mismatch() || hashFail
    }

    ghost predicate Resting()
      reads this, hash, frommsg, bridge, bridge.core, addsub, compare
    {
      state == Idle && GoodRom(bridge.core.zetas) && AllRest()
    }

    /** Clocks until the unit of step s is done. */
    ghost function Clocks(s: Step): HashEngine.Work
      reads hash, frommsg, bridge, bridge.core, addsub, compare
    {
      match s
      case Write => Plain(WriteMsg.Left(frommsg.x))
      case Hash(_) => hash.Clocks()
      case Kernel(_, _) => Plain(bridge.Bound())
      case Sum(_) => Plain(AddSub.Left(addsub.r))
      case Compare(_) => Plain(PackCompare.Left(compare.x))
    }

    constructor (h: HashEngine.SharedHashEngine, w: WriteMsg.WriteMsgController, b: Bridge.PolyBridge, a: AddSub.AddSubController,
                 c: PackCompare.PackCompareController)
      requires h.Resting() && w.Resting() && b.Resting() && a.Resting() && c.Resting() && GoodRom(b.core.zetas)
      ensures Resting() && !hashFail
      ensures hash == h && frommsg == w && bridge == b && addsub == a && compare == c
    {
      hash, frommsg, bridge, addsub, compare := h, w, b, a, c;
      state, hashFail := Idle, false;
      job := Job(b.core.zetas, h.f, seq(256, _ => false), Unused(), Unused(), seq(768, _ => 0), seq(12, _ => ZeroPoly()), false);
    }

    /** The hash engine is clocked; its error flag is heard in its done state. */
    method ClockHash(s: Step, go: bool, ghost on: bool, ghost base: Slots, sk: SecretKey, ct: Ciphertext, delay: nat, ram: Ram)
      returns (ram': Ram, error: bool)
      requires Proper(s) && !(go && on)
      requires if on && s.Hash? then hash.Working(s.o, base, ram, sk, ct) else hash.Resting()
      modifies hash
      ensures error ==> on && s.Hash? && old(hash.AtDone())
      ensures if go && s.Hash? then hash.Working(s.o, ram.slots, ram', sk, ct)
              else if on && s.Hash? && !old(hash.AtDone()) then hash.Working(s.o, base, ram', sk, ct) && HashEngine.Smaller(hash.Clocks(), old(hash.Clocks()))
              else hash.Resting()
      ensures on && s.Hash? && old(hash.AtDone()) ==>
        ram'.slots == ram.slots == base[s.o.slot := Outcome(hash.f, s.o, base[s.o.slot])] && (error <==> Fails(hash.f, s.o))
    {
      hide Outcome, Fails, HashEngine.Outcome, HashEngine.Smaller, HashEngine.WorkOf, HashEngine.Inv, HashEngine.InRange, Proper;
      error := hash.AtDone() && hash.e.w.error;
      ghost var done, e, digest := hash.AtDone(), hash.e.w.error, hash.e.w.digest;
      var o := if s.Hash? then s.o else NoiseJob(Unused(), 0, false, 2);
      ram' := hash.Step(go && s.Hash?, o, o, base, sk, ct, delay, ram);
      if on && s.Hash? && done {
        ProperJob(s);
        JobDone(hash.f, s.o, sk, ct, base, ram'.slots, e, digest);
      }
    }

    method ClockCompare(s: Step, go: bool, ghost on: bool, ghost differs: bool, ct: Ciphertext, ram: Ram)
      returns (ram': Ram)
      requires Proper(s) && !(go && on)
      requires if on && s.Compare? then compare.Working(s.pass, differs, ram, ct) else compare.Resting() && compare.Mismatch() == differs
      modifies compare
      ensures ram'.slots == ram.slots
      ensures if go && s.Compare? then compare.Working(s.pass, differs, ram', ct)
              else if on && s.Compare? && !old(compare.AtDone())
              then compare.Working(s.pass, differs, ram', ct) && HashEngine.Smaller(Plain(PackCompare.Left(compare.x)), old(Plain(PackCompare.Left(compare.x))))
              else compare.Resting()
                   && compare.Mismatch() == if on && s.Compare? then PackCompare.Flagged(s.pass, differs, ct, ram.slots) else differs
    {
      hide PackCompare.Flagged, PackCompare.MismatchOut, PackCompare.Inv, PackCompare.InRange, Proper;
      ProperJob(s);
      var pass := if s.Compare? then s.pass else LAST;
      ram' := compare.Step(go && s.Compare?, pass, pass, differs, ct, ram);
    }

    method ClockWrite(s: Step, go: bool, ghost on: bool, ghost base: Slots, m: Message, ram: Ram) returns (ram': Ram)
      requires !(go && on)
      requires if on && s.Write? then frommsg.Working(m, 7, base, ram) else frommsg.Resting()
      modifies frommsg
      ensures if go && s.Write? then frommsg.Working(m, 7, ram.slots, ram')
              else if on && s.Write? && !old(frommsg.Done())
              then frommsg.Working(m, 7, base, ram') && HashEngine.Smaller(Plain(WriteMsg.Left(frommsg.x)), old(Plain(WriteMsg.Left(frommsg.x))))
              else frommsg.Resting()
      ensures on && s.Write? && old(frommsg.Done()) ==> ram'.slots == WriteMsg.Execute(m, 7, base)
    {
      hide WriteMsg.Execute, WriteMsg.Inv;
      ram' := frommsg.Clock(go && s.Write?, m, 7, base, ram);
    }

    method ClockSum(s: Step, go: bool, ghost on: bool, ghost base: Slots, ram: Ram) returns (ram': Ram)
      requires !(go && on) && (go && s.Sum? ==> AddSub.Sources(ram.slots, s.d))
      requires if on && s.Sum? then addsub.Working(s.d, base, ram) else addsub.Resting()
      modifies addsub
      ensures if go && s.Sum? then addsub.Working(s.d, ram.slots, ram')
              else if on && s.Sum? && !old(addsub.AtDone())
              then addsub.Working(s.d, base, ram') && HashEngine.Smaller(Plain(AddSub.Left(addsub.r)), old(Plain(AddSub.Left(addsub.r))))
              else addsub.Resting()
      ensures on && s.Sum? && old(addsub.AtDone()) ==> ram'.slots == AddSub.Execute(s.d, base)
    {
      hide AddSub.Sources, AddSub.Execute, AddSub.AddSubController.Valid;
      var d := if s.Sum? then s.d else ADD;
      ram' := addsub.Step(go && s.Sum?, d, d, base, ram);
    }

    /** The bridge, whose commands may stay queued from step to step. */
    method ClockKernel(s: Step, go: bool, ghost on: bool, ghost p: Point, ram: Ram) returns (ram': Ram)
      requires !(go && on) && (go && p.queued == [] ==> ram.slots == p.base)
      requires if on && s.Kernel? then bridge.Working(p.queued + [s.c], p.base, ram) && (s.last || bridge.Waiting())
               else if go && p.queued != [] then s.Kernel? && bridge.Working(p.queued, p.base, ram) && bridge.IsReady()
               else bridge.Resting()
      modifies bridge, bridge.core
      ensures if go && s.Kernel? then bridge.Working(p.queued + [s.c], p.base, ram') && bridge.Waiting()
              else if on && s.Kernel? && !old(Finished(s))
              then bridge.Working(p.queued + [s.c], p.base, ram') && (s.last || bridge.Waiting()) && HashEngine.Smaller(Plain(bridge.Bound()), old(Plain(bridge.Bound())))
              else if on && Queues(s) then bridge.Working(p.queued + [s.c], p.base, ram') && bridge.IsReady()
              else bridge.Resting()
      ensures on && s.Kernel? && s.last && old(bridge.AtDone()) ==>
        ram'.slots == Bridge.Overlapped(bridge.core.zetas, p.queued + [s.c], p.base)
    {
      hide Bridge.Overlapped, Bridge.PolyBridge.Valid, Bridge.PolyBridge.IsReady, Bridge.Busy, Bridge.Unlaunched;
      assert [] + [if s.Kernel? then s.c else BACK] == [if s.Kernel? then s.c else BACK];
      ram' := bridge.Step(go && s.Kernel?, if s.Kernel? then s.c else Bridge.Command(0, 0, 0, 0),
                          if on && s.Kernel? then p.queued + [s.c] else p.queued, p.base, ram);
    }

    /** Every controller is clocked, and the one step s uses has the polynomial memory. */
    method ClockUnits(s: Step, go: bool, ghost on: bool, ghost j: Job, ghost q: Mark, m: Message, sk: SecretKey, ct: Ciphertext,
                      delay: nat, ram: Ram)
      returns (ram': Ram, error: bool)
      requires Proper(s) && !(go && on)
      requires if go then Primed(q, ram) else if on then AtWork(s, q, m, sk, ct, ram) else AllRest() && s == Compare(LAST) && compare.Mismatch() == q.differs
      requires go ==> (s.Kernel? || q.at.queued == []) && (s.Sum? ==> AddSub.Sources(q.at.base, s.d))
      requires j.m == m && j.ct == ct && j.z == bridge.core.zetas && j.f == hash.f
      modifies hash, frommsg, bridge, bridge.core, addsub, compare
      ensures go ==> AtWork(s, q, m, sk, ct, ram')
      ensures on && !old(Finished(s)) ==> AtWork(s, q, m, sk, ct, ram') && HashEngine.Smaller(Clocks(s), old(Clocks(s)))
      ensures on && old(Finished(s)) ==> Primed(Passed(j, q, s), ram') && (q.fail || error) == Passed(j, q, s).fail
      ensures error ==> on && old(Finished(s))
      ensures !go && !on ==> AllRest() && compare.Mismatch() == q.differs && ram'.slots == ram.slots
    {
      hide Outcome, Fails, AddSub.Sources, AddSub.Execute, WriteMsg.Execute, Bridge.Overlapped, PackCompare.Flagged, Proper,
           HashEngine.SharedHashEngine.Working, HashEngine.SharedHashEngine.Resting, HashEngine.SharedHashEngine.Clocks,
           PackCompare.PackCompareController.Working, PackCompare.PackCompareController.Resting, PackCompare.PackCompareController.Mismatch,
           WriteMsg.WriteMsgController.Working, WriteMsg.WriteMsgController.Resting, AddSub.AddSubController.Working,
           AddSub.AddSubController.Resting, Bridge.PolyBridge.Working, Bridge.PolyBridge.Resting, Bridge.PolyBridge.IsReady,
           Bridge.PolyBridge.Waiting, Bridge.PolyBridge.Bound, PackCompare.Left, WriteMsg.Left, AddSub.Left, HashEngine.Smaller, Plain;
      var h;
      h, error := ClockHash(s, go, on, q.at.base, sk, ct, delay, ram);
      var w := ClockWrite(s, go, on, q.at.base, m, ram);
      var b := ClockKernel(s, go, on, q.at, ram);
      var a := ClockSum(s, go, on, q.at.base, ram);
      var c := ClockCompare(s, go, on, q.differs, ct, ram);
      ram' := match s case Write => w case Hash(_) => h case Kernel(_, _) => b case Sum(_) => a case Compare(_) => c;
    }

    /** One rising edge of the engine, its controllers, the hash engine, and the memories.  The three
        256-bit inputs and the byte memories must not move during a run. */
    method Clock(start: bool, m: Message, rho: Seed, coins: Seed, sk: SecretKey, ct: Ciphertext, delay: nat, ram: Ram) returns (ram': Ram)
      requires Valid(sk, ram)
      requires state != Idle ==> job.m == m && job.rho == rho && job.coins == coins && job.ct == ct
      requires state == Idle && start ==> Fit(Job(bridge.core.zetas, hash.f, m, rho, coins, ct, ram.slots, compare.Mismatch()))
      modifies this, hash, frommsg, bridge, bridge.core, addsub, compare
      ensures Valid(sk, ram')
      ensures state == NextState(N, old(state), start, old(Finished(StepOf(state, rho, coins))))
      ensures old(state) == Idle ==> ram'.slots == ram.slots
      ensures old(state) == Idle && start ==> job == Job(bridge.core.zetas, hash.f, m, rho, coins, ct, ram.slots, old(compare.Mismatch()))
      ensures old(state) != Idle ==> job == old(job) && Ahead(N, state) <= old(Ahead(N, state))
      ensures old(state) != Idle && Ahead(N, state) == old(Ahead(N, state)) ==>
        HashEngine.Smaller(Clocks(StepOf(state, rho, coins)), old(Clocks(StepOf(state, rho, coins))))
      ensures state == Done ==> (Mismatch() <==> Starved(job.f, job.rho) || job.ct != Expected(job))
    {
      hide MarkAt, GoodRom, Fit, Starved, Expected, StepAt, Queues, AtWork, Finished, Passed, WordSlots, AddSub.Sources, Rejected,
           HashEngine.Smaller, PackCompare.PackCompareController.Mismatch, Bridge.PolyBridge.Resting, Bridge.PolyBridge.Working,
           HashEngine.SharedHashEngine.Resting, WriteMsg.WriteMsgController.Resting, AddSub.AddSubController.Resting,
           PackCompare.PackCompareController.Resting;
      var s, finished := StepOf(state, rho, coins), Finished(StepOf(state, rho, coins));
      ghost var j := if state == Idle then Job(bridge.core.zetas, hash.f, m, rho, coins, ct, ram.slots, compare.Mismatch()) else job;
      ghost var q := if state == Idle then MarkAt(j, 0) else Here();
      StartsAt(j);
      if state.Start? { StartReady(j, state.k); } else if state.Wait? {
        Passes(j, state.k);
        QueuedAt(j, state.k + 1);
      }
      var error;
      ram', error := ClockUnits(s, state.Start?, state.Wait?, j, q, m, sk, ct, delay, ram);
      hashFail := if state == Idle && start then false else hashFail || error;
      state, job := NextState(N, state, start, finished), j;
      if state == Done { RejectedExactly(j); RejectedMeans(j); }
    }

    /** From the start pulse to the done pulse, for a public key already in slots 0 and 1 and whatever
        the permutation delays. */
    method Run(m: Message, rho: Seed, coins: Seed, sk: SecretKey, ct: Ciphertext, ram: Ram) returns (mismatch: bool, out: Ram)
      requires Resting() && WordSlots(ram.slots) && Bounded(ram.slots[0], 4095) && Bounded(ram.slots[1], 4095)
      modifies this, hash, frommsg, bridge, bridge.core, addsub, compare
      ensures Resting()
      ensures var expected := Reencrypted(Unity.StandardRoots(), StandardSamples(hash.f, rho, coins), ram.slots[0], ram.slots[1], m);
        mismatch <==> Starved(hash.f, rho) || ct != expected
    {
      hide Here, AtWork, Primed, GoodRom, Unity.StandardRoots, Reencrypted, StandardSamples, Starved, Mismatch, Clocks, Finished, StepOf, WordSlots,
           HashEngine.SharedHashEngine.Resting, WriteMsg.WriteMsgController.Resting, Bridge.PolyBridge.Resting,
           AddSub.AddSubController.Resting, PackCompare.PackCompareController.Resting;
      var delay: nat := *;
      ghost var j := Job(bridge.core.zetas, hash.f, m, rho, coins, ct, ram.slots, compare.Mismatch());
      out := Clock(true, m, rho, coins, sk, ct, delay, ram);
      while state != Done
        invariant Valid(sk, out) && state != Idle && job == j
        invariant state == Done ==> (Mismatch() <==> Starved(j.f, j.rho) || ct != Expected(j))
        decreases Ahead(N, state), Clocks(StepOf(state, rho, coins)).phase, Clocks(StepOf(state, rho, coins)).bytes,
          Clocks(StepOf(state, rho, coins)).local, Clocks(StepOf(state, rho, coins)).stage, Clocks(StepOf(state, rho, coins)).perm
      {
        delay := *;
        out := Clock(false, m, rho, coins, sk, ct, delay, out);
      }
      mismatch := Mismatch();
      out := Clock(false, m, rho, coins, sk, ct, delay, out);
    }
  }

  /** A step about to start finds what it needs. */
  lemma StartReady(j: Job, k: Pair)
    requires Fit(j)
    ensures var s, q := StepAt(j.rho, j.coins, k), MarkAt(j, k);
      Proper(s) && (s.Kernel? || q.at.queued == []) && (s.Sum? ==> AddSub.Sources(q.at.base, s.d))
  {
    hide MarkAt, StepAt, Proper, AddSub.Sources, GoodRom, WordSlots, Bounded;
    ProperSteps(j.rho, j.coins, k);
    QueuedAt(j, k);
    WordsAt(j, k);
    if StepAt(j.rho, j.coins, k).Sum? { SumKeepsWords(StepAt(j.rho, j.coins, k).d, MarkAt(j, k).at.base); }
  }

  lemma RejectedMeans(j: Job)
    ensures Rejected(j) <==> MarkAt(j, N).fail || MarkAt(j, N).differs
  {
    hide MarkAt;
  }
}
