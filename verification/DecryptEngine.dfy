/** The clocked K-PKE.Decrypt engine: one state register, four controllers, and the memory port passed
  from one to the next. */
module DecryptEngine {
  import opened ModQ
  import opened Ring
  import opened Kernel
  import opened PolyRam
  import opened Layout
  import opened Messages
  import opened Decrypt
  import opened Sequencer
  import AddSub
  import Bridge
  import Kpke
  import ReadMsg
  import Unpack

  // ---------------------------------------------------------------- the schedule

  /** What a start and wait pair of states does.  A kernel command that is not the last of its run waits
      for room only, the last one for everything to be stored. */
  datatype Step = Expand | Kernel(c: Bridge.Command, last: bool) | Sum(d: AddSub.Command) | Decode

  /** The pairs U, N0, N1, B0, B1, A, I, S and M. */
  const STEPS: seq<Step> := [
    Expand,
    Kernel(Bridge.Command(0, 0, 0, 5), false),
    Kernel(Bridge.Command(0, 1, 0, 6), false),
    Kernel(Bridge.Command(2, 3, 5, 7), false),
    Kernel(Bridge.Command(2, 4, 6, 8), true),
    Sum(SUM),
    Kernel(INVERSE, true),
    Sum(DIFFERENCE),
    Decode]

  /** The pair a state belongs to; the idle and done states leave the port where Decode has it. */
  function StepOf(s: State): Step
    requires InRange(9, s)
  {
    match s case Start(k) => STEPS[k] case Wait(k) => STEPS[k] case _ => Decode
  }

  /** Counters of the kernel commands started, two bits wide, and whether the inverse one was. */
  datatype Counts = Counts(forward: nat, multiply: nat, inverse: bool)

  function NextCounts(s: State, start: bool, n: Counts): Counts {
    match s
    case Idle => if start then Counts(0, 0, false) else n
    case Start(k) =>
      if k == 1 || k == 2 then n.(forward := (n.forward + 1) % 4)
      else if k == 3 || k == 4 then n.(multiply := (n.multiply + 1) % 4)
      else if k == 6 then n.(inverse := true)
      else n
    case _ => n
  }

  predicate Fault(n: Counts) { n.forward != 2 || n.multiply != 2 || !n.inverse }

  // ---------------------------------------------------------------- what the schedule does to the slots

  /** The memories a run works on, and the slots it found. */
  datatype Job = Job(z: Zetas, ct: Ciphertext, sk: SecretKey, was: Slots)

  function Passed(j: Job, p: Point, s: Step): Point {
    match s
    case Expand => Point(Unpacked(j.ct, j.sk, p.base), [])
    case Kernel(c, last) => KernelPassed(j.z, p, c, last)
    case Sum(c) => Point(AddSub.Execute(c, p.base), [])
    case Decode => Point(p.base, [])
  }

  function PointAt(j: Job, k: nat): Point
    requires k <= 9
  {
    if k == 0 then Point(j.was, []) else Passed(j, PointAt(j, k - 1), STEPS[k - 1])
  }

  /** The trace of the schedule, one command at a time. */
  ghost function TraceOf(j: Job): Trace {
    var expanded := Unpacked(j.ct, j.sk, j.was);
    var multiplied := Bridge.Serial(j.z, ProductBatch(), expanded);
    var summed := AddSub.Execute(SUM, multiplied);
    Trace(expanded, multiplied, summed, Bridge.Serial(j.z, [INVERSE], summed))
  }

  lemma Passes(j: Job, k: nat)
    requires k < 9
    ensures PointAt(j, k + 1) == Passed(j, PointAt(j, k), STEPS[k])
  {
    hide Passed;
  }

  /** The first four kernel commands are queued one after the other. */
  lemma EarlyPoints(j: Job)
    ensures var e, b := TraceOf(j).expanded, ProductBatch();
      && PointAt(j, 1) == Point(e, []) && PointAt(j, 2) == Point(e, b[..1])
      && PointAt(j, 3) == Point(e, b[..2]) && PointAt(j, 4) == Point(e, b[..3])
      && PointAt(j, 5) == Point(Bridge.Overlapped(j.z, b, e), [])
  {
    var b := ProductBatch();
    Passes(j, 0);
    Passes(j, 1);
    Passes(j, 2);
    Passes(j, 3);
    Passes(j, 4);
    assert PointAt(j, 0) == Point(j.was, []);
    hide PointAt, Unpacked, Bridge.Serial, Bridge.Overlapped, AddSub.Execute;
    assert [] + [b[0]] == b[..1] && b[..1] + [b[1]] == b[..2] && b[..2] + [b[2]] == b[..3] && b[..3] + [b[3]] == b;
  }

  /** The four overlapping commands leave what they leave one at a time. */
  lemma ProductPoint(j: Job)
    ensures PointAt(j, 5) == Point(TraceOf(j).multiplied, [])
  {
    EarlyPoints(j);
    hide PointAt, Unpacked, Bridge.Serial, Bridge.Overlapped, AddSub.Execute, Bridge.NoHazard, ProductBatch;
    var t := TraceOf(j);
    ProductSlots(j.z, t.expanded);
    Bridge.OverlapInvisible(j.z, ProductBatch(), t.expanded);
  }

  lemma InversePoint(j: Job, p: Point)
    requires p.queued == []
    ensures Passed(j, p, STEPS[6]) == Point(Bridge.Serial(j.z, [INVERSE], p.base), [])
  {
    hide Bridge.Serial, Bridge.Overlapped, Bridge.NoHazard;
    OneCommand(j.z, INVERSE, p.base);
    Bridge.OverlapInvisible(j.z, [INVERSE], p.base);
    assert [] + [INVERSE] == [INVERSE];
  }

  lemma SumPoints(j: Job, p: Point)
    requires p.queued == []
    ensures Passed(j, p, STEPS[5]) == Point(AddSub.Execute(SUM, p.base), [])
    ensures Passed(j, p, STEPS[7]) == Point(AddSub.Execute(DIFFERENCE, p.base), []) && Passed(j, p, STEPS[8]) == p
  {
    hide AddSub.Execute;
  }

  /** The points of the clocked schedule are those of the trace, although four commands overlap. */
  lemma LatePoints(j: Job)
    ensures var t := TraceOf(j);
      && PointAt(j, 5) == Point(t.multiplied, []) && PointAt(j, 6) == Point(t.summed, [])
      && PointAt(j, 7) == Point(t.inverted, []) && PointAt(j, 8) == Point(AddSub.Execute(DIFFERENCE, t.inverted), [])
      && PointAt(j, 9) == PointAt(j, 8)
  {
    ProductPoint(j);
    Passes(j, 5);
    Passes(j, 6);
    Passes(j, 7);
    Passes(j, 8);
    hide PointAt, Passed, Unpacked, Bridge.Serial, Bridge.Overlapped, AddSub.Execute, ProductBatch;
    SumPoints(j, PointAt(j, 5));
    InversePoint(j, PointAt(j, 6));
    SumPoints(j, PointAt(j, 7));
    SumPoints(j, PointAt(j, 8));
  }

  /** Commands are queued exactly behind a kernel command that was not the last of its run. */
  lemma QueuedAt(j: Job, k: nat)
    requires k <= 9
    ensures PointAt(j, k).queued != [] <==> k > 0 && STEPS[k - 1].Kernel? && !STEPS[k - 1].last
    ensures k < 9 && PointAt(j, k).queued != [] ==> STEPS[k].Kernel?
  {
    hide Unpacked, Bridge.Overlapped, AddSub.Execute, PointAt;
    if k == 0 { StartsAt(j); } else { Passes(j, k - 1); }
  }

  lemma StartsAt(j: Job)
    ensures PointAt(j, 0) == Point(j.was, [])
  {
  }

  /** Each add/sub step finds 16-bit words, and the last point holds the decoded difference. */
  lemma SumsReady(j: Job, k: nat)
    requires k < 9 && GoodRom(j.z) && STEPS[k].Sum?
    ensures AddSub.Sources(PointAt(j, k).base, STEPS[k].d)
  {
    hide Unpacked, Bridge.Serial, AddSub.Execute, AddSub.Sources, GoodRom, PointAt, ToMessage, Decoded;
    LatePoints(j);
    ScheduleDecodes(j.z, j.ct, j.sk, j.was, TraceOf(j));
  }

  lemma EndDecodes(j: Job)
    requires GoodRom(j.z)
    ensures ToMessage(PointAt(j, 8).base[11]) == Kpke.StandardMessage(j.ct, j.sk)
  {
    hide Unpacked, Bridge.Serial, AddSub.Execute, AddSub.Sources, GoodRom, PointAt, ToMessage, Decoded, RootsOf, Kpke.StandardMessage;
    Kpke.DecodedIsStandard(j.z, j.ct, j.sk);
    LatePoints(j);
    ScheduleDecodes(j.z, j.ct, j.sk, j.was, TraceOf(j));
  }

  // ---------------------------------------------------------------- the engine

  /** Pairs begun. */
  function Begun(s: State): nat {
    match s case Idle => 0 case Start(k) => k case Wait(k) => k + 1 case Done => 9
  }

  /** What the counters show once the first d pairs have begun. */
  predicate Counted(n: Counts, d: nat) {
    && n.forward == (if d < 2 then 0 else if d == 2 then 1 else 2)
    && n.multiply == (if d < 4 then 0 else if d == 4 then 1 else 2)
    && n.inverse == (d > 6)
  }

  lemma CountsKept(s: State, start: bool, finished: bool, n: Counts)
    requires InRange(9, s) && (s != Idle ==> Counted(n, Begun(s)))
    ensures var t := NextState(9, s, start, finished); t != Idle ==> Counted(NextCounts(s, start, n), Begun(t))
  {
  }

  /** The fault output is up, and the message output masked, exactly until the inverse command, the last
      of the five, has been started. */
  lemma FaultExactly(s: State, n: Counts)
    requires InRange(9, s) && s != Idle && Counted(n, Begun(s))
    ensures Fault(n) <==> Begun(s) < 7
    ensures Fault(n) <==> n != Counts(2, 2, true)
  {
  }

  class KpkeDecryptEngine {
    const unpack: Unpack.UnpackController
    const bridge: Bridge.PolyBridge
    const addsub: AddSub.AddSubController
    const tomsg: ReadMsg.ReadMsgController
    var state: State
    var counts: Counts
    ghost var job: Job

    /** Where the memory stands: before the pair of a start state and during that of a wait state. */
    ghost function Here(): Point
      requires InRange(9, state)
      reads this
    {
      match state case Start(k) => PointAt(job, k) case Wait(k) => PointAt(job, k) case _ => PointAt(job, 8)
    }

    /** Every unit but the one step s uses rests. */
    ghost predicate Others(s: Step)
      reads unpack, bridge, bridge.core, addsub, tomsg
    {
      && (!s.Expand? ==> unpack.Resting()) && (!s.Kernel? ==> bridge.Resting())
      && (!s.Sum? ==> addsub.Resting()) && (!s.Decode? ==> tomsg.Resting())
    }

    /** Ready for the next step: the slots are those of the point, or its commands are queued in a bridge
        that has room. */
    ghost predicate Primed(p: Point, ram: Ram)
      reads unpack, bridge, bridge.core, addsub, tomsg
    {
      && unpack.Resting() && addsub.Resting() && tomsg.Resting()
      && if p.queued == [] then bridge.Resting() && ram.slots == p.base
         else bridge.Working(p.queued, p.base, ram) && bridge.IsReady()
    }

    /** Step s, which found point p, is under way. */
    ghost predicate AtWork(s: Step, j: Job, p: Point, ram: Ram)
      reads unpack, bridge, bridge.core, addsub, tomsg
    {
      Others(s) && match s
      case Expand => unpack.Working(p.base, ram, j.ct, j.sk)
      case Kernel(c, last) => bridge.Working(p.queued + [c], p.base, ram) && (last || bridge.Waiting())
      case Sum(d) => addsub.Working(d, p.base, ram)
      case Decode => tomsg.Working(11, ram) && ram.slots == p.base
    }

    ghost predicate Valid(ram: Ram)
      reads this, unpack, bridge, bridge.core, addsub, tomsg
    {
      && GoodRom(bridge.core.zetas) && InRange(9, state)
      && (state != Idle ==> job.z == bridge.core.zetas && Counted(counts, Begun(state)))
      && match state
         case Idle => AllRest()
         case Start(k) => Primed(Here(), ram)
         case Wait(k) => AtWork(STEPS[k], job, Here(), ram)
         case Done => AllRest() && tomsg.x.message == ToMessage(Here().base[11])
    }

    ghost predicate AllRest()
      reads unpack, bridge, bridge.core, addsub, tomsg
    {
      unpack.Resting() && bridge.Resting() && addsub.Resting() && tomsg.Resting()
    }

    /** The flag step s waits for. */
    predicate Finished(s: Step)
      reads unpack, bridge, bridge.core, addsub, tomsg
    {
      match s
      case Expand => unpack.AtDone()
      case Kernel(_, last) => if last then bridge.AtDone() else bridge.IsReady()
      case Sum(_) => addsub.AtDone()
      case Decode => tomsg.Done()
    }

    predicate OperationFault()
      reads this
    {
      Fault(counts)
    }

    /** The message output, zero on a fault. */
    function Message(): Message
      reads this, tomsg
    {
      if OperationFault() then ReadMsg.Zeros() else tomsg.x.message
    }

    ghost predicate Resting()
      reads this, unpack, bridge, bridge.core, addsub, tomsg
    {
      state == Idle && GoodRom(bridge.core.zetas) && AllRest()
    }

    /** Clocks until the unit of step s is done. */
    ghost function Clocks(s: Step): int
      reads unpack, bridge, bridge.core, addsub, tomsg
    {
      match s
      case Expand => Unpack.Left(unpack.x)
      case Kernel(_, _) => bridge.Bound()
      case Sum(_) => AddSub.Left(addsub.r)
      case Decode => ReadMsg.Left(tomsg.x)
    }

    constructor (u: Unpack.UnpackController, b: Bridge.PolyBridge, a: AddSub.AddSubController, t: ReadMsg.ReadMsgController)
      requires u.Resting() && b.Resting() && a.Resting() && t.Resting() && GoodRom(b.core.zetas)
      ensures Resting() && OperationFault()
      ensures unpack == u && bridge == b && addsub == a && tomsg == t
    {
      unpack, bridge, addsub, tomsg := u, b, a, t;
      state, counts := Idle, Counts(0, 0, false);
      job := Job(b.core.zetas, seq(768, _ => 0), seq(1632, _ => 0), seq(12, _ => ZeroPoly()));
    }

    /** Every controller is clocked, and the one step s uses has the polynomial memory. */
    method ClockUnits(s: Step, go: bool, ghost on: bool, ghost j: Job, ghost p: Point, ct: Ciphertext, sk: SecretKey, ram: Ram)
      returns (ram': Ram)
      requires !(go && on) && if go then Primed(p, ram) else if on then AtWork(s, j, p, ram) else AllRest() && s.Decode?
      requires go ==> (s.Kernel? || p.queued == []) && (s.Sum? ==> AddSub.Sources(p.base, s.d))
      requires j.ct == ct && j.sk == sk && j.z == bridge.core.zetas
      modifies unpack, bridge, bridge.core, addsub, tomsg
      ensures go ==> AtWork(s, j, p, ram')
      ensures on && !old(Finished(s)) ==> AtWork(s, j, p, ram') && 0 <= Clocks(s) < old(Clocks(s))
      ensures on && old(Finished(s)) ==> Primed(Passed(j, p, s), ram')
      ensures on && old(Finished(s)) && s.Decode? ==> tomsg.x.message == ToMessage(p.base[11])
      ensures !go && !on ==> AllRest() && ram'.slots == ram.slots
    {
      hide Unpacked, AddSub.Sources, AddSub.Execute, Bridge.Overlapped, Bridge.PolyBridge.Valid, Bridge.PolyBridge.IsReady,
           AddSub.AddSubController.Valid, Unpack.UnpackController.Valid, Unpack.InRange, ReadMsg.Inv, Bridge.Busy, Bridge.Unlaunched, ToMessage;
      var u := unpack.Step(go && s.Expand?, ct, sk, p.base, ram);
      var b := bridge.Step(go && s.Kernel?, if s.Kernel? then s.c else Bridge.Command(0, 0, 0, 0),
                           if on && s.Kernel? then p.queued + [s.c] else p.queued, p.base, ram);
      var a := addsub.Step(go && s.Sum?, if s.Sum? then s.d else SUM, if s.Sum? then s.d else SUM, p.base, ram);
      var t := tomsg.Clock(go && s.Decode?, 11, ram);
      ram' := match s case Expand => u case Kernel(_, _) => b case Sum(_) => a case Decode => t;
    }

    /** One rising edge of the engine, its four controllers and the three memories.  Every controller is
        clocked, and the one whose pair it is has the polynomial memory. */
    method Clock(start: bool, ct: Ciphertext, sk: SecretKey, ram: Ram) returns (ram': Ram)
      requires Valid(ram) && (state != Idle ==> job.ct == ct && job.sk == sk)
      modifies this, unpack, bridge, bridge.core, addsub, tomsg
      ensures Valid(ram')
      ensures state == NextState(9, old(state), start, old(Finished(StepOf(state)))) && counts == NextCounts(old(state), start, old(counts))
      ensures old(state) == Idle ==> ram'.slots == ram.slots
      ensures old(state) == Idle && start ==> job == Job(bridge.core.zetas, ct, sk, ram.slots)
      ensures old(state) != Idle ==> job == old(job) && Ahead(9, state) <= old(Ahead(9, state))
      ensures old(state) != Idle && Ahead(9, state) == old(Ahead(9, state)) ==> 0 <= Clocks(StepOf(state)) < old(Clocks(StepOf(state)))
      ensures state == Done ==> !OperationFault() && Message() == Kpke.StandardMessage(job.ct, job.sk)
    {
      hide PointAt, GoodRom, Kpke.StandardMessage, ToMessage, AtWork, Finished, Passed, Clocks, Counted, Fault, NextCounts, Unpacked,
           AddSub.Sources, Bridge.PolyBridge.Resting, Bridge.PolyBridge.Working, Unpack.UnpackController.Resting,
           AddSub.AddSubController.Resting, ReadMsg.ReadMsgController.Resting;
      var s, finished := StepOf(state), Finished(StepOf(state));
      ghost var j, p := if state == Idle then Job(bridge.core.zetas, ct, sk, ram.slots) else job, Here();
      StartsAt(j);
      if state.Start? {
        QueuedAt(job, state.k);
        if s.Sum? { SumsReady(job, state.k); }
      } else if state.Wait? {
        Passes(job, state.k);
        QueuedAt(job, state.k + 1);
      }
      ram' := ClockUnits(s, state.Start?, state.Wait?, j, p, ct, sk, ram);
      CountsKept(state, start, finished, counts);
      state, counts, job := NextState(9, state, start, finished), NextCounts(state, start, counts), j;
      if state == Done { FaultExactly(state, counts); }
      EndDecodes(job);
    }

    /** From the start pulse to the done pulse. */
    method Decrypt(ct: Ciphertext, sk: SecretKey, ram: Ram) returns (message: Message, out: Ram)
      requires Resting()
      modifies this, unpack, bridge, bridge.core, addsub, tomsg
      ensures Resting() && !OperationFault() && message == Kpke.StandardMessage(ct, sk)
    {
      hide Here, AtWork, Primed, GoodRom, Kpke.StandardMessage, Message, Finished, Clocks, Counted,
           Bridge.PolyBridge.Resting, Unpack.UnpackController.Resting, AddSub.AddSubController.Resting, ReadMsg.ReadMsgController.Resting;
      out := Clock(true, ct, sk, ram);
      while state != Done
        invariant Valid(out) && state != Idle && job.ct == ct && job.sk == sk
        invariant state == Done ==> !OperationFault() && Message() == Kpke.StandardMessage(ct, sk)
        decreases Ahead(9, state), Clocks(StepOf(state))
      {
        out := Clock(false, ct, sk, out);
      }
      message := Message();
      out := Clock(false, ct, sk, out);
    }
  }
}
