/** Make-before-break handover between two boards: one controller thread and one worker thread per
  board, joined by first-in-first-out queues.  Every step below is one atomic action; runs are
  arbitrary interleavings. */
module Handover {

  // ---------------------------------------------------------------- messages

  type Slot = s: nat | s < 64

  datatype Board = A | B

  datatype Option<T> = None | Some(value: T)

  datatype Kind = Open | Leave | Data

  datatype Reason = Entry | Switch | Retry | Exit | OldSlot | Telemetry

  datatype Command = Command(id: nat, kind: Kind, vehicle: nat, slot: Slot)

  datatype Result = Result(c: Command, ok: bool)

  // ---------------------------------------------------------------- one board: queues, worker, backend

  /** Between taking a command and reporting it the worker has run the backend and then updated the
      occupancy table. */
  datatype Phase = Waiting | Got(c: Command) | Ran(r: Result) | Noted(r: Result)

  type Stats = t: seq<Option<nat>> | |t| == 64 witness seq(64, _ => None)

  /** `inbox` holds results the controller has polled but not handled; `reserved` is its own set of
      slots with an open it has not heard of; `sessions` is the backend's. */
  datatype Link = Link(commands: seq<Command>, phase: Phase, results: seq<Result>, inbox: seq<Result>,
                       stats: Stats, sessions: set<Slot>, reserved: set<Slot>)

  function Get(l: Link): Link
    requires l.phase.Waiting? && l.commands != []
  {
    l.(phase := Got(l.commands[0]), commands := l.commands[1..])
  }

  /** The backend either carries the command out or raises, and then has changed nothing; leaving or
      sending without a session always raises. */
  function Run(l: Link, ok: bool): Link
    requires l.phase.Got?
  {
    var c := l.phase.c;
    var done := ok && (c.kind == Open || c.slot in l.sessions);
    l.(phase := Ran(Result(c, done)),
       sessions := if !done then l.sessions
                   else match c.kind case Open => l.sessions + {c.slot} case Leave => l.sessions - {c.slot} case Data => l.sessions)
  }

  function Note(l: Link): Link
    requires l.phase.Ran?
  {
    var r := l.phase.r;
    l.(phase := Noted(r),
       stats := if !r.ok then l.stats
                else match r.c.kind
                     case Open => l.stats[r.c.slot := Some(r.c.vehicle)]
                     case Leave => l.stats[r.c.slot := None]
                     case Data => l.stats)
  }

  function Put(l: Link): Link
    requires l.phase.Noted?
  {
    l.(phase := Waiting, results := l.results + [l.phase.r])
  }

  function Poll(l: Link): Link { l.(inbox := l.inbox + l.results, results := []) }

  // ---------------------------------------------------------------- the controller

  datatype Place = Place(board: Board, slot: Slot)

  datatype State = Connecting | Connected | Switching | Exiting | Disconnected

  /** `prior` is the place held while an open is outstanding.  `ticket` is auxiliary: the number of the
      open or exit command the vehicle waits for, 0 for none. */
  datatype Vehicle = Vehicle(id: nat, place: Option<Place>, prior: Option<Place>, state: State, ticket: nat)

  datatype Pending = Pending(kind: Kind, vehicle: nat, reason: Reason)

  /** The search for a free slot, one table entry at a time. */
  datatype Scan = Scan(v: nat, target: Board, reason: Reason, slot: nat)

  datatype System = System(vehicles: seq<Vehicle>, a: Link, b: Link, pending: map<nat, Pending>, nextId: nat, nextVehicle: nat,
                           scan: Option<Scan>)

  function LinkOf(s: System, b: Board): Link { if b == A then s.a else s.b }

  function WithLink(s: System, b: Board, l: Link): System { if b == A then s.(a := l) else s.(b := l) }

  function WithVehicle(s: System, v: nat, w: Vehicle): System
    requires v < |s.vehicles|
  {
    s.(vehicles := s.vehicles[v := w])
  }

  /** Number a command, remember it, and put it on the board's queue. */
  function Submit(s: System, b: Board, kind: Kind, vehicle: nat, slot: Slot, reason: Reason): System {
    var l := LinkOf(s, b);
    WithLink(s.(pending := s.pending[s.nextId := Pending(kind, vehicle, reason)], nextId := s.nextId + 1), b,
             l.(commands := l.commands + [Command(s.nextId, kind, vehicle, slot)]))
  }

  /** Index of the vehicle with this number, or the number of vehicles. */
  function Find(vs: seq<Vehicle>, id: nat): nat {
    if vs == [] then 0 else if vs[0].id == id then 0 else 1 + Find(vs[1..], id)
  }

  predicate Used(vs: seq<Vehicle>, v: nat, id: nat) {
    exists i :: 0 <= i < |vs| && i != v && vs[i].id == id
  }

  /** First number from `id` on, cyclically, that no other vehicle has. */
  function Fresh(vs: seq<Vehicle>, v: nat, id: nat, tries: nat): nat
    decreases 64 - tries
  {
    if tries >= 64 || !Used(vs, v, id) then id else Fresh(vs, v, (id + 1) % 64, tries + 1)
  }

  function Respawn(s: System, v: nat): System
    requires v < |s.vehicles|
  {
    var id := Fresh(s.vehicles, v, s.nextVehicle, 0);
    WithVehicle(s, v, Vehicle(id, None, None, Connecting, 0)).(nextVehicle := (id + 1) % 64)
  }

  function BeginScan(s: System, v: nat, target: Board, reason: Reason): System {
    s.(scan := Some(Scan(v, target, reason, 0)))
  }

  /** One entry of the search: take it, try the next, or give up when the board is full. */
  function ScanStep(s: System): System
    requires s.scan.Some? && s.scan.value.v < |s.vehicles|
  {
    var k := s.scan.value;
    var l, w := LinkOf(s, k.target), s.vehicles[k.v];
    if k.slot >= 64 then WithVehicle(s.(scan := None), k.v, w.(state := Disconnected))
    else if l.stats[k.slot].None? && k.slot !in l.reserved then
      var t := Submit(WithLink(s, k.target, l.(reserved := l.reserved + {k.slot})), k.target, Open, w.id, k.slot, k.reason);
      WithVehicle(t.(scan := None), k.v,
                  w.(prior := w.place, state := if k.reason == Switch then Switching else Connecting, ticket := s.nextId))
    else s.(scan := Some(k.(slot := k.slot + 1)))
  }

  /** The vehicle learns the outcome of its open. */
  function Opened(s: System, v: nat, b: Board, r: Result, reason: Reason): System
    requires v < |s.vehicles|
  {
    var w := s.vehicles[v];
    if r.ok then
      var t := WithVehicle(s, v, w.(place := Some(Place(b, r.c.slot)), prior := None, state := Connected, ticket := 0));
      if reason == Switch && w.prior.Some? then Submit(t, w.prior.value.board, Leave, w.id, w.prior.value.slot, OldSlot) else t
    else
      WithVehicle(s, v, w.(place := if w.prior.Some? then w.prior else w.place, prior := None,
                           state := if w.prior.Some? then Connected else Disconnected, ticket := 0))
  }

  /** Take one polled result and act on it. */
  function Handle(s: System, b: Board, target: Board): System
    requires LinkOf(s, b).inbox != []
  {
    var l := LinkOf(s, b);
    var r := l.inbox[0];
    if r.c.id !in s.pending then WithLink(s, b, l.(inbox := l.inbox[1..]))
    else Handled(s, b, l, r, s.pending[r.c.id], target)
  }

  function Handled(s: System, b: Board, l: Link, r: Result, p: Pending, target: Board): System
    requires l.inbox != []
  {
    var n := l.(inbox := l.inbox[1..], reserved := if p.kind == Open then l.reserved - {r.c.slot} else l.reserved);
    var t := WithLink(s.(pending := s.pending - {r.c.id}), b, n);
    var v := Find(s.vehicles, p.vehicle);
    if v >= |s.vehicles| then t
    else if p.kind == Open then Opened(t, v, b, r, p.reason)
    else if p.kind == Leave && p.reason == Exit then BeginScan(Respawn(t, v), v, target, Entry)
    else t
  }

  // ---------------------------------------------------------------- interleavings

  datatype Action =
    | Gets(board: Board) | Runs(board: Board, ok: bool) | Notes(board: Board) | Puts(board: Board)
    | Polls(board: Board) | Handles(board: Board, target: Board) | Scans
    | Enters(v: nat, target: Board) | Retries(v: nat, target: Board) | Crosses(v: nat, target: Board)
    | Sends(v: nat) | Exits(v: nat, target: Board)

  /** A vehicle is moved only while nothing is outstanding for it. */
  predicate Free(s: System, v: nat) {
    s.scan.None? && v < |s.vehicles| && s.vehicles[v].state in {Connected, Disconnected}
  }

  predicate Enabled(s: System, x: Action) {
    match x
    case Gets(b) => LinkOf(s, b).phase.Waiting? && LinkOf(s, b).commands != []
    case Runs(b, _) => LinkOf(s, b).phase.Got?
    case Notes(b) => LinkOf(s, b).phase.Ran?
    case Puts(b) => LinkOf(s, b).phase.Noted?
    case Polls(b) => s.scan.None?
    case Handles(b, _) => s.scan.None? && LinkOf(s, b).inbox != []
    case Scans => s.scan.Some? && s.scan.value.v < |s.vehicles|
    case Enters(v, _) => s.scan.None? && v < |s.vehicles| && s.vehicles[v].state == Connecting && s.vehicles[v].ticket == 0
    case Retries(v, _) => Free(s, v)
    case Crosses(v, target) => Free(s, v) && s.vehicles[v].place.Some? && s.vehicles[v].place.value.board != target
    case Sends(v) =>
      s.scan.None? && v < |s.vehicles| && s.vehicles[v].place.Some? && s.vehicles[v].state in {Connected, Disconnected, Switching}
    case Exits(v, _) => Free(s, v)
  }

  function Next(s: System, x: Action): System
    requires Enabled(s, x)
  {
    match x
    case Gets(b) => WithLink(s, b, Get(LinkOf(s, b)))
    case Runs(b, ok) => WithLink(s, b, Run(LinkOf(s, b), ok))
    case Notes(b) => WithLink(s, b, Note(LinkOf(s, b)))
    case Puts(b) => WithLink(s, b, Put(LinkOf(s, b)))
    case Polls(b) => WithLink(s, b, Poll(LinkOf(s, b)))
    case Handles(b, target) => Handle(s, b, target)
    case Scans => ScanStep(s)
    case Enters(v, target) => BeginScan(s, v, target, Entry)
    case Retries(v, target) => BeginScan(s, v, target, Retry)
    case Crosses(v, target) => BeginScan(s, v, target, Switch)
    case Sends(v) =>
      var w := s.vehicles[v];
      Submit(s, w.place.value.board, Data, w.id, w.place.value.slot, Telemetry)
    case Exits(v, target) =>
      var w := s.vehicles[v];
      if w.place.None? then BeginScan(Respawn(s, v), v, target, Entry)
      else WithVehicle(Submit(s, w.place.value.board, Leave, w.id, w.place.value.slot, Exit), v, w.(state := Exiting, ticket := s.nextId))
  }

  // ---------------------------------------------------------------- one board's invariant

  /** Commands the backend has not run yet, oldest first. */
  function Waits(l: Link): seq<Command> { (if l.phase.Got? then [l.phase.c] else []) + l.commands }

  /** Results the controller has not handled yet, oldest first. */
  function Reports(l: Link): seq<Result> {
    l.inbox + l.results + (if l.phase.Ran? || l.phase.Noted? then [l.phase.r] else [])
  }

  /** On one slot: an open is alone, and a leave is last. */
  ghost predicate Ordered(q: seq<Command>) {
    forall i, j :: 0 <= i < j < |q| && q[i].slot == q[j].slot ==> q[i].kind == Data && q[j].kind != Open
  }

  /** Occupancy as the board, its worker and the controller see it. */
  datatype Slots = Slots(stats: Stats, sessions: set<Slot>, reserved: set<Slot>)

  ghost predicate WaitOk(t: Slots, c: Command) {
    if c.kind == Open then c.slot !in t.sessions && c.slot in t.reserved && t.stats[c.slot].None?
    else c.slot in t.sessions && c.slot !in t.reserved
  }

  ghost predicate Mentions(q: seq<Command>, s: Slot) { exists i :: 0 <= i < |q| && q[i].slot == s }

  /** An unhandled open: its slot is reserved, open on the board exactly if it succeeded, and nothing
      is queued for it. */
  ghost predicate OpenOk(t: Slots, q: seq<Command>, r: Result, noted: bool) {
    && r.c.slot in t.reserved && (r.ok <==> r.c.slot in t.sessions) && !Mentions(q, r.c.slot)
    && (if r.ok && noted then t.stats[r.c.slot].Some? else t.stats[r.c.slot].None?)
  }

  ghost predicate OpensDiffer(reports: seq<Result>) {
    forall i, j :: 0 <= i < j < |reports| && reports[i].c.kind == Open && reports[j].c.kind == Open ==>
      reports[i].c.slot != reports[j].c.slot
  }

  /** `ran` says that the newest report has not reached the occupancy table yet. */
  ghost predicate Good(q: seq<Command>, reports: seq<Result>, t: Slots, ran: bool) {
    && Ordered(q) && OpensDiffer(reports)
    && (forall i :: 0 <= i < |q| ==> WaitOk(t, q[i]))
    && (forall s: Slot :: s in t.sessions ==> t.stats[s].Some? || s in t.reserved)
    && (forall i :: 0 <= i < |reports| && reports[i].c.kind == Open ==> OpenOk(t, q, reports[i], !ran || i < |reports| - 1))
    && (ran ==> reports != [] && LeftOk(t, q, reports[|reports| - 1]))
  }

  /** A session just left is still in the occupancy table, so nobody can have asked for its slot. */
  ghost predicate LeftOk(t: Slots, q: seq<Command>, r: Result) {
    r.c.kind == Leave && r.ok ==>
      r.c.slot !in t.sessions && r.c.slot !in t.reserved && t.stats[r.c.slot].Some? && !Mentions(q, r.c.slot)
  }

  function SlotsOf(l: Link): Slots { Slots(l.stats, l.sessions, l.reserved) }

  ghost predicate LinkOk(l: Link) { Good(Waits(l), Reports(l), SlotsOf(l), l.phase.Ran?) }

  // ---------------------------------------------------------------- the worker keeps it

  lemma GetKeeps(l: Link)
    requires LinkOk(l) && l.phase.Waiting? && l.commands != []
    ensures LinkOk(Get(l)) && Waits(Get(l)) == Waits(l) && Reports(Get(l)) == Reports(l)
  {
    hide Good;
    assert Waits(Get(l)) == Waits(l);
  }

  lemma PutKeeps(l: Link)
    requires LinkOk(l) && l.phase.Noted?
    ensures LinkOk(Put(l)) && Waits(Put(l)) == Waits(l) && Reports(Put(l)) == Reports(l)
  {
    hide Good;
    assert Reports(Put(l)) == Reports(l);
  }

  lemma PollKeeps(l: Link)
    requires LinkOk(l)
    ensures LinkOk(Poll(l)) && Waits(Poll(l)) == Waits(l) && Reports(Poll(l)) == Reports(l)
  {
    hide Good;
    assert Reports(Poll(l)) == Reports(l);
  }

  /** Running the oldest command: an open finds its slot closed, a leave or a packet finds its session. */
  lemma RunGood(q: seq<Command>, reports: seq<Result>, t: Slots, r: Result, sessions: set<Slot>)
    requires q != [] && Good(q, reports, t, false) && r.c == q[0]
    requires sessions == if !r.ok then t.sessions
                         else if r.c.kind == Open then t.sessions + {r.c.slot}
                         else if r.c.kind == Leave then t.sessions - {r.c.slot} else t.sessions
    ensures Good(q[1..], reports + [r], t.(sessions := sessions), true)
  {
    var n, e := q[1..], reports + [r];
    var u := t.(sessions := sessions);
    assert WaitOk(t, q[0]);
    if r.c.kind != Data { NoLater(q); }
    assert forall i :: 0 <= i < |n| ==> n[i] == q[i + 1];
    forall i | 0 <= i < |n| ensures WaitOk(u, n[i]) { assert WaitOk(t, q[i + 1]); }
    forall i | 0 <= i < |e| && e[i].c.kind == Open ensures OpenOk(u, n, e[i], i < |e| - 1) {
      if i < |reports| {
        assert OpenOk(t, q, reports[i], true);
        assert !Mentions(n, e[i].c.slot) by { assert !Mentions(q, e[i].c.slot); }
        assert e[i].c.slot != q[0].slot;
      }
    }
    assert OpensDiffer(e) by {
      forall i, j | 0 <= i < j < |e| && e[i].c.kind == Open && e[j].c.kind == Open ensures e[i].c.slot != e[j].c.slot {
        if j == |reports| { assert OpenOk(t, q, reports[i], true); assert q[0].slot == e[j].c.slot; }
      }
    }
    assert Ordered(n);
  }

  /** Nothing is queued behind an open or a leave of the same slot. */
  lemma NoLater(q: seq<Command>)
    requires Ordered(q) && q != [] && q[0].kind != Data
    ensures !Mentions(q[1..], q[0].slot)
  {
    assert forall i :: 0 <= i < |q| - 1 ==> q[1..][i] == q[i + 1];
  }

  lemma RunKeeps(l: Link, ok: bool)
    requires LinkOk(l) && l.phase.Got?
    ensures LinkOk(Run(l, ok))
    ensures Waits(l) == [l.phase.c] + Waits(Run(l, ok)) && Reports(Run(l, ok)) == Reports(l) + [Run(l, ok).phase.r]
    ensures l.phase.c.kind == Open ==> l.phase.c.slot !in l.sessions
    ensures l.phase.c.kind != Open ==> l.phase.c.slot in l.sessions
  {
    var n := Run(l, ok);
    assert Waits(l)[0] == l.phase.c && Waits(l)[1..] == Waits(n) && Reports(n) == Reports(l) + [n.phase.r];
    assert WaitOk(SlotsOf(l), Waits(l)[0]);
    hide Good;
    RunGood(Waits(l), Reports(l), SlotsOf(l), n.phase.r, n.sessions);
  }

  /** The occupancy table follows the backend. */
  lemma NoteGood(q: seq<Command>, reports: seq<Result>, t: Slots, stats: Stats)
    requires reports != [] && Good(q, reports, t, true)
    requires var r := reports[|reports| - 1];
      stats == if !r.ok then t.stats
               else if r.c.kind == Open then t.stats[r.c.slot := Some(r.c.vehicle)]
               else if r.c.kind == Leave then t.stats[r.c.slot := None] else t.stats
    ensures Good(q, reports, t.(stats := stats), false)
  {
    var r, u := reports[|reports| - 1], t.(stats := stats);
    forall i | 0 <= i < |q| ensures WaitOk(u, q[i]) {
      assert WaitOk(t, q[i]);
      if r.c.kind == Open { assert OpenOk(t, q, r, false); assert q[i].slot != r.c.slot; }
    }
    forall i | 0 <= i < |reports| && reports[i].c.kind == Open ensures OpenOk(u, q, reports[i], true) {
      assert OpenOk(t, q, reports[i], i < |reports| - 1);
    }
  }

  lemma NoteKeeps(l: Link)
    requires LinkOk(l) && l.phase.Ran?
    ensures LinkOk(Note(l)) && Waits(Note(l)) == Waits(l) && Reports(Note(l)) == Reports(l)
  {
    hide Good;
    NoteGood(Waits(l), Reports(l), SlotsOf(l), Note(l).stats);
  }

  // ---------------------------------------------------------------- the controller keeps it

  /** Handling the oldest report releases its reservation. */
  lemma HandleGood(q: seq<Command>, reports: seq<Result>, t: Slots, ran: bool)
    requires reports != [] && Good(q, reports, t, ran) && (ran ==> |reports| > 1)
    ensures Good(q, reports[1..], t.(reserved := if reports[0].c.kind == Open then t.reserved - {reports[0].c.slot} else t.reserved), ran)
  {
    var r, e := reports[0], reports[1..];
    var u := t.(reserved := if r.c.kind == Open then t.reserved - {r.c.slot} else t.reserved);
    assert forall i :: 0 <= i < |e| ==> e[i] == reports[i + 1];
    forall i | 0 <= i < |q| ensures WaitOk(u, q[i]) {
      assert WaitOk(t, q[i]);
      if r.c.kind == Open { assert OpenOk(t, q, r, true); assert q[i].slot != r.c.slot; }
    }
    forall i | 0 <= i < |e| && e[i].c.kind == Open ensures OpenOk(u, q, e[i], !ran || i < |e| - 1) {
      assert OpenOk(t, q, reports[i + 1], !ran || i + 1 < |reports| - 1);
    }
    if r.c.kind == Open { assert OpenOk(t, q, r, true); }
  }

  /** A free table entry that is not reserved belongs to nobody: an open may be queued. */
  lemma OpenGood(q: seq<Command>, reports: seq<Result>, t: Slots, ran: bool, c: Command)
    requires Good(q, reports, t, ran) && c.kind == Open && t.stats[c.slot].None? && c.slot !in t.reserved
    ensures Good(q + [c], reports, t.(reserved := t.reserved + {c.slot}), ran) && !Mentions(q, c.slot) && c.slot !in t.sessions
  {
    var n, u := q + [c], t.(reserved := t.reserved + {c.slot});
    forall i | 0 <= i < |q| ensures q[i].slot != c.slot { assert WaitOk(t, q[i]); }
    forall i | 0 <= i < |n| ensures WaitOk(u, n[i]) { if i < |q| { assert WaitOk(t, q[i]); } }
    forall i | 0 <= i < |reports| && reports[i].c.kind == Open ensures OpenOk(u, n, reports[i], !ran || i < |reports| - 1) {
      assert OpenOk(t, q, reports[i], !ran || i < |reports| - 1);
      assert !Mentions(n, reports[i].c.slot) by { assert !Mentions(q, reports[i].c.slot); }
    }
    if ran && reports[|reports| - 1].c.kind == Leave && reports[|reports| - 1].ok { StillUnmentioned(q, c, reports[|reports| - 1].c.slot); }
  }

  lemma StillUnmentioned(q: seq<Command>, c: Command, s: Slot)
    requires !Mentions(q, s) && c.slot != s
    ensures !Mentions(q + [c], s)
  {
    assert forall i :: 0 <= i < |q| ==> (q + [c])[i] == q[i];
  }

  /** A session someone owns: open, reported, and not told to leave. */
  ghost predicate Owned(q: seq<Command>, t: Slots, s: Slot) {
    s in t.sessions && s !in t.reserved && forall i :: 0 <= i < |q| && q[i].slot == s ==> q[i].kind == Data
  }

  /** The owner may send a packet, or leave. */
  lemma UseGood(q: seq<Command>, reports: seq<Result>, t: Slots, ran: bool, c: Command)
    requires Good(q, reports, t, ran) && c.kind != Open && Owned(q, t, c.slot)
    ensures Good(q + [c], reports, t, ran)
  {
    var n := q + [c];
    forall i | 0 <= i < |n| ensures WaitOk(t, n[i]) { if i < |q| { assert WaitOk(t, q[i]); } }
    forall i | 0 <= i < |reports| && reports[i].c.kind == Open ensures OpenOk(t, n, reports[i], !ran || i < |reports| - 1) {
      assert OpenOk(t, q, reports[i], !ran || i < |reports| - 1);
      assert !Mentions(n, reports[i].c.slot) by { assert !Mentions(q, reports[i].c.slot); }
    }
    assert Ordered(n);
    if ran && reports[|reports| - 1].c.kind == Leave && reports[|reports| - 1].ok { StillUnmentioned(q, c, reports[|reports| - 1].c.slot); }
  }

  // ---------------------------------------------------------------- commands and vehicles

  function Cmds(rs: seq<Result>): seq<Command> { seq(|rs|, i requires 0 <= i < |rs| => rs[i].c) }

  /** Commands the controller has not heard the end of, oldest first. */
  function Outstanding(l: Link): seq<Command> { Cmds(Reports(l)) + Waits(l) }

  ghost predicate Sorted(q: seq<Command>, below: nat) {
    && (forall i :: 0 <= i < |q| ==> 0 < q[i].id < below)
    && (forall i, j :: 0 <= i < j < |q| ==> q[i].id < q[j].id)
  }

  ghost predicate Apart(p: seq<Command>, q: seq<Command>) {
    forall i, j :: 0 <= i < |p| && 0 <= j < |q| ==> p[i].id != q[j].id
  }

  ghost predicate Numbered(s: System) {
    && Sorted(Outstanding(s.a), s.nextId) && Sorted(Outstanding(s.b), s.nextId)
    && Apart(Outstanding(s.a), Outstanding(s.b))
  }

  /** Outcomes a vehicle waits for: every open, and the leave of a vehicle on its way out. */
  predicate Awaited(p: Pending) { p.kind == Open || (p.kind == Leave && p.reason == Exit) }

  predicate WaitsFor(w: Vehicle, c: Command) {
    && w.ticket == c.id && w.id == c.vehicle
    && (if c.kind == Open then w.state in {Connecting, Switching} else w.state == Exiting)
  }

  ghost predicate Known(vs: seq<Vehicle>, pending: map<nat, Pending>, c: Command) {
    && c.id in pending && pending[c.id].kind == c.kind && pending[c.id].vehicle == c.vehicle
    && (Awaited(pending[c.id]) ==> exists v :: 0 <= v < |vs| && WaitsFor(vs[v], c))
  }

  ghost predicate AllKnown(vs: seq<Vehicle>, pending: map<nat, Pending>, q: seq<Command>) {
    forall i :: 0 <= i < |q| ==> Known(vs, pending, q[i])
  }

  ghost predicate Tracked(s: System) {
    AllKnown(s.vehicles, s.pending, Outstanding(s.a)) && AllKnown(s.vehicles, s.pending, Outstanding(s.b))
  }

  ghost predicate VehicleOk(w: Vehicle, nextId: nat) {
    && w.ticket < nextId
    && (w.state in {Connected, Disconnected} ==> w.ticket == 0)
    && (w.state in {Connecting, Switching} ==> w.prior == w.place)
    && (w.state == Connecting && w.ticket == 0 ==> w.place.None?)
  }

  predicate SmallNumbers(vs: seq<Vehicle>) { forall v :: 0 <= v < |vs| ==> vs[v].id < 64 }

  ghost predicate Fleet(s: System) {
    && |s.vehicles| <= 64 && s.nextVehicle <= 64 && (s.nextVehicle == 64 ==> SmallNumbers(s.vehicles)) && s.nextId > 0
    && (forall v, w :: 0 <= v < w < |s.vehicles| ==> s.vehicles[v].id != s.vehicles[w].id)
    && (forall v :: 0 <= v < |s.vehicles| ==> VehicleOk(s.vehicles[v], s.nextId))
    && (s.scan.Some? ==>
          s.scan.value.v < |s.vehicles| && s.vehicles[s.scan.value.v].ticket == 0
          && s.vehicles[s.scan.value.v].state in {Connecting, Connected, Disconnected})
  }

  /** The vehicle has a place and has not been told to leave it. */
  predicate Holds(w: Vehicle) { w.place.Some? && w.state != Exiting }

  /** Everybody's place is a session nobody has told to leave, and no two share one. */
  ghost predicate Held(vs: seq<Vehicle>, a: Link, b: Link) {
    && (forall v :: 0 <= v < |vs| && Holds(vs[v]) ==> OwnedPlace(a, b, vs[v].place.value))
    && (forall v, w :: 0 <= v < w < |vs| && Holds(vs[v]) && Holds(vs[w]) ==> vs[v].place != vs[w].place)
  }

  ghost predicate OwnedPlace(a: Link, b: Link, p: Place) {
    var l := if p.board == A then a else b;
    Owned(Waits(l), SlotsOf(l), p.slot)
  }

  ghost predicate Inv(s: System) {
    LinkOk(s.a) && LinkOk(s.b) && Numbered(s) && Tracked(s) && Fleet(s) && Held(s.vehicles, s.a, s.b)
  }

  // ---------------------------------------------------------------- worker actions keep everything

  /** A link may change as long as its outstanding commands and its owned sessions stay. */
  lemma LinkMoves(s: System, b: Board, l: Link)
    requires Inv(s) && LinkOk(l) && Outstanding(l) == Outstanding(LinkOf(s, b))
    requires forall p: Slot :: Owned(Waits(LinkOf(s, b)), SlotsOf(LinkOf(s, b)), p) ==> Owned(Waits(l), SlotsOf(l), p)
    ensures Inv(WithLink(s, b, l))
  {
    hide LinkOk, Outstanding, Sorted, Apart, AllKnown, VehicleOk, Owned, Waits;
  }

  lemma RunOwned(l: Link, ok: bool, p: Slot)
    requires l.phase.Got? && Owned(Waits(l), SlotsOf(l), p)
    ensures Owned(Waits(Run(l, ok)), SlotsOf(Run(l, ok)), p)
  {
    var q, n := Waits(l), Waits(Run(l, ok));
    assert q[0] == l.phase.c && q[1..] == n;
    assert forall i :: 0 <= i < |n| ==> n[i] == q[i + 1];
  }

  lemma SameOutstanding(l: Link, n: Link)
    requires Waits(n) == Waits(l) && Reports(n) == Reports(l)
    ensures Outstanding(n) == Outstanding(l)
  {
  }

  lemma RunOutstanding(l: Link, ok: bool)
    requires l.phase.Got?
    ensures Outstanding(Run(l, ok)) == Outstanding(l)
  {
    var n := Run(l, ok);
    assert Waits(l) == [l.phase.c] + Waits(n) && Reports(n) == Reports(l) + [n.phase.r];
    assert Cmds(Reports(n)) == Cmds(Reports(l)) + [l.phase.c];
  }

  lemma WorkerKeeps(s: System, x: Action)
    requires Inv(s) && Enabled(s, x) && (x.Gets? || x.Runs? || x.Notes? || x.Puts? || x.Polls?)
    ensures Inv(Next(s, x))
  {
    hide Inv, LinkOk, Outstanding, Waits, Reports, Owned, Run, Get, Put, Note, Poll;
    var b := x.board;
    var l := LinkOf(s, b);
    LinksOk(s, b);
    match x {
    case Gets(_) => GetKeeps(l); SameOutstanding(l, Get(l)); GetSlots(l); LinkMoves(s, b, Get(l));
    case Runs(_, ok) =>
      RunKeeps(l, ok);
      RunOutstanding(l, ok);
      forall p: Slot | Owned(Waits(l), SlotsOf(l), p) ensures Owned(Waits(Run(l, ok)), SlotsOf(Run(l, ok)), p) { RunOwned(l, ok, p); }
      LinkMoves(s, b, Run(l, ok));
    case Notes(_) =>
      NoteKeeps(l);
      SameOutstanding(l, Note(l));
      forall p: Slot | Owned(Waits(l), SlotsOf(l), p) ensures Owned(Waits(l), SlotsOf(Note(l)), p) { NoteOwned(l, p); }
      LinkMoves(s, b, Note(l));
    case Puts(_) => PutKeeps(l); SameOutstanding(l, Put(l)); PutSlots(l); LinkMoves(s, b, Put(l));
    case Polls(_) => PollKeeps(l); SameOutstanding(l, Poll(l)); PollSlots(l); LinkMoves(s, b, Poll(l));
    }
  }

  lemma LinksOk(s: System, b: Board)
    requires Inv(s)
    ensures LinkOk(LinkOf(s, b))
  {
  }

  lemma GetSlots(l: Link)
    requires l.phase.Waiting? && l.commands != []
    ensures SlotsOf(Get(l)) == SlotsOf(l)
  {
  }

  lemma PutSlots(l: Link)
    requires l.phase.Noted?
    ensures SlotsOf(Put(l)) == SlotsOf(l)
  {
  }

  lemma PollSlots(l: Link)
    ensures SlotsOf(Poll(l)) == SlotsOf(l)
  {
  }

  lemma NoteOwned(l: Link, p: Slot)
    requires l.phase.Ran? && Owned(Waits(l), SlotsOf(l), p)
    ensures Owned(Waits(l), SlotsOf(Note(l)), p)
  {
  }

  // ---------------------------------------------------------------- bookkeeping of the controller's actions

  /** Commands stay known when only vehicles nobody waits through change, and their entries stay. */
  lemma StillKnown(vs: seq<Vehicle>, vs': seq<Vehicle>, pending: map<nat, Pending>, pending': map<nat, Pending>, q: seq<Command>)
    requires AllKnown(vs, pending, q) && |vs'| == |vs|
    requires forall v, i :: 0 <= v < |vs| && vs'[v] != vs[v] && 0 <= i < |q| ==> vs[v].ticket != q[i].id
    requires forall i :: 0 <= i < |q| ==> q[i].id in pending' && (q[i].id in pending ==> pending'[q[i].id] == pending[q[i].id])
    ensures AllKnown(vs', pending', q)
  {
    forall i | 0 <= i < |q| ensures Known(vs', pending', q[i]) {
      assert Known(vs, pending, q[i]);
      if Awaited(pending[q[i].id]) {
        var v :| 0 <= v < |vs| && WaitsFor(vs[v], q[i]);
        assert vs'[v] == vs[v];
        assert WaitsFor(vs'[v], q[i]);
      }
    }
  }

  lemma Append(l: Link, c: Command, reserved: set<Slot>)
    ensures var n := l.(commands := l.commands + [c], reserved := reserved);
      && Waits(n) == Waits(l) + [c] && Reports(n) == Reports(l) && Outstanding(n) == Outstanding(l) + [c]
      && SlotsOf(n) == SlotsOf(l).(reserved := reserved) && n.phase == l.phase
  {
    var n := l.(commands := l.commands + [c], reserved := reserved);
    assert Waits(n) == Waits(l) + [c];
    assert Reports(n) == Reports(l);
  }

  lemma SortedAppend(q: seq<Command>, c: Command, p: seq<Command>)
    requires Sorted(q, c.id) && Sorted(p, c.id) && Apart(q, p) && c.id > 0
    ensures Sorted(q + [c], c.id + 1) && Sorted(p, c.id + 1) && Apart(q + [c], p) && Apart(p, q + [c])
  {
  }

  /** A new command in the books: numbered last, and known if somebody waits for it. */
  lemma Booked(s: System, b: Board, n: Link, c: Command, reason: Reason, vs: seq<Vehicle>, scan: Option<Scan>)
    requires Numbered(s) && Tracked(s) && s.nextId > 0 && c.id == s.nextId && |vs| == |s.vehicles|
    requires Outstanding(n) == Outstanding(LinkOf(s, b)) + [c]
    requires forall v :: 0 <= v < |vs| && vs[v] != s.vehicles[v] ==> s.vehicles[v].ticket == 0
    requires Awaited(Pending(c.kind, c.vehicle, reason)) ==> exists v :: 0 <= v < |vs| && WaitsFor(vs[v], c)
    ensures var t := WithLink(s.(pending := s.pending[c.id := Pending(c.kind, c.vehicle, reason)], nextId := c.id + 1, vehicles := vs, scan := scan), b, n);
      Numbered(t) && Tracked(t)
  {
    hide Outstanding, Sorted, Apart;
    var q, p := Outstanding(LinkOf(s, b)), Outstanding(LinkOf(s, if b == A then B else A));
    SortedBelow(q, s.nextId);
    SortedBelow(p, s.nextId);
    ApartBothWays(Outstanding(s.a), Outstanding(s.b));
    SortedAppend(q, c, p);
    var pending := s.pending[c.id := Pending(c.kind, c.vehicle, reason)];
    StillKnown(s.vehicles, vs, s.pending, pending, q);
    StillKnown(s.vehicles, vs, s.pending, pending, p);
    assert Known(vs, pending, c);
    hide Known;
    KnownAppend(vs, pending, q, c);
  }

  lemma ApartBothWays(p: seq<Command>, q: seq<Command>)
    requires Apart(p, q)
    ensures Apart(q, p)
  {
  }

  lemma SortedBelow(q: seq<Command>, n: nat)
    requires Sorted(q, n)
    ensures forall i :: 0 <= i < |q| ==> 0 < q[i].id < n
  {
  }

  lemma KnownAppend(vs: seq<Vehicle>, pending: map<nat, Pending>, q: seq<Command>, c: Command)
    requires AllKnown(vs, pending, q) && Known(vs, pending, c)
    ensures AllKnown(vs, pending, q + [c])
  {
    hide Known;
  }

  /** A packet, or a leave for a place nobody holds any more, disturbs no owner. */
  lemma OwnersKept(vs: seq<Vehicle>, a: Link, b: Link, board: Board, c: Command)
    requires Held(vs, a, b) && c.kind != Open
    requires c.kind == Leave ==> forall v :: 0 <= v < |vs| && Holds(vs[v]) ==> vs[v].place.value != Place(board, c.slot)
    ensures var l := if board == A then a else b; var n := l.(commands := l.commands + [c]);
      Held(vs, if board == A then n else a, if board == B then n else b)
  {
    var l := if board == A then a else b;
    Append(l, c, l.reserved);
    hide Waits, Outstanding, Reports;
    var n := l.(commands := l.commands + [c]);
    forall v | 0 <= v < |vs| && Holds(vs[v]) ensures OwnedPlace(if board == A then n else a, if board == B then n else b, vs[v].place.value) {
      assert OwnedPlace(a, b, vs[v].place.value);
      assert vs[v].place.value == Place(vs[v].place.value.board, vs[v].place.value.slot);
    }
  }

  lemma UseLink(l: Link, c: Command)
    requires LinkOk(l) && c.kind != Open && Owned(Waits(l), SlotsOf(l), c.slot)
    ensures LinkOk(l.(commands := l.commands + [c]))
  {
    hide Good, Owned;
    Append(l, c, l.reserved);
    UseGood(Waits(l), Reports(l), SlotsOf(l), l.phase.Ran?, c);
  }

  /** Submitting a packet or a leave on a place its vehicle owns. */
  lemma SubmitKeeps(s: System, b: Board, kind: Kind, vehicle: nat, slot: Slot, reason: Reason, vs: seq<Vehicle>, scan: Option<Scan>)
    requires Inv(s) && kind != Open && Owned(Waits(LinkOf(s, b)), SlotsOf(LinkOf(s, b)), slot)
    requires |vs| == |s.vehicles| && Held(vs, s.a, s.b)
    requires forall v :: 0 <= v < |vs| && vs[v] != s.vehicles[v] ==> s.vehicles[v].ticket == 0
    requires kind == Leave ==> forall v :: 0 <= v < |vs| && Holds(vs[v]) ==> vs[v].place.value != Place(b, slot)
    requires kind == Leave && reason == Exit ==>
      exists v :: 0 <= v < |vs| && vs[v].ticket == s.nextId && vs[v].id == vehicle && vs[v].state == Exiting
    ensures var t := Submit(s, b, kind, vehicle, slot, reason).(vehicles := vs, scan := scan);
      LinkOk(t.a) && LinkOk(t.b) && Numbered(t) && Tracked(t) && Held(vs, t.a, t.b)
  {
    hide LinkOk, Waits, Reports, Outstanding, Owned, Held, Numbered, Tracked;
    var c := Command(s.nextId, kind, vehicle, slot);
    var l := LinkOf(s, b);
    var n := l.(commands := l.commands + [c]);
    Append(l, c, l.reserved);
    UseLink(l, c);
    if kind == Leave && reason == Exit {
      var v :| 0 <= v < |vs| && vs[v].ticket == s.nextId && vs[v].id == vehicle && vs[v].state == Exiting;
      assert WaitsFor(vs[v], c);
    }
    Booked(s, b, n, c, reason, vs, scan);
    OwnersKept(vs, s.a, s.b, b, c);
  }

  // ---------------------------------------------------------------- sending, leaving, searching

  lemma OwnerOwns(s: System, v: nat)
    requires Inv(s) && v < |s.vehicles| && Holds(s.vehicles[v])
    ensures var p := s.vehicles[v].place.value; Owned(Waits(LinkOf(s, p.board)), SlotsOf(LinkOf(s, p.board)), p.slot)
  {
    hide LinkOk, Numbered, Tracked, Fleet, Owned, Waits;
    assert OwnedPlace(s.a, s.b, s.vehicles[v].place.value);
  }

  lemma SendKeeps(s: System, x: Action)
    requires Inv(s) && Enabled(s, x) && x.Sends?
    ensures Inv(Next(s, x))
  {
    hide LinkOk, Numbered, Tracked, Owned, Waits, Outstanding, Held;
    var w := s.vehicles[x.v];
    OwnerOwns(s, x.v);
    SubmitKeeps(s, w.place.value.board, Data, w.id, w.place.value.slot, Telemetry, s.vehicles, s.scan);
  }

  /** Changing one vehicle without giving it a place it did not hold. */
  lemma HeldAfter(vs: seq<Vehicle>, a: Link, b: Link, v: nat, w: Vehicle)
    requires Held(vs, a, b) && v < |vs| && (Holds(w) ==> Holds(vs[v]) && w.place == vs[v].place)
    ensures Held(vs[v := w], a, b)
  {
    hide OwnedPlace;
  }

  lemma ExitingFleet(s: System, v: nat, t: System)
    requires Fleet(s) && Free(s, v)
    requires t.vehicles == s.vehicles[v := s.vehicles[v].(state := Exiting, ticket := s.nextId)]
    requires t.nextId == s.nextId + 1 && t.nextVehicle == s.nextVehicle && t.scan == None
    ensures Fleet(t) && s.vehicles[v].ticket == 0
  {
  }

  lemma LeaveKeeps(s: System, x: Action)
    requires Inv(s) && Enabled(s, x) && x.Exits? && s.vehicles[x.v].place.Some?
    ensures Inv(Next(s, x))
  {
    hide LinkOk, Numbered, Tracked, Owned, Waits, Outstanding, OwnedPlace, Fleet;
    var w := s.vehicles[x.v];
    var n := w.(state := Exiting, ticket := s.nextId);
    var vs := s.vehicles[x.v := n];
    OwnerOwns(s, x.v);
    HeldAfter(s.vehicles, s.a, s.b, x.v, n);
    ExitingFleet(s, x.v, Next(s, x));
    assert vs[x.v].ticket == s.nextId && vs[x.v].id == w.id;
    forall v | 0 <= v < |vs| && Holds(vs[v]) ensures vs[v].place.value != w.place.value { assert vs[v] == s.vehicles[v]; }
    SubmitKeeps(s, w.place.value.board, Leave, w.id, w.place.value.slot, Exit, vs, s.scan);
  }

  lemma BeginKeeps(s: System, v: nat, target: Board, reason: Reason)
    requires Inv(s) && v < |s.vehicles| && s.vehicles[v].ticket == 0 && s.vehicles[v].state in {Connecting, Connected, Disconnected}
    ensures Inv(BeginScan(s, v, target, reason))
  {
    hide LinkOk, AllKnown, Held, Sorted, Apart;
  }

  /** Changing a vehicle nobody waits through keeps every command known. */
  lemma QuietVehicle(s: System, v: nat, w: Vehicle)
    requires Numbered(s) && Tracked(s) && v < |s.vehicles|
    requires forall i :: 0 <= i < |Outstanding(s.a)| ==> Outstanding(s.a)[i].id != s.vehicles[v].ticket
    requires forall i :: 0 <= i < |Outstanding(s.b)| ==> Outstanding(s.b)[i].id != s.vehicles[v].ticket
    ensures Tracked(s.(vehicles := s.vehicles[v := w]))
  {
    hide Outstanding;
    StillKnown(s.vehicles, s.vehicles[v := w], s.pending, s.pending, Outstanding(s.a));
    StillKnown(s.vehicles, s.vehicles[v := w], s.pending, s.pending, Outstanding(s.b));
  }

  lemma NoTicket(s: System, v: nat)
    requires Numbered(s) && v < |s.vehicles| && s.vehicles[v].ticket == 0
    ensures forall i :: 0 <= i < |Outstanding(s.a)| ==> Outstanding(s.a)[i].id != s.vehicles[v].ticket
    ensures forall i :: 0 <= i < |Outstanding(s.b)| ==> Outstanding(s.b)[i].id != s.vehicles[v].ticket
  {
    hide Outstanding;
  }

  lemma FullKeeps(s: System)
    requires Inv(s) && Enabled(s, Scans) && s.scan.value.slot >= 64
    ensures Inv(Next(s, Scans))
  {
    hide LinkOk, AllKnown, Sorted, Apart, OwnedPlace, Outstanding;
    var v := s.scan.value.v;
    var w := s.vehicles[v].(state := Disconnected);
    NoTicket(s, v);
    QuietVehicle(s, v, w);
    HeldAfter(s.vehicles, s.a, s.b, v, w);
  }

  /** The vehicle whose open is being queued. */
  function Asking(w: Vehicle, reason: Reason, id: nat): Vehicle {
    w.(prior := w.place, state := if reason == Switch then Switching else Connecting, ticket := id)
  }

  lemma AskingFleet(s: System, v: nat, u: Vehicle, t: System)
    requires Fleet(s) && v < |s.vehicles| && s.scan.Some? && v == s.scan.value.v && u == Asking(s.vehicles[v], s.scan.value.reason, s.nextId)
    requires t.vehicles == s.vehicles[v := u] && t.nextId == s.nextId + 1 && t.nextVehicle == s.nextVehicle && t.scan == None
    ensures Fleet(t)
  {
  }

  /** The search found an entry that is free on the board's table and not reserved: it still is. */
  lemma ReserveKeeps(s: System)
    requires Inv(s) && Enabled(s, Scans) && s.scan.value.slot < 64
    requires var l := LinkOf(s, s.scan.value.target); l.stats[s.scan.value.slot].None? && s.scan.value.slot !in l.reserved
    ensures Inv(Next(s, Scans))
  {
    hide Fleet, AllKnown, Sorted, Apart, Good, Waits, Reports, Outstanding, Held, Numbered, Tracked;
    var k := s.scan.value;
    var l, w := LinkOf(s, k.target), s.vehicles[k.v];
    var c := Command(s.nextId, Open, w.id, k.slot);
    var n := l.(commands := l.commands + [c], reserved := l.reserved + {k.slot});
    var vs := s.vehicles[k.v := Asking(w, k.reason, s.nextId)];
    OpenGood(Waits(l), Reports(l), SlotsOf(l), l.phase.Ran?, c);
    Append(l, c, l.reserved + {k.slot});
    ScanTicket(s);
    assert WaitsFor(vs[k.v], c);
    Booked(s, k.target, n, c, k.reason, vs, None);
    ReserveHeld(s, k.target, n, c, vs);
    AskingFleet(s, k.v, vs[k.v], Next(s, Scans));
  }

  lemma ScanTicket(s: System)
    requires Fleet(s) && s.scan.Some?
    ensures s.nextId > 0 && s.scan.value.v < |s.vehicles| && s.vehicles[s.scan.value.v].ticket == 0 && s.vehicles[s.scan.value.v].state != Exiting
  {
  }

  lemma ReserveHeld(s: System, b: Board, n: Link, c: Command, vs: seq<Vehicle>)
    requires Held(s.vehicles, s.a, s.b) && |vs| == |s.vehicles|
    requires var l := LinkOf(s, b); Waits(n) == Waits(l) + [c] && SlotsOf(n) == SlotsOf(l).(reserved := l.reserved + {c.slot}) && c.slot !in l.sessions
    requires forall v :: 0 <= v < |vs| ==> vs[v].place == s.vehicles[v].place && (Holds(vs[v]) ==> Holds(s.vehicles[v]))
    ensures Held(vs, if b == A then n else s.a, if b == B then n else s.b)
  {
    hide Waits;
    forall v | 0 <= v < |vs| && Holds(vs[v]) ensures OwnedPlace(if b == A then n else s.a, if b == B then n else s.b, vs[v].place.value) {
      assert OwnedPlace(s.a, s.b, s.vehicles[v].place.value);
    }
  }

  lemma ScanKeeps(s: System)
    requires Inv(s) && Enabled(s, Scans)
    ensures Inv(Next(s, Scans))
  {
    var k := s.scan.value;
    if k.slot >= 64 { FullKeeps(s); }
    else if LinkOf(s, k.target).stats[k.slot].None? && k.slot !in LinkOf(s, k.target).reserved { ReserveKeeps(s); }
    else { hide LinkOk, AllKnown, Sorted, Apart, Held, Outstanding; }
  }

  // ---------------------------------------------------------------- new numbers

  function Ids(vs: seq<Vehicle>, v: nat): (r: set<nat>) {
    set i | 0 <= i < |vs| && i != v :: vs[i].id
  }

  lemma {:induction false} FewIds(vs: seq<Vehicle>, v: nat)
    ensures v < |vs| ==> |Ids(vs, v)| <= |vs| - 1
    ensures |Ids(vs, v)| <= |vs|
    decreases |vs|
  {
    if vs != [] {
      var n := |vs| - 1;
      var rest := vs[..n];
      FewIds(rest, v);
      assert Ids(vs, v) == if v == n then Ids(rest, v) else Ids(rest, v) + {vs[n].id} by {
        forall x ensures x in Ids(vs, v) <==> x in (if v == n then Ids(rest, v) else Ids(rest, v) + {vs[n].id}) {
          if x in Ids(vs, v) {
            var i :| 0 <= i < |vs| && i != v && vs[i].id == x;
            if i < n { assert rest[i].id == x; }
          }
          if x in Ids(rest, v) {
            var i :| 0 <= i < n && i != v && rest[i].id == x;
            assert vs[i].id == x;
          }
        }
      }
    }
  }

  function UpTo(k: nat): (r: set<nat>)
    ensures |r| == k && forall x: nat :: x in r <==> x < k
  {
    if k == 0 then {} else UpTo(k - 1) + {k - 1}
  }

  /** With at most 64 vehicles one of the 64 numbers is free for each. */
  lemma SomeFree(vs: seq<Vehicle>, v: nat) returns (id: nat)
    requires v < |vs| <= 64
    ensures id < 64 && !Used(vs, v, id)
  {
    if forall x: nat :: x < 64 ==> Used(vs, v, x) {
      FewIds(vs, v);
      var all := UpTo(64);
      assert all <= Ids(vs, v) by {
        forall x | x in all ensures x in Ids(vs, v) {
          assert Used(vs, v, x);
        }
      }
      Subset(all, Ids(vs, v));
      assert false;
    }
    id :| id < 64 && !Used(vs, v, id);
  }

  lemma Subset(a: set<nat>, b: set<nat>)
    requires a <= b
    ensures |a| <= |b|
  {
    assert b == a + (b - a);
  }

  function Ahead(start: nat, id: nat): nat
    requires start < 64 && id < 64
  {
    if id >= start then id - start else id + 64 - start
  }

  lemma {:induction false} FreshFinds(vs: seq<Vehicle>, v: nat, id: nat, tries: nat, free: nat)
    requires id < 64 && free < 64 && !Used(vs, v, free) && tries + Ahead(id, free) < 64
    ensures Fresh(vs, v, id, tries) < 64 && !Used(vs, v, Fresh(vs, v, id, tries))
    decreases 64 - tries
  {
    if Used(vs, v, id) { FreshFinds(vs, v, (id + 1) % 64, tries + 1, free); }
  }

  /** On a full road the first number handed out is 64 itself, one past the sixty-four the vehicles
      started with; from then on the numbers are taken modulo 64. */
  lemma FreshIsUnused(vs: seq<Vehicle>, v: nat, next: nat)
    requires v < |vs| <= 64 && next <= 64 && (next == 64 ==> SmallNumbers(vs))
    ensures var id := Fresh(vs, v, next, 0); !Used(vs, v, id) && (if next == 64 then id == 64 else id < 64)
  {
    if next < 64 {
      var free := SomeFree(vs, v);
      FreshFinds(vs, v, next, 0, free);
    }
  }

  /** A respawned vehicle gets a number nobody else has. */
  lemma RespawnKeeps(s: System, v: nat, target: Board)
    requires Inv(s) && v < |s.vehicles| && s.scan.None?
    requires forall i :: 0 <= i < |Outstanding(s.a)| ==> Outstanding(s.a)[i].id != s.vehicles[v].ticket
    requires forall i :: 0 <= i < |Outstanding(s.b)| ==> Outstanding(s.b)[i].id != s.vehicles[v].ticket
    ensures Inv(BeginScan(Respawn(s, v), v, target, Entry))
  {
    hide LinkOk, AllKnown, Sorted, Apart, OwnedPlace, Outstanding;
    FreshIsUnused(s.vehicles, v, s.nextVehicle);
    var id := Fresh(s.vehicles, v, s.nextVehicle, 0);
    hide Fresh;
    var w := Vehicle(id, None, None, Connecting, 0);
    QuietVehicle(s, v, w);
    HeldAfter(s.vehicles, s.a, s.b, v, w);
    var vs := s.vehicles[v := w];
    forall i, j | 0 <= i < j < |vs| ensures vs[i].id != vs[j].id {
      assert !Used(s.vehicles, v, id);
    }
  }

  // ---------------------------------------------------------------- handling results

  /** The books without the oldest command of one board. */
  lemma Closed(s: System, b: Board, n: Link, c: Command, pending: map<nat, Pending>)
    requires Numbered(s) && Tracked(s) && Outstanding(LinkOf(s, b)) == [c] + Outstanding(n)
    requires pending == s.pending - {c.id}
    ensures var t := WithLink(s.(pending := pending), b, n); Numbered(t) && Tracked(t)
    ensures var t := WithLink(s.(pending := pending), b, n);
      (forall i :: 0 <= i < |Outstanding(t.a)| ==> Outstanding(t.a)[i].id != c.id) && (forall i :: 0 <= i < |Outstanding(t.b)| ==> Outstanding(t.b)[i].id != c.id)
    ensures Known(s.vehicles, s.pending, c) && c.id > 0
  {
    hide Outstanding, Sorted, Apart, AllKnown, Known;
    ApartBothWays(Outstanding(s.a), Outstanding(s.b));
    var p := Outstanding(LinkOf(s, if b == A then B else A));
    ClosedBooks(s.vehicles, s.pending, Outstanding(n), p, c, s.nextId);
    ApartBothWays(Outstanding(n), p);
  }

  /** The oldest of the numbered commands goes; the others stay numbered and known, under other ids. */
  lemma ClosedBooks(vs: seq<Vehicle>, pending: map<nat, Pending>, r: seq<Command>, p: seq<Command>, c: Command, n: nat)
    requires var q := [c] + r; Sorted(q, n) && Sorted(p, n) && Apart(q, p) && AllKnown(vs, pending, q) && AllKnown(vs, pending, p)
    ensures Sorted(r, n) && Apart(r, p) && AllKnown(vs, pending - {c.id}, r) && AllKnown(vs, pending - {c.id}, p)
    ensures (forall i :: 0 <= i < |r| ==> r[i].id != c.id) && (forall i :: 0 <= i < |p| ==> p[i].id != c.id)
    ensures Known(vs, pending, c) && c.id > 0
  {
    hide Known;
    var q := [c] + r;
    assert q[0] == c && forall i :: 0 <= i < |r| ==> r[i] == q[i + 1];
    assert Known(vs, pending, q[0]);
    forall i | 0 <= i < |r| ensures Known(vs, pending, r[i]) && r[i].id != c.id { assert Known(vs, pending, q[i + 1]); }
    forall i | 0 <= i < |p| ensures p[i].id != c.id { assert q[0].id != p[i].id; }
    InPending(vs, pending, r);
    InPending(vs, pending, p);
    StillKnown(vs, vs, pending, pending - {c.id}, r);
    StillKnown(vs, vs, pending, pending - {c.id}, p);
  }

  lemma InPending(vs: seq<Vehicle>, pending: map<nat, Pending>, q: seq<Command>)
    requires AllKnown(vs, pending, q)
    ensures forall i :: 0 <= i < |q| ==> q[i].id in pending
  {
    forall i | 0 <= i < |q| ensures q[i].id in pending { assert Known(vs, pending, q[i]); }
  }

  lemma InboxHead(l: Link, reserved: set<Slot>)
    requires l.inbox != []
    ensures var n := l.(inbox := l.inbox[1..], reserved := reserved);
      && Reports(l) == [l.inbox[0]] + Reports(n) && Waits(n) == Waits(l) && n.phase == l.phase
      && Outstanding(l) == [l.inbox[0].c] + Outstanding(n) && SlotsOf(n) == SlotsOf(l).(reserved := reserved)
      && Reports(l) != [] && Reports(l)[0] == l.inbox[0] && Reports(l)[1..] == Reports(n)
      && (l.phase.Ran? ==> |Reports(l)| > 1)
  {
    var n := l.(inbox := l.inbox[1..], reserved := reserved);
    assert l.inbox == [l.inbox[0]] + n.inbox;
    assert Reports(l) == [l.inbox[0]] + Reports(n);
    assert Cmds(Reports(l)) == [l.inbox[0].c] + Cmds(Reports(n));
  }

  /** Owners lose nothing when a reservation is released. */
  lemma ReleaseHeld(s: System, b: Board, n: Link)
    requires Held(s.vehicles, s.a, s.b)
    requires var l := LinkOf(s, b); Waits(n) == Waits(l) && n.sessions == l.sessions && n.reserved <= l.reserved
    ensures var t := WithLink(s, b, n); Held(s.vehicles, t.a, t.b)
  {
    hide Waits;
    forall v | 0 <= v < |s.vehicles| && Holds(s.vehicles[v])
      ensures OwnedPlace(WithLink(s, b, n).a, WithLink(s, b, n).b, s.vehicles[v].place.value)
    {
      assert OwnedPlace(s.a, s.b, s.vehicles[v].place.value);
    }
  }

  lemma FindFinds(vs: seq<Vehicle>, id: nat, v: nat)
    requires v < |vs| && vs[v].id == id && forall i, j :: 0 <= i < j < |vs| ==> vs[i].id != vs[j].id
    ensures Find(vs, id) == v
  {
    if vs[0].id != id { FindFinds(vs[1..], id, v - 1); }
  }

  /** The system once the oldest polled result of a board is off the books. */
  function Released(s: System, b: Board): System
    requires LinkOf(s, b).inbox != []
  {
    var l := LinkOf(s, b);
    var r := l.inbox[0];
    WithLink(s.(pending := s.pending - {r.c.id}), b, Dropped(l))
  }

  function Dropped(l: Link): Link
    requires l.inbox != []
  {
    var c := l.inbox[0].c;
    l.(inbox := l.inbox[1..], reserved := if c.kind == Open then l.reserved - {c.slot} else l.reserved)
  }

  lemma ReleaseLink(l: Link)
    requires LinkOk(l) && l.inbox != []
    ensures LinkOk(Dropped(l))
  {
    hide Good;
    InboxHead(l, Dropped(l).reserved);
    HandleGood(Waits(l), Reports(l), SlotsOf(l), l.phase.Ran?);
  }

  ghost predicate Unawaited(s: System, id: nat) {
    && (forall i :: 0 <= i < |Outstanding(s.a)| ==> Outstanding(s.a)[i].id != id)
    && (forall i :: 0 <= i < |Outstanding(s.b)| ==> Outstanding(s.b)[i].id != id)
  }

  lemma ReleaseKeeps(s: System, b: Board)
    requires Inv(s) && LinkOf(s, b).inbox != [] && s.scan.None?
    ensures var c := LinkOf(s, b).inbox[0].c;
      Inv(Released(s, b)) && Unawaited(Released(s, b), c.id) && Known(s.vehicles, s.pending, c) && c.id > 0
  {
    hide LinkOk, Waits, Reports, Outstanding, Held, Numbered, Tracked, VehicleOk, Known;
    var l := LinkOf(s, b);
    var r := l.inbox[0];
    var n := Dropped(l);
    InboxHead(l, n.reserved);
    ReleaseLink(l);
    Closed(s, b, n, r.c, s.pending - {r.c.id});
    ReleaseHeld(s, b, n);
  }

  /** A reported success: its slot is a session the vehicle can take over, and nobody holds it. */
  lemma OpenedSlot(s: System, b: Board)
    requires Inv(s) && LinkOf(s, b).inbox != [] && LinkOf(s, b).inbox[0].c.kind == Open && LinkOf(s, b).inbox[0].ok
    ensures var p := LinkOf(s, b).inbox[0].c.slot; var n := LinkOf(Released(s, b), b);
      && Owned(Waits(n), SlotsOf(n), p)
      && forall v :: 0 <= v < |s.vehicles| && Holds(s.vehicles[v]) ==> s.vehicles[v].place.value != Place(b, p)
  {
    var l := LinkOf(s, b);
    var r := l.inbox[0];
    InboxHead(l, l.reserved - {r.c.slot});
    assert OpenOk(SlotsOf(l), Waits(l), Reports(l)[0], true) by { hide Outstanding; }
    forall v | 0 <= v < |s.vehicles| && Holds(s.vehicles[v]) ensures s.vehicles[v].place.value != Place(b, r.c.slot) {
      assert OwnedPlace(s.a, s.b, s.vehicles[v].place.value);
    }
  }

  /** One vehicle whose ticket nobody else is waiting through changes; it may take a place over. */
  lemma VehicleKeeps(s: System, v: nat, w: Vehicle)
    requires Inv(s) && v < |s.vehicles| && s.scan.None? && Unawaited(s, s.vehicles[v].ticket)
    requires w.id == s.vehicles[v].id && VehicleOk(w, s.nextId)
    requires Holds(w) ==>
      (Holds(s.vehicles[v]) && w.place == s.vehicles[v].place) ||
      (OwnedPlace(s.a, s.b, w.place.value) && forall u :: 0 <= u < |s.vehicles| && Holds(s.vehicles[u]) ==> s.vehicles[u].place != w.place)
    ensures Inv(WithVehicle(s, v, w))
  {
    hide LinkOk, AllKnown, Sorted, Apart, OwnedPlace, Outstanding, VehicleOk;
    QuietVehicle(s, v, w);
    NewHeld(s.vehicles, s.a, s.b, v, w);
  }

  lemma NewHeld(vs: seq<Vehicle>, a: Link, b: Link, v: nat, w: Vehicle)
    requires Held(vs, a, b) && v < |vs|
    requires Holds(w) ==>
      (Holds(vs[v]) && w.place == vs[v].place) ||
      (OwnedPlace(a, b, w.place.value) && forall u :: 0 <= u < |vs| && Holds(vs[u]) ==> vs[u].place != w.place)
    ensures Held(vs[v := w], a, b)
  {
    hide OwnedPlace;
  }

  lemma AwaitingVehicle(s: System, c: Command) returns (v: nat)
    requires Fleet(s) && Known(s.vehicles, s.pending, c) && Awaited(s.pending[c.id])
    ensures v < |s.vehicles| && WaitsFor(s.vehicles[v], c) && Find(s.vehicles, c.vehicle) == v
  {
    v :| 0 <= v < |s.vehicles| && WaitsFor(s.vehicles[v], c);
    FindFinds(s.vehicles, c.vehicle, v);
  }

  lemma OpenHandled(s: System, b: Board, v: nat)
    requires Inv(s) && LinkOf(s, b).inbox != [] && s.scan.None? && LinkOf(s, b).inbox[0].c.kind == Open
    requires v < |s.vehicles| && WaitsFor(s.vehicles[v], LinkOf(s, b).inbox[0].c)
    requires Known(s.vehicles, s.pending, LinkOf(s, b).inbox[0].c)
    ensures var r := LinkOf(s, b).inbox[0]; Inv(Opened(Released(s, b), v, b, r, s.pending[r.c.id].reason))
  {
    hide LinkOk, AllKnown, Sorted, Apart, OwnedPlace, Outstanding, Held, Waits, Owned;
    var r := LinkOf(s, b).inbox[0];
    var t := Released(s, b);
    ReleaseKeeps(s, b);
    var w := s.vehicles[v];
    assert t.vehicles == s.vehicles && VehicleOk(w, s.nextId);
    if r.ok {
      OpenedSlot(s, b);
      var n := w.(place := Some(Place(b, r.c.slot)), prior := None, state := Connected, ticket := 0);
      assert OwnedPlace(t.a, t.b, n.place.value) by { PlaceOf(t, b, r.c.slot); }
      VehicleKeeps(t, v, n);
      if s.pending[r.c.id].reason == Switch && w.prior.Some? { OldLeft(s, t, v, n); }
    } else {
      var n := w.(place := if w.prior.Some? then w.prior else w.place, prior := None,
                  state := if w.prior.Some? then Connected else Disconnected, ticket := 0);
      VehicleKeeps(t, v, n);
    }
  }

  lemma PlaceOf(s: System, b: Board, p: Slot)
    requires Owned(Waits(LinkOf(s, b)), SlotsOf(LinkOf(s, b)), p)
    ensures OwnedPlace(s.a, s.b, Place(b, p))
  {
    hide Owned, Waits;
  }

  /** Make before break: only now is the old board told, and nobody holds the old place any more. */
  lemma OldLeft(s: System, t: System, v: nat, n: Vehicle)
    requires Inv(t) && v < |t.vehicles| && Holds(t.vehicles[v]) && t.vehicles[v].prior == t.vehicles[v].place
    requires Inv(WithVehicle(t, v, n)) && n.place.Some? && n.place != t.vehicles[v].place && t.vehicles[v].id == n.id && t.scan.None?
    ensures var p := t.vehicles[v].prior.value; Inv(Submit(WithVehicle(t, v, n), p.board, Leave, n.id, p.slot, OldSlot))
  {
    hide LinkOk, AllKnown, Sorted, Apart, OwnedPlace, Outstanding, Waits, Owned;
    var p := t.vehicles[v].prior.value;
    OwnerOwns(t, v);
    var u := WithVehicle(t, v, n);
    forall w | 0 <= w < |u.vehicles| && Holds(u.vehicles[w]) ensures u.vehicles[w].place.value != p {
      if w != v { assert u.vehicles[w] == t.vehicles[w]; }
    }
    SubmitKeeps(u, p.board, Leave, n.id, p.slot, OldSlot, u.vehicles, u.scan);
  }

  predicate ToldToLeave(l: Link, p: Slot) { exists i :: 0 <= i < |Waits(l)| && Waits(l)[i].kind == Leave && Waits(l)[i].slot == p }

  /** Not every open slot has a holder.  When an open succeeds, the place the vehicle had before is
      still open and held by nobody; it is told to leave exactly when the open was a switch. */
  lemma OldSlotFate(s: System, b: Board, v: nat)
    requires Inv(s) && LinkOf(s, b).inbox != [] && s.scan.None?
    requires LinkOf(s, b).inbox[0].c.kind == Open && LinkOf(s, b).inbox[0].ok
    requires v < |s.vehicles| && WaitsFor(s.vehicles[v], LinkOf(s, b).inbox[0].c) && s.vehicles[v].prior.Some?
    requires Known(s.vehicles, s.pending, LinkOf(s, b).inbox[0].c)
    ensures var r := LinkOf(s, b).inbox[0]; var reason := s.pending[r.c.id].reason; var p := s.vehicles[v].prior.value;
      var n := Opened(Released(s, b), v, b, r, reason);
      && p.slot in LinkOf(n, p.board).sessions
      && (forall w :: 0 <= w < |n.vehicles| && Holds(n.vehicles[w]) ==> n.vehicles[w].place.value != p)
      && (ToldToLeave(LinkOf(n, p.board), p.slot) <==> reason == Switch)
  {
    hide LinkOk, Numbered, Tracked, Outstanding, Reports, Waits, OwnedPlace;
    var r := LinkOf(s, b).inbox[0];
    var t, p := Released(s, b), s.vehicles[v].prior.value;
    ReleaseKeeps(s, b);
    OpenedSlot(s, b);
    assert VehicleOk(s.vehicles[v], s.nextId) && Holds(t.vehicles[v]);
    OwnerOwns(t, v);
    var l := LinkOf(t, p.board);
    var c := Command(t.nextId, Leave, s.vehicles[v].id, p.slot);
    Append(l, c, l.reserved);
    assert (Waits(l) + [c])[|Waits(l)|] == c;
  }

  lemma HandleKeeps(s: System, b: Board, target: Board)
    requires Inv(s) && LinkOf(s, b).inbox != [] && s.scan.None?
    ensures Inv(Handle(s, b, target))
  {
    hide LinkOk, AllKnown, Sorted, Apart, OwnedPlace, Outstanding, Held, Waits, Owned, Respawn, Opened;
    var r := LinkOf(s, b).inbox[0];
    ReleaseKeeps(s, b);
    var p := s.pending[r.c.id];
    if Awaited(p) {
      var v := AwaitingVehicle(s, r.c);
      if p.kind == Open { OpenHandled(s, b, v); } else { RespawnKeeps(Released(s, b), v, target); }
    }
  }

  // ---------------------------------------------------------------- every interleaving

  /** Each single action of either thread keeps the whole invariant. */
  lemma NextKeeps(s: System, x: Action)
    requires Inv(s) && Enabled(s, x)
    ensures Inv(Next(s, x))
  {
    hide Inv, Handle, ScanStep, BeginScan, Submit, Get, Run, Note, Put, Poll, Respawn;
    if x.Gets? || x.Runs? || x.Notes? || x.Puts? || x.Polls? { WorkerKeeps(s, x); }
    else if x.Handles? { HandleKeeps(s, x.board, x.target); }
    else if x.Scans? { ScanKeeps(s); }
    else if x.Sends? { SendKeeps(s, x); }
    else if x.Exits? {
      FreeVehicle(s, x.v);
      if s.vehicles[x.v].place.Some? { LeaveKeeps(s, x); } else { RespawnKeeps(s, x.v, x.target); }
    } else if x.Enters? { BeginKeeps(s, x.v, x.target, Entry); }
    else if x.Retries? { FreeVehicle(s, x.v); BeginKeeps(s, x.v, x.target, Retry); }
    else { FreeVehicle(s, x.v); BeginKeeps(s, x.v, x.target, Switch); }
  }

  lemma FreeVehicle(s: System, v: nat)
    requires Inv(s) && Free(s, v)
    ensures s.vehicles[v].ticket == 0 && Unawaited(s, 0)
  {
    hide LinkOk, Tracked, Held, Outstanding;
    NoTicket(s, v);
  }

  ghost predicate Runnable(s: System, run: seq<Action>)
    decreases |run|
  {
    run == [] || (Enabled(s, run[0]) && Runnable(Next(s, run[0]), run[1..]))
  }

  ghost function After(s: System, run: seq<Action>): System
    requires Runnable(s, run)
    decreases |run|
  {
    if run == [] then s else After(Next(s, run[0]), run[1..])
  }

  /** What the demo promises of its slots. */
  ghost predicate Safe(s: System) {
    // no two vehicles that have not been told to leave share a slot
    && (forall v, w :: 0 <= v < w < |s.vehicles| && Holds(s.vehicles[v]) && Holds(s.vehicles[w]) ==> s.vehicles[v].place != s.vehicles[w].place)
    // each such slot is a session of its board
    && (forall v :: 0 <= v < |s.vehicles| && Holds(s.vehicles[v]) ==>
          s.vehicles[v].place.value.slot in LinkOf(s, s.vehicles[v].place.value.board).sessions)
    && SafeQueue(s.a) && SafeQueue(s.b)
    // vehicle numbers are distinct
    && (forall v, w :: 0 <= v < w < |s.vehicles| ==> s.vehicles[v].id != s.vehicles[w].id)
  }

  /** Of the commands still to run, every open names a closed slot and everything else an open one. */
  ghost predicate SafeQueue(l: Link) {
    forall i :: 0 <= i < |Waits(l)| ==> (Waits(l)[i].kind == Open <==> Waits(l)[i].slot !in l.sessions)
  }

  lemma InvSafe(s: System)
    requires Inv(s)
    ensures Safe(s)
  {
    hide Numbered, Tracked, Outstanding, Waits, Reports;
    QueueSafe(s.a);
    QueueSafe(s.b);
    forall v | 0 <= v < |s.vehicles| && Holds(s.vehicles[v])
      ensures s.vehicles[v].place.value.slot in LinkOf(s, s.vehicles[v].place.value.board).sessions
    {
      assert OwnedPlace(s.a, s.b, s.vehicles[v].place.value);
    }
  }

  lemma QueueSafe(l: Link)
    requires LinkOk(l)
    ensures SafeQueue(l)
  {
    hide Waits, Reports;
    forall i | 0 <= i < |Waits(l)| ensures Waits(l)[i].kind == Open <==> Waits(l)[i].slot !in l.sessions {
      assert WaitOk(SlotsOf(l), Waits(l)[i]);
    }
  }

  function EmptyLink(): Link { Link([], Waiting, [], [], seq(64, _ => None), {}, {}) }

  /** Between one and sixty-four vehicles, numbered from 0 on in any order, and nothing open anywhere. */
  ghost predicate Initial(s: System) {
    && s.a == EmptyLink() && s.b == EmptyLink() && s.pending == map[] && s.nextId == 1 && s.scan == None
    && 1 <= |s.vehicles| <= 64 && s.nextVehicle == |s.vehicles|
    && (forall v :: 0 <= v < |s.vehicles| ==>
          s.vehicles[v] == Vehicle(s.vehicles[v].id, None, None, Connecting, 0) && s.vehicles[v].id < |s.vehicles|)
    && (forall v, w :: 0 <= v < w < |s.vehicles| ==> s.vehicles[v].id != s.vehicles[w].id)
  }

  lemma InitialInv(s: System)
    requires Initial(s)
    ensures Inv(s)
  {
    assert Waits(EmptyLink()) == [] && Reports(EmptyLink()) == [];
    assert Outstanding(EmptyLink()) == [];
  }

  /** In every interleaving of the controller and the two workers, with any operation failing at any
      time, no two holders share a slot, no open is run on a slot still open on its board, and every
      packet and every leave finds its session. */
  lemma {:induction false} EveryRunIsSafe(s: System, run: seq<Action>)
    requires Inv(s) && Runnable(s, run)
    ensures Inv(After(s, run)) && Safe(After(s, run))
    decreases |run|
  {
    hide Inv, Safe, Next, Enabled;
    if run == [] {
      InvSafe(s);
    } else {
      NextKeeps(s, run[0]);
      EveryRunIsSafe(Next(s, run[0]), run[1..]);
    }
  }

  lemma DemoIsSafe(s: System, run: seq<Action>)
    requires Initial(s) && Runnable(s, run)
    ensures Safe(After(s, run))
  {
    hide Inv, Safe, Next, Enabled;
    InitialInv(s);
    EveryRunIsSafe(s, run);
  }

  // ---------------------------------------------------------------- the demo

  class HandoverDemo {
    var s: System

    constructor (vehicles: seq<Vehicle>)
      requires Initial(System(vehicles, EmptyLink(), EmptyLink(), map[], 1, |vehicles|, None))
      ensures Initial(s) && Inv(s) && s.vehicles == vehicles
    {
      s := System(vehicles, EmptyLink(), EmptyLink(), map[], 1, |vehicles|, None);
      new;
      InitialInv(s);
    }

    /** One atomic action of the controller or of a worker. */
    method Act(x: Action)
      requires Inv(s) && Enabled(s, x)
      modifies this
      ensures s == Next(old(s), x) && Inv(s) && Safe(s)
    {
      hide Inv, Safe, Next, Enabled, Initial;
      NextKeeps(s, x);
      s := Next(s, x);
      InvSafe(s);
    }
  }
}
