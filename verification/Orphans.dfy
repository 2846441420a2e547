/** Slots the handover demo loses: open on a board, held by no vehicle, and never told to leave. */
module Orphans {
  import opened Handover

  /** The session is open and reported, nobody has asked to close it, and nobody holds it. */
  ghost predicate Orphan(s: System, p: Place) { Standing(LinkOf(s, p.board), p.slot) && Unheld(s.vehicles, p) }

  ghost predicate Standing(l: Link, p: Slot) { Owned(Waits(l), SlotsOf(l), p) }

  ghost predicate Unheld(vs: seq<Vehicle>, p: Place) {
    forall v :: 0 <= v < |vs| && Holds(vs[v]) ==> vs[v].place.value != p
  }

  predicate At(w: Vehicle, p: Place) { Holds(w) && w.place.value == p }

  /** A vehicle that is at p before and after, or neither, changes nothing for p. */
  lemma UnheldAfter(vs: seq<Vehicle>, v: nat, w: Vehicle, p: Place)
    requires v < |vs| && At(w, p) == At(vs[v], p)
    ensures Unheld(vs[v := w], p) <==> Unheld(vs, p)
  {
    var n := vs[v := w];
    if Unheld(n, p) {
      forall u | 0 <= u < |vs| && Holds(vs[u]) ensures vs[u].place.value != p { if u != v { assert n[u] == vs[u]; } else { assert n[v] == w; } }
    }
    if Unheld(vs, p) { assert !At(vs[v], p); }
  }

  /** A vehicle that was the only one at its place and is at another one now. */
  lemma UnheldMoved(vs: seq<Vehicle>, v: nat, w: Vehicle, p: Place)
    requires v < |vs| && (At(vs[v], p) ==> forall u :: 0 <= u < |vs| && u != v ==> !At(vs[u], p))
    ensures Unheld(vs[v := w], p) <==> !At(w, p) && (At(vs[v], p) || Unheld(vs, p))
  {
    var n := vs[v := w];
    if Unheld(n, p) {
      assert n[v] == w;
      if !At(vs[v], p) {
        forall u | 0 <= u < |vs| && Holds(vs[u]) ensures vs[u].place.value != p { if u != v { assert n[u] == vs[u]; } }
      }
    }
    if !At(w, p) && At(vs[v], p) {
      forall u | 0 <= u < |n| && Holds(n[u]) ensures n[u].place.value != p { if u != v { assert n[u] == vs[u] && !At(vs[u], p); } }
    }
  }

  /** A holder's place is a standing session, and nobody else is there. */
  lemma HeldAlone(s: System, v: nat, p: Place)
    requires Inv(s) && v < |s.vehicles| && At(s.vehicles[v], p)
    ensures Standing(LinkOf(s, p.board), p.slot) && !Unheld(s.vehicles, p)
    ensures forall u :: 0 <= u < |s.vehicles| && u != v ==> !At(s.vehicles[u], p)
  {
    OwnerOwns(s, v);
    forall u | 0 <= u < |s.vehicles| && u != v ensures !At(s.vehicles[u], p) {
      if Holds(s.vehicles[u]) { assert s.vehicles[u].place != s.vehicles[v].place; }
    }
  }

  /** The two ways to lose a slot, and the slot lost: the board refuses a leave, or an open that is
      not a switch succeeds for a vehicle that has a place already. */
  function LossOf(s: System, x: Action): Option<Place>
    requires Enabled(s, x)
  {
    match x
    case Runs(b, ok) =>
      var c := LinkOf(s, b).phase.c;
      if c.kind == Leave && !ok then Some(Place(b, c.slot)) else None
    case Handles(b, _) =>
      var r := LinkOf(s, b).inbox[0];
      if r.c.kind == Open && r.ok && r.c.id in s.pending && s.pending[r.c.id].reason != Switch then
        var v := Find(s.vehicles, s.pending[r.c.id].vehicle);
        if v < |s.vehicles| then s.vehicles[v].prior else None
      else None
    case _ => None
  }

  // ---------------------------------------------------------------- what the steps do to one place

  lemma Appended(l: Link, c: Command, reserved: set<Slot>, p: Slot)
    requires reserved == if c.kind == Open then l.reserved + {c.slot} else l.reserved
    ensures var n := l.(commands := l.commands + [c], reserved := reserved);
      Standing(n, p) <==> Standing(l, p) && (c.slot == p ==> c.kind == Data)
  {
    Append(l, c, reserved);
    var n := l.(commands := l.commands + [c], reserved := reserved);
    forall i | 0 <= i < |Waits(l)| ensures Waits(n)[i] == Waits(l)[i] {}
    assert Waits(n)[|Waits(l)|] == c;
  }

  lemma SubmitMoves(s: System, b: Board, kind: Kind, vehicle: nat, slot: Slot, reason: Reason, p: Place)
    requires kind != Open
    ensures var l := LinkOf(Submit(s, b, kind, vehicle, slot, reason), p.board);
      Standing(l, p.slot) <==> Standing(LinkOf(s, p.board), p.slot) && (Place(b, slot) == p ==> kind == Data)
  {
    hide Standing;
    if b == p.board { Appended(LinkOf(s, b), Command(s.nextId, kind, vehicle, slot), LinkOf(s, b).reserved, p.slot); }
  }

  lemma StandsOpen(l: Link, p: Slot)
    requires Standing(l, p)
    ensures p !in l.reserved && p in l.sessions
  {
  }

  /** The oldest command is about to run: it names an open slot exactly if it is not an open. */
  lemma OldestWaits(l: Link)
    requires LinkOk(l) && l.phase.Got?
    ensures WaitOk(SlotsOf(l), l.phase.c)
    ensures l.phase.c.kind != Data ==> !Mentions(l.commands, l.phase.c.slot)
  {
    assert Waits(l)[0] == l.phase.c && Waits(l)[1..] == l.commands;
    if l.phase.c.kind != Data { NoLater(Waits(l)); }
  }

  /** Running a command opens no session anybody has heard of, and a refused leave leaves its session
      standing with nobody asking for it any more. */
  lemma RunMoves(l: Link, ok: bool, p: Slot)
    requires LinkOk(l) && l.phase.Got?
    ensures Standing(Run(l, ok), p) <==> Standing(l, p) || (l.phase.c.kind == Leave && !ok && l.phase.c.slot == p)
  {
    var c, n := l.phase.c, Run(l, ok);
    OldestWaits(l);
    hide LinkOk;
    assert Waits(l) == [c] + l.commands && Waits(n) == l.commands;
    FirstGone(c, l.commands, p);
    hide Waits, Mentions;
  }

  /** All commands for p are packets, with and without the oldest command. */
  lemma FirstGone(c: Command, q: seq<Command>, p: Slot)
    ensures (forall i :: 0 <= i < |[c] + q| && ([c] + q)[i].slot == p ==> ([c] + q)[i].kind == Data) <==>
      (c.slot == p ==> c.kind == Data) && forall i :: 0 <= i < |q| && q[i].slot == p ==> q[i].kind == Data
    ensures !Mentions(q, p) ==> forall i :: 0 <= i < |q| && q[i].slot == p ==> q[i].kind == Data
  {
    var n := [c] + q;
    assert n[0] == c;
    forall i | 0 <= i < |q| ensures n[i + 1] == q[i] {}
    forall i | 1 <= i < |n| ensures n[i] == q[i - 1] {}
  }

  lemma NoteMoves(l: Link, p: Slot)
    requires LinkOk(l) && l.phase.Ran?
    ensures Standing(Note(l), p) <==> Standing(l, p)
  {
    NoteKeeps(l);
  }

  /** A slot with a leave waiting for it is held by nobody. */
  lemma LeavingUnheld(s: System, b: Board)
    requires Inv(s) && LinkOf(s, b).phase.Got? && LinkOf(s, b).phase.c.kind == Leave
    ensures Unheld(s.vehicles, Place(b, LinkOf(s, b).phase.c.slot))
  {
    var l := LinkOf(s, b);
    assert Waits(l)[0] == l.phase.c;
    forall v | 0 <= v < |s.vehicles| && Holds(s.vehicles[v]) ensures s.vehicles[v].place.value != Place(b, l.phase.c.slot) {
      assert OwnedPlace(s.a, s.b, s.vehicles[v].place.value);
    }
  }

  lemma WorkerMoves(s: System, x: Action, p: Place)
    requires Inv(s) && Enabled(s, x) && (x.Gets? || x.Runs? || x.Notes? || x.Puts? || x.Polls?)
    ensures Orphan(Next(s, x), p) <==> Orphan(s, p) || LossOf(s, x) == Some(p)
  {
    hide Inv, LinkOk, Unheld, Waits, Reports, SlotsOf, Owned, Get, Run, Note, Put, Poll;
    var l := LinkOf(s, x.board);
    LinksOk(s, x.board);
    if x.Runs? && l.phase.c.kind == Leave { LeavingUnheld(s, x.board); }
    if x.board == p.board {
      match x {
      case Gets(_) => GetKeeps(l); GetSlots(l);
      case Runs(_, ok) => RunMoves(l, ok, p.slot);
      case Notes(_) => NoteMoves(l, p.slot);
      case Puts(_) => PutKeeps(l); PutSlots(l);
      case Polls(_) => PollKeeps(l); PollSlots(l);
      }
    }
  }

  /** A table entry that is free and not reserved is no open session. */
  lemma FreeNotStanding(s: System, b: Board, slot: Slot)
    requires Inv(s) && LinkOf(s, b).stats[slot].None? && slot !in LinkOf(s, b).reserved
    ensures !Standing(LinkOf(s, b), slot)
  {
    LinksOk(s, b);
    var l := LinkOf(s, b);
    assert slot !in SlotsOf(l).sessions;
  }

  lemma ScanMoves(s: System, p: Place)
    requires Inv(s) && Enabled(s, Scans)
    ensures Orphan(Next(s, Scans), p) <==> Orphan(s, p)
  {
    hide LinkOk, Held, Numbered, Tracked, VehicleOk, Standing, Unheld;
    var k := s.scan.value;
    var l := LinkOf(s, k.target);
    var w := s.vehicles[k.v];
    ScanTicket(s);
    if k.slot >= 64 { UnheldAfter(s.vehicles, k.v, w.(state := Disconnected), p); }
    else if l.stats[k.slot].None? && k.slot !in l.reserved {
      var c := Command(s.nextId, Open, w.id, k.slot);
      UnheldAfter(s.vehicles, k.v, Asking(w, k.reason, s.nextId), p);
      if k.target == p.board { Appended(l, c, l.reserved + {k.slot}, p.slot); }
      FreeNotStanding(s, k.target, k.slot);
    }
  }

  lemma LeaveMoves(s: System, x: Action, p: Place)
    requires Inv(s) && Enabled(s, x) && x.Exits?
    ensures Orphan(Next(s, x), p) <==> Orphan(s, p)
  {
    hide Inv, Standing, Fresh;
    var w := s.vehicles[x.v];
    if w.place.None? {
      UnheldAfter(s.vehicles, x.v, Respawn(s, x.v).vehicles[x.v], p);
    } else {
      SubmitMoves(s, w.place.value.board, Leave, w.id, w.place.value.slot, Exit, p);
      if w.place.value != p { UnheldAfter(s.vehicles, x.v, w.(state := Exiting, ticket := s.nextId), p); }
    }
  }

  /** Taking a report off the books makes a session stand exactly when it reports a successful open. */
  lemma ReleaseMoves(s: System, b: Board, p: Place)
    requires Inv(s) && LinkOf(s, b).inbox != []
    ensures var r := LinkOf(s, b).inbox[0];
      Standing(LinkOf(Released(s, b), p.board), p.slot) <==>
        Standing(LinkOf(s, p.board), p.slot) || (r.c.kind == Open && r.ok && p == Place(b, r.c.slot))
  {
    var l := LinkOf(s, b);
    var r := l.inbox[0];
    LinksOk(s, b);
    InboxHead(l, Dropped(l).reserved);
    if r.c.kind == Open {
      assert OpenOk(SlotsOf(l), Waits(l), Reports(l)[0], !l.phase.Ran? || 0 < |Reports(l)| - 1);
    }
  }

  // ---------------------------------------------------------------- results

  lemma OpenNotStanding(s: System, b: Board)
    requires Inv(s) && LinkOf(s, b).inbox != [] && LinkOf(s, b).inbox[0].c.kind == Open
    ensures !Standing(LinkOf(s, b), LinkOf(s, b).inbox[0].c.slot)
  {
    LinksOk(s, b);
    var l := LinkOf(s, b);
    assert Reports(l)[0] == l.inbox[0];
    assert OpenOk(SlotsOf(l), Waits(l), Reports(l)[0], !l.phase.Ran? || 0 < |Reports(l)| - 1);
  }

  /** The outcome of an open reaches its vehicle: a success without a switch loses the place it had. */
  lemma OpenMoves(s: System, b: Board, v: nat, p: Place)
    requires Inv(s) && LinkOf(s, b).inbox != [] && s.scan.None? && LinkOf(s, b).inbox[0].c.kind == Open
    requires v < |s.vehicles| && WaitsFor(s.vehicles[v], LinkOf(s, b).inbox[0].c)
    requires Known(s.vehicles, s.pending, LinkOf(s, b).inbox[0].c)
    ensures var r := LinkOf(s, b).inbox[0]; var reason := s.pending[r.c.id].reason;
      Orphan(Opened(Released(s, b), v, b, r, reason), p) <==>
        Orphan(s, p) || (r.ok && reason != Switch && s.vehicles[v].prior == Some(p))
  {
    var r, w := LinkOf(s, b).inbox[0], s.vehicles[v];
    var t := Released(s, b);
    ReleaseMoves(s, b, p);
    OpenNotStanding(s, b);
    assert VehicleOk(w, s.nextId);
    if At(w, p) { HeldAlone(s, v, p); }
    hide Inv, Standing, Unheld, VehicleOk;
    if r.ok {
      var n := w.(place := Some(Place(b, r.c.slot)), prior := None, state := Connected, ticket := 0);
      UnheldMoved(t.vehicles, v, n, p);
      if s.pending[r.c.id].reason == Switch && w.prior.Some? {
        SubmitMoves(WithVehicle(t, v, n), w.prior.value.board, Leave, w.id, w.prior.value.slot, OldSlot, p);
      }
    } else {
      var n := w.(place := if w.prior.Some? then w.prior else w.place, prior := None,
                  state := if w.prior.Some? then Connected else Disconnected, ticket := 0);
      UnheldAfter(t.vehicles, v, n, p);
    }
  }

  lemma HandleMoves(s: System, b: Board, target: Board, p: Place)
    requires Inv(s) && LinkOf(s, b).inbox != [] && s.scan.None?
    ensures Orphan(Handle(s, b, target), p) <==> Orphan(s, p) || LossOf(s, Handles(b, target)) == Some(p)
  {
    hide LinkOk, AllKnown, Held, Standing, Outstanding, Opened, Fresh, VehicleOk, Unheld;
    var r := LinkOf(s, b).inbox[0];
    ReleaseKeeps(s, b);
    ReleaseMoves(s, b, p);
    if Awaited(s.pending[r.c.id]) {
      var v := AwaitingVehicle(s, r.c);
      if r.c.kind == Open { OpenMoves(s, b, v, p); }
      else { UnheldAfter(s.vehicles, v, Respawn(Released(s, b), v).vehicles[v], p); }
    }
  }

  // ---------------------------------------------------------------- over whole runs

  /** Each single action loses exactly the slot LossOf names, and never finds a lost one again. */
  lemma NextMoves(s: System, x: Action, p: Place)
    requires Inv(s) && Enabled(s, x)
    ensures Orphan(Next(s, x), p) <==> Orphan(s, p) || LossOf(s, x) == Some(p)
  {
    hide Inv, Standing, Handle, ScanStep, Get, Run, Note, Put, Poll;
    if x.Gets? || x.Runs? || x.Notes? || x.Puts? || x.Polls? { WorkerMoves(s, x, p); }
    else if x.Handles? { HandleMoves(s, x.board, x.target, p); }
    else if x.Scans? { ScanMoves(s, p); }
    else if x.Sends? {
      var w := s.vehicles[x.v];
      SubmitMoves(s, w.place.value.board, Data, w.id, w.place.value.slot, Telemetry, p);
    }
    else if x.Exits? { LeaveMoves(s, x, p); }
  }

  /** Some action of the run loses p. */
  predicate Loses(s: System, run: seq<Action>, p: Place)
    requires Runnable(s, run)
    decreases |run|
  {
    run != [] && (LossOf(s, run[0]) == Some(p) || Loses(Next(s, run[0]), run[1..], p))
  }

  /** A slot is lost after a run exactly when it was lost before or some action of the run lost it. */
  lemma {:induction false} LostExactly(s: System, run: seq<Action>, p: Place)
    requires Inv(s) && Runnable(s, run)
    ensures Orphan(After(s, run), p) <==> Orphan(s, p) || Loses(s, run, p)
    decreases |run|
  {
    hide Inv, Next, Enabled, Orphan, LossOf;
    if run != [] {
      NextKeeps(s, run[0]);
      NextMoves(s, run[0], p);
      LostExactly(Next(s, run[0]), run[1..], p);
    }
  }

  /** Once lost, a slot stays open with no holder, and nobody ever asks for it to be closed, in every
      continuation of the run. */
  lemma LostForever(s: System, run: seq<Action>, p: Place)
    requires Inv(s) && Runnable(s, run) && Orphan(s, p)
    ensures Orphan(After(s, run), p)
    ensures p.slot in LinkOf(After(s, run), p.board).sessions && !ToldToLeave(LinkOf(After(s, run), p.board), p.slot)
  {
    hide Inv, Next, Enabled;
    LostExactly(s, run, p);
    StandsOpen(LinkOf(After(s, run), p.board), p.slot);
  }

  // ---------------------------------------------------------------- what the demo was meant to keep

  /** Every open session the controller has heard of is held by a vehicle or has been told to leave. */
  ghost predicate Accounted(s: System) { forall p: Place :: AccountedAt(s, p) }

  ghost predicate AccountedAt(s: System, p: Place) {
    var l := LinkOf(s, p.board);
    p.slot in l.sessions && p.slot !in l.reserved ==> ToldToLeave(l, p.slot) || exists v :: 0 <= v < |s.vehicles| && At(s.vehicles[v], p)
  }

  lemma AccountedUnlessLost(s: System, p: Place)
    requires Inv(s)
    ensures AccountedAt(s, p) <==> !Orphan(s, p)
  {
    LinksOk(s, p.board);
    var l := LinkOf(s, p.board);
    if p.slot in l.sessions && p.slot !in l.reserved && !Standing(l, p.slot) {
      var i :| 0 <= i < |Waits(l)| && Waits(l)[i].slot == p.slot && Waits(l)[i].kind != Data;
      assert WaitOk(SlotsOf(l), Waits(l)[i]);
      assert ToldToLeave(l, p.slot);
    }
  }

  /** The board refuses no leave, and no open but a switch succeeds for a vehicle with a place. */
  predicate Careful(s: System, run: seq<Action>)
    requires Runnable(s, run)
    decreases |run|
  {
    run == [] || (LossOf(s, run[0]).None? && Careful(Next(s, run[0]), run[1..]))
  }

  lemma {:induction false} CarefulLosesNothing(s: System, run: seq<Action>)
    requires Runnable(s, run)
    ensures Careful(s, run) <==> forall p: Place :: !Loses(s, run, p)
    decreases |run|
  {
    hide Next, Enabled, LossOf;
    if run != [] {
      var x, rest := run[0], run[1..];
      CarefulLosesNothing(Next(s, x), rest);
      if LossOf(s, x).Some? {
        assert Loses(s, run, LossOf(s, x).value);
      } else if !Careful(Next(s, x), rest) {
        var p: Place :| Loses(Next(s, x), rest, p);
        assert Loses(s, run, p);
      } else {
        forall p: Place ensures !Loses(s, run, p) { assert !Loses(Next(s, x), rest, p); }
        assert Careful(s, run);
      }
    }
  }

  lemma NothingLostAtFirst(s: System, p: Place)
    requires Initial(s)
    ensures !Orphan(s, p)
  {
  }

  /** The demo accounts for every open session exactly as long as the board refuses no leave and no
      open but a switch succeeds for a vehicle that has a place. */
  lemma AccountedExactly(s: System, run: seq<Action>)
    requires Initial(s) && Runnable(s, run)
    ensures Accounted(After(s, run)) <==> Careful(s, run)
  {
    hide Inv, Next, Enabled, Initial, Orphan, AccountedAt, LossOf;
    InitialInv(s);
    EveryRunIsSafe(s, run);
    var n := After(s, run);
    forall p: Place ensures AccountedAt(n, p) <==> !Loses(s, run, p) {
      LostExactly(s, run, p);
      NothingLostAtFirst(s, p);
      AccountedUnlessLost(n, p);
    }
    CarefulLosesNothing(s, run);
    if !Careful(s, run) {
      var p: Place :| Loses(s, run, p);
      assert !AccountedAt(n, p);
    } else {
      forall p: Place ensures AccountedAt(n, p) { assert !Loses(s, run, p); }
    }
  }

  // ---------------------------------------------------------------- three runs that lose a slot

  lemma Relinked(s: System, b: Board, l: Link, n: Link)
    ensures LinkOf(WithLink(s, b, l), b) == l && WithLink(WithLink(s, b, l), b, n) == WithLink(s, b, n)
    ensures WithLink(s, b, l).scan == s.scan
  {
  }

  lemma WorkerNext(s: System, b: Board, ok: bool)
    ensures var l := LinkOf(s, b);
      && (l.phase.Waiting? && l.commands != [] ==> Enabled(s, Gets(b)) && Next(s, Gets(b)) == WithLink(s, b, Get(l)))
      && (l.phase.Got? ==> Enabled(s, Runs(b, ok)) && Next(s, Runs(b, ok)) == WithLink(s, b, Run(l, ok)))
      && (l.phase.Ran? ==> Enabled(s, Notes(b)) && Next(s, Notes(b)) == WithLink(s, b, Note(l)))
      && (l.phase.Noted? ==> Enabled(s, Puts(b)) && Next(s, Puts(b)) == WithLink(s, b, Put(l)))
      && (s.scan.None? ==> Enabled(s, Polls(b)) && Next(s, Polls(b)) == WithLink(s, b, Poll(l)))
      && (s.scan.None? && l.inbox != [] ==> Enabled(s, Handles(b, b)) && Next(s, Handles(b, b)) == Handle(s, b, b))
  {
    hide LinkOf, WithLink, Get, Run, Note, Put, Poll, Handle;
  }

  /** The worker and then the controller deal with the board's only command. */
  function Trip(b: Board, ok: bool): seq<Action> { [Gets(b), Runs(b, ok), Notes(b), Puts(b), Polls(b), Handles(b, b)] }

  /** The link once its only command has been run and its report polled. */
  function Reported(l: Link, ok: bool): Link
    requires l.phase.Waiting? && l.commands != []
  {
    Poll(Put(Note(Run(Get(l), ok))))
  }

  lemma Chained(s: System, x: seq<Action>, y: seq<Action>)
    requires Runnable(s, x) && Runnable(After(s, x), y)
    ensures Runnable(s, x + y) && After(s, x + y) == After(After(s, x), y)
    decreases |x|
  {
    hide Next, Enabled;
    if x == [] { assert x + y == y; } else {
      assert (x + y)[0] == x[0] && (x + y)[1..] == x[1..] + y;
      Chained(Next(s, x[0]), x[1..], y);
    }
  }

  lemma OneStep(s: System, x: Action)
    requires Enabled(s, x)
    ensures Runnable(s, [x]) && After(s, [x]) == Next(s, x)
  {
    hide Next, Enabled;
    assert [x][1..] == [];
  }

  lemma TripEnds(s: System, b: Board, ok: bool)
    requires s.scan.None? && LinkOf(s, b).phase.Waiting? && |LinkOf(s, b).commands| == 1
    ensures Reported(LinkOf(s, b), ok).inbox != []
    ensures Runnable(s, Trip(b, ok))
    ensures After(s, Trip(b, ok)) == Handle(WithLink(s, b, Reported(LinkOf(s, b), ok)), b, b)
  {
    hide Handle, LinkOf, WithLink, Next, Enabled;
    var x := Trip(b, ok);
    var l := LinkOf(s, b);
    var l1 := Get(l);
    var l2 := Run(l1, ok);
    var l3 := Note(l2);
    var l4 := Put(l3);
    var n := WithLink(s, b, Poll(l4));
    var s1, s2, s3, s4 := WithLink(s, b, l1), WithLink(s, b, l2), WithLink(s, b, l3), WithLink(s, b, l4);
    Relinked(s, b, l1, l2);
    Relinked(s, b, l2, l3);
    Relinked(s, b, l3, l4);
    Relinked(s, b, l4, Poll(l4));
    Relinked(s, b, Poll(l4), Poll(l4));
    WorkerNext(s, b, ok);
    WorkerNext(s1, b, ok);
    WorkerNext(s2, b, ok);
    WorkerNext(s3, b, ok);
    WorkerNext(s4, b, ok);
    WorkerNext(n, b, ok);
    OneStep(n, x[5]);
    Prefixed(s4, x[4], n, [x[5]]);
    Prefixed(s3, x[3], s4, x[4..]);
    Prefixed(s2, x[2], s3, x[3..]);
    Prefixed(s1, x[1], s2, x[2..]);
    Prefixed(s, x[0], s1, x[1..]);
    assert x == [x[0]] + x[1..] && x[1..] == [x[1]] + x[2..] && x[2..] == [x[2]] + x[3..] && x[3..] == [x[3]] + x[4..]
      && x[4..] == [x[4]] + [x[5]];
  }

  lemma Prefixed(s: System, x: Action, n: System, rest: seq<Action>)
    requires Enabled(s, x) && Next(s, x) == n && Runnable(n, rest)
    ensures Runnable(s, [x] + rest) && After(s, [x] + rest) == After(n, rest)
  {
    hide Next, Enabled;
    assert ([x] + rest)[1..] == rest;
  }

  /** One vehicle, nothing open. */
  function Alone(): System { System([Vehicle(0, None, None, Connecting, 0)], EmptyLink(), EmptyLink(), map[], 1, 1, None) }

  /** A board whose slot 0 is open for vehicle 0. */
  function Serving(): Link { EmptyLink().(stats := EmptyLink().stats[0 := Some(0)], sessions := {0}) }

  /** The vehicle is at p, the boards are as given, and nothing is outstanding; n numbers the next command. */
  function Settled(p: Place, a: Link, b: Link, n: nat): System {
    System([Vehicle(0, Some(p), None, Connected, 0)], a, b, map[], n, 1, None)
  }

  function OnBoardA(n: nat): System { Settled(Place(A, 0), Serving(), EmptyLink(), n) }

  const CONNECT: seq<Action> := [Enters(0, A), Scans] + Trip(A, true)

  lemma Connects()
    ensures Initial(Alone()) && Runnable(Alone(), CONNECT) && After(Alone(), CONNECT) == OnBoardA(2)
  {
    var s := Alone();
    var s1 := Next(s, Enters(0, A));
    var s2 := Next(s1, Scans);
    TwoSteps(s, Enters(0, A), Scans);
    assert s2.a.commands == [Command(1, Open, 0, 0)];
    TripEnds(s2, A, true);
    Chained(s, [Enters(0, A), Scans], Trip(A, true));
    assert After(s2, Trip(A, true)) == OnBoardA(2);
  }

  /** A switch to board B that fails, then a retry of it that succeeds. */
  const RETRIED: seq<Action> := [Crosses(0, B), Scans] + Trip(B, false) + ([Retries(0, B), Scans] + Trip(B, true))

  /** The vehicle drives off and board A refuses its leave. */
  const REFUSED: seq<Action> := [Exits(0, A)] + Trip(A, false)

  /** A switch to board B that succeeds, after which board A refuses the leave of the old slot. */
  const SWITCHED: seq<Action> := [Crosses(0, B), Scans] + Trip(B, true) + Trip(A, false)

  /** A switch board B refuses changes nothing. */
  lemma SwitchFails(n: nat)
    requires n > 0
    ensures var run := [Crosses(0, B), Scans] + Trip(B, false);
      Runnable(OnBoardA(n), run) && After(OnBoardA(n), run) == OnBoardA(n + 1)
  {
    var s := OnBoardA(n);
    var t := Next(Next(s, Crosses(0, B)), Scans);
    TwoSteps(s, Crosses(0, B), Scans);
    TripEnds(t, B, false);
    Chained(s, [Crosses(0, B), Scans], Trip(B, false));
    assert After(t, Trip(B, false)) == OnBoardA(n + 1);
  }

  lemma RetrySucceeds(n: nat)
    requires n > 0
    ensures var run := [Retries(0, B), Scans] + Trip(B, true);
      Runnable(OnBoardA(n), run) && After(OnBoardA(n), run) == Settled(Place(B, 0), Serving(), Serving(), n + 1)
  {
    var s := OnBoardA(n);
    var t := Next(Next(s, Retries(0, B)), Scans);
    TwoSteps(s, Retries(0, B), Scans);
    TripEnds(t, B, true);
    Chained(s, [Retries(0, B), Scans], Trip(B, true));
    assert After(t, Trip(B, true)) == Settled(Place(B, 0), Serving(), Serving(), n + 1);
  }

  /** Board A with a leave for slot 0 on its queue. */
  function Leaving(n: nat): Link { Serving().(commands := [Command(n, Leave, 0, 0)]) }

  lemma SwitchSucceeds(n: nat)
    requires n > 0
    ensures var run := [Crosses(0, B), Scans] + Trip(B, true);
      && Runnable(OnBoardA(n), run)
      && After(OnBoardA(n), run)
         == Settled(Place(B, 0), Leaving(n + 1), Serving(), n + 2).(pending := map[n + 1 := Pending(Leave, 0, OldSlot)])
  {
    var s := OnBoardA(n);
    var t := Next(Next(s, Crosses(0, B)), Scans);
    TwoSteps(s, Crosses(0, B), Scans);
    TripEnds(t, B, true);
    Chained(s, [Crosses(0, B), Scans], Trip(B, true));
    var end := Settled(Place(B, 0), Leaving(n + 1), Serving(), n + 2).(pending := map[n + 1 := Pending(Leave, 0, OldSlot)]);
    assert After(t, Trip(B, true)).pending == end.pending;
    assert After(t, Trip(B, true)) == end;
  }

  /** From the road with one vehicle, a retry that succeeds loses slot 0 of board A. */
  lemma RetryLoses()
    ensures Initial(Alone()) && Runnable(Alone(), CONNECT + RETRIED)
    ensures Orphan(After(Alone(), CONNECT + RETRIED), Place(A, 0)) && !Accounted(After(Alone(), CONNECT + RETRIED))
  {
    hide Initial, Accounted, Orphan;
    Connects();
    SwitchFails(2);
    RetrySucceeds(3);
    Chained(OnBoardA(2), [Crosses(0, B), Scans] + Trip(B, false), [Retries(0, B), Scans] + Trip(B, true));
    Chained(Alone(), CONNECT, RETRIED);
    LosesFirst(Settled(Place(B, 0), Serving(), Serving(), 4));
  }

  /** So does a leave the board refuses on the way out, with no retry anywhere. */
  lemma RefusalLoses()
    ensures Initial(Alone()) && Runnable(Alone(), CONNECT + REFUSED)
    ensures Orphan(After(Alone(), CONNECT + REFUSED), Place(A, 0)) && !Accounted(After(Alone(), CONNECT + REFUSED))
  {
    var s := OnBoardA(2);
    var t := Next(s, Exits(0, A));
    Connects();
    OneStep(s, Exits(0, A));
    TripEnds(t, A, false);
    Chained(s, [Exits(0, A)], Trip(A, false));
    Chained(Alone(), CONNECT, REFUSED);
    var n := After(t, Trip(A, false));
    assert n.vehicles[0].place == None && n.a == Serving();
    LosesFirst(n);
  }

  /** So does a leave the board refuses after a switch. */
  lemma SwitchLoses()
    ensures Initial(Alone()) && Runnable(Alone(), CONNECT + SWITCHED)
    ensures Orphan(After(Alone(), CONNECT + SWITCHED), Place(A, 0)) && !Accounted(After(Alone(), CONNECT + SWITCHED))
  {
    hide Initial, Accounted, Orphan;
    var s := OnBoardA(2);
    Connects();
    SwitchSucceeds(2);
    var run := [Crosses(0, B), Scans] + Trip(B, true);
    var t := After(s, run);
    TripEnds(t, A, false);
    Chained(s, run, Trip(A, false));
    Chained(Alone(), CONNECT, SWITCHED);
    var n := After(t, Trip(A, false));
    assert n.vehicles[0].place == Some(Place(B, 0)) && n.a == Serving();
    LosesFirst(n);
  }

  lemma LosesFirst(n: System)
    requires n.a == Serving() && |n.vehicles| == 1 && !At(n.vehicles[0], Place(A, 0))
    ensures Orphan(n, Place(A, 0)) && !Accounted(n)
  {
    assert !AccountedAt(n, Place(A, 0));
  }

  lemma TwoSteps(s: System, x: Action, y: Action)
    requires Enabled(s, x) && Enabled(Next(s, x), y)
    ensures Runnable(s, [x, y]) && After(s, [x, y]) == Next(Next(s, x), y)
  {
    hide Next, Enabled;
    OneStep(Next(s, x), y);
    Prefixed(s, x, Next(s, x), [y]);
    assert [x] + [y] == [x, y];
  }
}
