/** Slots come back into use: a leave frees its slot, and the next search of that board claims the first
  free slot it meets. */
module Reuse {
  import opened Handover
  import opened Orphans

  /** What the search looks for: not in the table, and no open under way. */
  predicate Claimable(l: Link, p: Slot) { l.stats[p].None? && p !in l.reserved }

  /** Once a leave the board carried out is noted, its slot is free in every respect: no session, no
      table entry, no reservation, nothing queued for it. */
  lemma LeaveFrees(l: Link)
    requires LinkOk(l) && l.phase.Ran? && l.phase.r.ok && l.phase.r.c.kind == Leave
    ensures var p := l.phase.r.c.slot;
      Claimable(Note(l), p) && p !in Note(l).sessions && !Mentions(Waits(Note(l)), p)
  {
    assert Reports(l)[|Reports(l)| - 1] == l.phase.r;
    assert Waits(Note(l)) == Waits(l);
  }

  /** A leave the board refused, and anything that is not a leave, frees nothing. */
  lemma OnlyLeavesFree(l: Link, p: Slot)
    requires LinkOk(l) && l.phase.Ran? && !Claimable(l, p)
    ensures Claimable(Note(l), p) <==> l.phase.r.ok && l.phase.r.c.kind == Leave && l.phase.r.c.slot == p
  {
    if l.phase.r.ok && l.phase.r.c.kind == Leave { LeaveFrees(l); }
  }

  // ---------------------------------------------------------------- the search

  function Steps(n: nat): seq<Action> { seq(n, _ => Scans) }

  /** Nothing to claim among slots i to p - 1. */
  predicate NoneBetween(l: Link, i: nat, p: nat)
    requires p <= 64
  {
    forall k: Slot :: i <= k < p ==> !Claimable(l, k)
  }

  /** Left to itself, the search claims the first claimable slot from where it stands: it reserves the
      slot, queues the open, and the vehicle waits for it. */
  lemma {:induction false} SearchClaims(s: System, p: Slot)
    requires s.scan.Some? && s.scan.value.v < |s.vehicles| && s.scan.value.slot <= p
    requires Claimable(LinkOf(s, s.scan.value.target), p) && NoneBetween(LinkOf(s, s.scan.value.target), s.scan.value.slot, p)
    ensures var k := s.scan.value; var run := Steps(p - k.slot + 1);
      && Runnable(s, run)
      && var n := After(s, run);
         && n.scan.None? && |n.vehicles| == |s.vehicles| && n.vehicles[k.v].ticket == s.nextId && n.vehicles[k.v].prior == s.vehicles[k.v].place
         && LinkOf(n, k.target).commands == LinkOf(s, k.target).commands + [Command(s.nextId, Open, s.vehicles[k.v].id, p)]
         && LinkOf(n, k.target).reserved == LinkOf(s, k.target).reserved + {p}
    decreases p - s.scan.value.slot
  {
    var k := s.scan.value;
    var run := Steps(p - k.slot + 1);
    assert run[0] == Scans && run[1..] == Steps(p - k.slot);
    if k.slot < p {
      assert !Claimable(LinkOf(s, k.target), k.slot);
      SearchClaims(Next(s, Scans), p);
    }
  }

  /** It gives up, and the vehicle stays without a connection, only when nothing is claimable. */
  lemma {:induction false} SearchFails(s: System)
    requires s.scan.Some? && s.scan.value.v < |s.vehicles| && s.scan.value.slot <= 64
    requires NoneBetween(LinkOf(s, s.scan.value.target), s.scan.value.slot, 64)
    ensures var k := s.scan.value; var run := Steps(64 - k.slot + 1);
      && Runnable(s, run)
      && After(s, run) == WithVehicle(s.(scan := None), k.v, s.vehicles[k.v].(state := Disconnected))
    decreases 64 - s.scan.value.slot
  {
    var k := s.scan.value;
    var run := Steps(64 - k.slot + 1);
    assert run[0] == Scans && run[1..] == Steps(64 - k.slot);
    if k.slot < 64 {
      assert !Claimable(LinkOf(s, k.target), k.slot);
      SearchFails(Next(s, Scans));
    }
  }

  /** A search under way on a board claims the slot a leave frees there, as soon as the leave is noted,
      unless it meets another free slot first. */
  lemma FreedIsClaimed(s: System, b: Board)
    requires Inv(s) && LinkOf(s, b).phase.Ran? && LinkOf(s, b).phase.r.ok && LinkOf(s, b).phase.r.c.kind == Leave
    requires s.scan.Some? && s.scan.value.v < |s.vehicles| && s.scan.value.target == b
    requires var p := LinkOf(s, b).phase.r.c.slot; s.scan.value.slot <= p && NoneBetween(LinkOf(s, b), s.scan.value.slot, p)
    ensures var p := LinkOf(s, b).phase.r.c.slot; var run := [Notes(b)] + Steps(p - s.scan.value.slot + 1);
      && Runnable(s, run) && p in LinkOf(After(s, run), b).reserved
      && LinkOf(After(s, run), b).commands == LinkOf(s, b).commands + [Command(s.nextId, Open, s.vehicles[s.scan.value.v].id, p)]
  {
    hide Inv, LinkOk, Next, Enabled;
    LinksOk(s, b);
    var l, p := LinkOf(s, b), LinkOf(s, b).phase.r.c.slot;
    LeaveFrees(l);
    WorkerNext(s, b, true);
    var n := Next(s, Notes(b));
    forall k: Slot | s.scan.value.slot <= k < p ensures !Claimable(Note(l), k) { OnlyLeavesFree(l, k); }
    SearchClaims(n, p);
    Prefixed(s, Notes(b), n, Steps(p - s.scan.value.slot + 1));
  }

  // ---------------------------------------------------------------- one slot twice

  /** The vehicle drives off, the board carries out its leave, and the next vehicle connects. */
  const SUCCEEDED: seq<Action> := [Exits(0, A)] + Trip(A, true) + ([Scans] + Trip(A, true))

  /** Vehicle 1 on slot 0 of board A, where vehicle 0 was. */
  function Successor(n: nat): System {
    System([Vehicle(1, Some(Place(A, 0)), None, Connected, 0)],
           EmptyLink().(stats := EmptyLink().stats[0 := Some(1)], sessions := {0}), EmptyLink(), map[], n, 2, None)
  }

  lemma Leaves(n: nat)
    requires n > 0
    ensures var run := [Exits(0, A)] + Trip(A, true);
      && Runnable(OnBoardA(n), run)
      && After(OnBoardA(n), run)
         == System([Vehicle(1, None, None, Connecting, 0)], EmptyLink(), EmptyLink(), map[], n + 1, 2, Some(Scan(0, A, Entry, 0)))
  {
    var s := OnBoardA(n);
    var t := Next(s, Exits(0, A));
    OneStep(s, Exits(0, A));
    TripEnds(t, A, true);
    Chained(s, [Exits(0, A)], Trip(A, true));
    var end := After(t, Trip(A, true));
    assert end.a == EmptyLink() && end.pending == map[];
    assert !Used(s.vehicles, 0, 1);
    assert end.vehicles == [Vehicle(1, None, None, Connecting, 0)];
  }

  lemma SuccessorConnects(n: nat)
    requires n > 0
    ensures var s := System([Vehicle(1, None, None, Connecting, 0)], EmptyLink(), EmptyLink(), map[], n, 2, Some(Scan(0, A, Entry, 0)));
      Runnable(s, [Scans] + Trip(A, true)) && After(s, [Scans] + Trip(A, true)) == Successor(n + 1)
  {
    var s := System([Vehicle(1, None, None, Connecting, 0)], EmptyLink(), EmptyLink(), map[], n, 2, Some(Scan(0, A, Entry, 0)));
    var t := Next(s, Scans);
    OneStep(s, Scans);
    assert t.a.commands == [Command(n, Open, 1, 0)];
    TripEnds(t, A, true);
    Chained(s, [Scans], Trip(A, true));
    assert After(t, Trip(A, true)).pending == map[];
    assert After(t, Trip(A, true)) == Successor(n + 1);
  }

  /** From the road with one vehicle: it connects, drives off, and its successor is served on the same
      slot. */
  lemma SlotReused()
    ensures Initial(Alone()) && Runnable(Alone(), CONNECT + SUCCEEDED) && After(Alone(), CONNECT + SUCCEEDED) == Successor(4)
  {
    hide Initial;
    Connects();
    Leaves(2);
    SuccessorConnects(3);
    Chained(OnBoardA(2), [Exits(0, A)] + Trip(A, true), [Scans] + Trip(A, true));
    Chained(Alone(), CONNECT, SUCCEEDED);
  }

  /** A packet goes to the board and slot its sender holds and back, and leaves everything as it was,
      whether the board accepts it or not. */
  lemma PacketRound(n: nat, ok: bool)
    requires n > 0
    ensures var run := [Sends(0)] + Trip(A, ok);
      && Runnable(OnBoardA(n), run) && After(OnBoardA(n), run) == OnBoardA(n + 1)
      && Next(OnBoardA(n), Sends(0)).a.commands == [Command(n, Data, 0, 0)]
  {
    var s := OnBoardA(n);
    var t := Next(s, Sends(0));
    OneStep(s, Sends(0));
    TripEnds(t, A, ok);
    Chained(s, [Sends(0)], Trip(A, ok));
    assert After(t, Trip(A, ok)).pending == map[];
    assert After(t, Trip(A, ok)) == OnBoardA(n + 1);
  }
}
