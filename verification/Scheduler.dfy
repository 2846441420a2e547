/** The event-driven round robin over sixty-four session slots in two 32-bit ready words. */
module Scheduler {
  import opened Mac
  import opened Sampling

  // ---------------------------------------------------------------- requests and slots

  const SESSIONS := 64
  const PACKET_BYTES := 64

  datatype Request = Request(decrypt: nat, length: nat, counter: nat, data: seq<nat>, tag: seq<nat>)

  type Slot = s: nat | s < 64

  type Ready = v: seq<bool> | |v| == 64 witness seq(64, _ => false)

  type Requests = q: seq<Request> | |q| == 64 witness seq(64, _ => Request(0, 0, 0, [], []))

  // ---------------------------------------------------------------- the simple scheduler

  /** Which slots hold a request, the requests, and the slot the next scan starts at. */
  datatype Table = Table(ready: Ready, requests: Requests, next: Slot)

  function Cyclic(start: Slot, i: nat): Slot { (start + i) % 64 }

  /** First ready slot in cyclic order from `start`, at least i places after it; 64 when none. */
  function Scan(ready: Ready, start: Slot, i: nat): nat
    decreases 64 - i
  {
    if i >= 64 then 64 else if ready[Cyclic(start, i)] then Cyclic(start, i) else Scan(ready, start, i + 1)
  }

  /** Distance from the scan start. */
  function Distance(start: Slot, s: Slot): nat { if s >= start then s - start else s + 64 - start }

  lemma {:induction false} ScanMeaning(ready: Ready, start: Slot, i: nat)
    requires i <= 64 && forall k :: 0 <= k < i ==> !ready[Cyclic(start, k)]
    ensures var r := Scan(ready, start, i);
      if r < 64 then ready[r] && forall s: Slot :: ready[s] ==> Distance(start, r) <= Distance(start, s)
      else r == 64 && forall s: Slot :: !ready[s]
    decreases 64 - i
  {
    if i < 64 && !ready[Cyclic(start, i)] {
      ScanMeaning(ready, start, i + 1);
    } else {
      forall s: Slot ensures Cyclic(start, Distance(start, s)) == s && (ready[s] ==> Distance(start, s) >= i) {
        if Distance(start, s) < i { assert !ready[Cyclic(start, Distance(start, s))]; }
      }
    }
  }

  /** Taking serves the first ready slot from `next` on. */
  function Take(t: Table): Table {
    var c := Scan(t.ready, t.next, 0);
    if c < 64 then Table(t.ready[c := false], t.requests, (c + 1) % 64) else t
  }

  /** Submitting to a slot that already holds a request changes nothing. */
  function Accept(t: Table, s: Slot, q: Request): Table {
    if t.ready[s] then t else t.(ready := t.ready[s := true], requests := t.requests[s := q])
  }

  // ---------------------------------------------------------------- fairness over runs

  datatype Event = Submitted(slot: Slot, request: Request) | Taken

  function Step(t: Table, e: Event): Table {
    match e case Submitted(s, q) => Accept(t, s, q) case Taken => Take(t)
  }

  /** Slots served by a run, in order. */
  function Served(t: Table, run: seq<Event>): seq<(nat, Request)>
    decreases |run|
  {
    if run == [] then []
    else
      var c := Scan(t.ready, t.next, 0);
      var rest := Served(Step(t, run[0]), run[1..]);
      if run[0].Taken? && c < 64 then [(c, t.requests[c])] + rest else rest
  }

  function Takes(run: seq<Event>): nat {
    if run == [] then 0 else (if run[0].Taken? then 1 else 0) + Takes(run[1..])
  }

  predicate Serves(served: seq<(nat, Request)>, s: nat) { exists i :: 0 <= i < |served| && served[i].0 == s }

  /** A take that serves somebody else brings the scan start strictly closer to a waiting slot. */
  lemma TakeApproaches(t: Table, s: Slot)
    requires t.ready[s]
    ensures var c := Scan(t.ready, t.next, 0);
      c < 64 && Distance(t.next, c) <= Distance(t.next, s)
      && (c != s ==> Take(t).ready[s] && Distance(Take(t).next, s) == Distance(t.next, s) - Distance(t.next, c) - 1)
  {
    hide Scan;
    ScanMeaning(t.ready, t.next, 0);
  }

  /** While an accepted slot waits, every take serves a slot, each strictly closer to it than the
      one before: no slot twice, and no more of them than its distance, which is below 64. */
  lemma {:induction false} WaitsFairly(t: Table, run: seq<Event>, s: Slot)
    requires t.ready[s] && !Serves(Served(t, run), s)
    ensures var v := Served(t, run);
      |v| == Takes(run) <= Distance(t.next, s) <= 63 && Nearer(t.next, v, s)
    decreases |run|
  {
    if run != [] {
      var c := Scan(t.ready, t.next, 0);
      var v, rest := Served(t, run), Served(Step(t, run[0]), run[1..]);
      TakeApproaches(t, s);
      if run[0].Taken? {
        assert v == [(c, t.requests[c])] + rest;
        assert c != s by { assert v[0].0 == c; }
        forall i | 0 <= i < |rest| ensures rest[i] == v[i + 1] { }
        assert !Serves(rest, s);
        WaitsFairly(Take(t), run[1..], s);
        hide Served, Scan;
        Ordered(t.next, c, s, (c, t.requests[c]), rest);
      } else {
        WaitsFairly(Step(t, run[0]), run[1..], s);
      }
    }
  }

  /** Served slots in increasing distance from the scan start, all nearer than s. */
  predicate Nearer(start: Slot, v: seq<(nat, Request)>, s: Slot) {
    && (forall i :: 0 <= i < |v| ==> v[i].0 < 64 && Distance(start, v[i].0) < Distance(start, s))
    && (forall i, k :: 0 <= i < k < |v| ==> Distance(start, v[i].0) < Distance(start, v[k].0))
  }

  lemma Ordered(start: Slot, c: Slot, s: Slot, first: (nat, Request), rest: seq<(nat, Request)>)
    requires first.0 == c && Distance(start, c) < Distance(start, s) && Nearer((c + 1) % 64, rest, s)
    requires Distance((c + 1) % 64, s) == Distance(start, s) - Distance(start, c) - 1
    ensures Nearer(start, [first] + rest, s)
  {
    forall i | 0 <= i < |rest|
      ensures rest[i].0 < 64 && Distance(start, rest[i].0) == Distance(start, c) + 1 + Distance((c + 1) % 64, rest[i].0)
    {
      Further(start, c, rest[i].0, s);
    }
    hide Distance;
  }

  lemma Further(start: Slot, c: Slot, x: Slot, s: Slot)
    requires Distance(start, c) < Distance(start, s)
    requires Distance((c + 1) % 64, x) < Distance((c + 1) % 64, s)
    requires Distance((c + 1) % 64, s) == Distance(start, s) - Distance(start, c) - 1
    ensures Distance(start, x) == Distance(start, c) + 1 + Distance((c + 1) % 64, x)
  {
  }

  /** An accepted slot is served within 64 takes. */
  lemma ServedWithin64(t: Table, run: seq<Event>, s: Slot)
    requires t.ready[s] && Takes(run) >= 64
    ensures Serves(Served(t, run), s)
  {
    if !Serves(Served(t, run), s) { WaitsFairly(t, run, s); }
  }

  /** ... and what is handed back is what was submitted, whatever is submitted meanwhile. */
  lemma {:induction false} RequestReturned(t: Table, run: seq<Event>, s: Slot, i: nat)
    requires t.ready[s] && i < |Served(t, run)| && Served(t, run)[i].0 == s
    requires forall k :: 0 <= k < i ==> Served(t, run)[k].0 != s
    ensures Served(t, run)[i].1 == t.requests[s]
    decreases |run|
  {
    var c := Scan(t.ready, t.next, 0);
    var v, rest := Served(t, run), Served(Step(t, run[0]), run[1..]);
    if run[0].Taken? && c < 64 {
      assert v == [(c, t.requests[c])] + rest;
      if i > 0 {
        assert v[0].0 != s;
        forall k | 0 <= k < i - 1 ensures rest[k] == v[k + 1] { }
        assert rest[i - 1] == v[i];
        TakeApproaches(t, s);
        RequestReturned(Take(t), run[1..], s, i - 1);
      }
    } else {
      RequestReturned(Step(t, run[0]), run[1..], s, i);
    }
  }

  /** A slot that is free when the run begins by submitting to it: its first hand-back is that request. */
  lemma SubmittedReturned(t: Table, run: seq<Event>, s: Slot, q: Request, i: nat)
    requires run != [] && run[0] == Submitted(s, q) && !t.ready[s]
    requires i < |Served(t, run)| && Served(t, run)[i].0 == s && forall k :: 0 <= k < i ==> Served(t, run)[k].0 != s
    ensures Served(t, run)[i].1 == q
  {
    RequestReturned(Step(t, run[0]), run[1..], s, i);
  }

  // ---------------------------------------------------------------- nothing lost, nothing twice

  function AfterRun(t: Table, run: seq<Event>): Table
    decreases |run|
  {
    if run == [] then t else AfterRun(Step(t, run[0]), run[1..])
  }

  /** What an event adds to a slot and what it hands back for it. */
  function Added(t: Table, e: Event, s: Slot): seq<Request> {
    if e.Submitted? && e.slot == s && !t.ready[s] then [e.request] else []
  }

  function Returned(t: Table, e: Event, s: Slot): seq<Request> {
    if e.Taken? && Scan(t.ready, t.next, 0) == s then [t.requests[s]] else []
  }

  /** Requests a run submits to slot s while the slot is free, in order. */
  function SubmittedTo(t: Table, run: seq<Event>, s: Slot): seq<Request>
    decreases |run|
  {
    if run == [] then [] else Added(t, run[0], s) + SubmittedTo(Step(t, run[0]), run[1..], s)
  }

  /** Requests handed back for slot s, in order. */
  function ReturnedFor(v: seq<(nat, Request)>, s: Slot): seq<Request> {
    if v == [] then [] else (if v[0].0 == s then [v[0].1] else []) + ReturnedFor(v[1..], s)
  }

  function Waiting(t: Table, s: Slot): seq<Request> { if t.ready[s] then [t.requests[s]] else [] }

  /** What waits before an event and what it adds is what it hands back and what waits after it. */
  lemma EventConserves(t: Table, e: Event, s: Slot)
    ensures Waiting(t, s) + Added(t, e, s) == Returned(t, e, s) + Waiting(Step(t, e), s)
  {
    hide Scan;
    ScanMeaning(t.ready, t.next, 0);
  }

  lemma ReturnedFirst(t: Table, run: seq<Event>, s: Slot)
    requires run != []
    ensures ReturnedFor(Served(t, run), s) == Returned(t, run[0], s) + ReturnedFor(Served(Step(t, run[0]), run[1..]), s)
  {
    hide Scan, Step;
    var c, rest := Scan(t.ready, t.next, 0), Served(Step(t, run[0]), run[1..]);
    if run[0].Taken? && c < 64 { assert ([(c, t.requests[c])] + rest)[1..] == rest; }
  }

  /** Over any run, the requests handed back for a slot, followed by the one still waiting, are the one
      that waited at first, followed by those submitted while the slot was free: each exactly once, in
      order. */
  lemma {:induction false} RequestsConserved(t: Table, run: seq<Event>, s: Slot)
    ensures Waiting(t, s) + SubmittedTo(t, run, s) == ReturnedFor(Served(t, run), s) + Waiting(AfterRun(t, run), s)
    decreases |run|
  {
    hide Scan, Step, Waiting, Added, Returned, ReturnedFor, Served;
    if run == [] {
      NoneServed(t, s);
      assert Waiting(t, s) + [] == [] + Waiting(t, s);
    } else {
      var n := Step(t, run[0]);
      EventConserves(t, run[0], s);
      ReturnedFirst(t, run, s);
      RequestsConserved(n, run[1..], s);
      Regroup(Waiting(t, s), Added(t, run[0], s), SubmittedTo(n, run[1..], s), Returned(t, run[0], s), Waiting(n, s),
              ReturnedFor(Served(n, run[1..]), s), Waiting(AfterRun(n, run[1..]), s));
    }
  }

  lemma NoneServed(t: Table, s: Slot)
    ensures ReturnedFor(Served(t, []), s) == []
  {
  }

  lemma Regroup(w: seq<Request>, a: seq<Request>, more: seq<Request>, b: seq<Request>, w': seq<Request>, later: seq<Request>, end: seq<Request>)
    requires w + a == b + w' && w' + more == later + end
    ensures w + (a + more) == (b + later) + end
  {
    assert w + (a + more) == (w + a) + more == b + (w' + more) == b + (later + end);
  }

  // ---------------------------------------------------------------- bits of the ready words

  const ALL := 0xffff_ffff

  function Or(x: nat, y: nat): nat {
    if x == 0 && y == 0 then 0 else (if x % 2 == 1 || y % 2 == 1 then 1 else 0) + 2 * Or(x / 2, y / 2)
  }

  function Not(x: nat): nat
    requires x <= ALL
  {
    ALL - x
  }

  lemma {:induction false} BitAnd(x: nat, y: nat, k: nat)
    ensures Bit(And(x, y), k) == Bit(x, k) * Bit(y, k)
    decreases k
  {
    AndHalf(x, y);
    if k > 0 { BitAnd(x / 2, y / 2, k - 1); }
  }

  lemma AndStep(x: nat, y: nat)
    ensures And(x, y) == (x % 2) * (y % 2) + 2 * And(x / 2, y / 2)
  {
    if x == 0 || y == 0 { assert And(x, y) == 0 && And(x / 2, y / 2) == 0; }
  }

  lemma AndHalf(x: nat, y: nat)
    ensures And(x, y) % 2 == (x % 2) * (y % 2) && And(x, y) / 2 == And(x / 2, y / 2)
  {
    AndStep(x, y);
    hide And;
    LowBit(x % 2, y % 2, And(x / 2, y / 2));
  }

  lemma LowBit(a: nat, b: nat, h: nat)
    requires a <= 1 && b <= 1
    ensures (a * b + 2 * h) % 2 == a * b && (a * b + 2 * h) / 2 == h
  {
    if a == 0 { assert a * b == 0; } else { assert a * b == b; }
  }

  lemma {:induction false} BitOr(x: nat, y: nat, k: nat)
    ensures Bit(Or(x, y), k) == if Bit(x, k) == 1 || Bit(y, k) == 1 then 1 else 0
    decreases k
  {
    OrHalf(x, y);
    if k > 0 { BitOr(x / 2, y / 2, k - 1); }
  }

  lemma OrStep(x: nat, y: nat)
    ensures Or(x, y) == (if x % 2 == 1 || y % 2 == 1 then 1 else 0) + 2 * Or(x / 2, y / 2)
  {
    if x == 0 && y == 0 { assert Or(0, 0) == 0; }
  }

  lemma OrHalf(x: nat, y: nat)
    ensures Or(x, y) % 2 == (if x % 2 == 1 || y % 2 == 1 then 1 else 0) && Or(x, y) / 2 == Or(x / 2, y / 2)
  {
    OrStep(x, y);
    hide Or;
  }

  lemma {:induction false} OrBelow(x: nat, y: nat, n: nat)
    requires x < Pow2(n) && y < Pow2(n)
    ensures Or(x, y) < Pow2(n)
  {
    OrHalf(x, y);
    if n > 0 { OrBelow(x / 2, y / 2, n - 1); }
  }

  /** All ones shifted left by s and cut to n bits: the bits from s on. */
  lemma {:induction false} BitHigh(n: nat, s: nat, k: nat)
    requires s <= n && k < n && Pow2(s) <= Pow2(n)
    ensures Bit(Pow2(n) - Pow2(s), k) == if k >= s then 1 else 0
    decreases n
  {
    Monotone(if s > 0 then s - 1 else 0, n - 1);
    HighHalf(n, s);
    hide Pow2;
    if k > 0 { BitHigh(n - 1, if s > 0 then s - 1 else 0, k - 1); }
  }

  lemma HighHalf(n: nat, s: nat)
    requires s <= n && 0 < n && Pow2(s) <= Pow2(n)
    ensures (Pow2(n) - Pow2(s)) % 2 == (if s > 0 then 0 else 1)
    ensures (Pow2(n) - Pow2(s)) / 2 == Pow2(n - 1) - Pow2(if s > 0 then s - 1 else 0)
  {
  }

  lemma Monotone(s: nat, n: nat)
    requires s <= n
    ensures Pow2(s) <= Pow2(n)
  {
  }

  lemma {:induction false} BitOfPower(s: nat, k: nat)
    ensures Bit(Pow2(s), k) == if k == s then 1 else 0
    decreases k
  {
    if s == 0 {
      if k > 0 { BitOfZero(k - 1); }
    } else {
      assert Pow2(s) % 2 == 0 && Pow2(s) / 2 == Pow2(s - 1);
      if k > 0 { BitOfPower(s - 1, k - 1); }
    }
  }

  lemma BitOfZero(k: nat)
    ensures Bit(0, k) == 0
  {
  }

  lemma {:induction false} BitNot(n: nat, x: nat, k: nat)
    requires x < Pow2(n) && k < n
    ensures Bit(Pow2(n) - 1 - x, k) == 1 - Bit(x, k)
  {
    var y := Pow2(n) - 1 - x;
    assert y == 2 * (Pow2(n - 1) - 1 - x / 2) + (1 - x % 2);
    assert y % 2 == 1 - x % 2 && y / 2 == Pow2(n - 1) - 1 - x / 2;
    if k > 0 { BitNot(n - 1, x / 2, k - 1); }
  }

  /** A nonzero word below 2^n has a bit set below n. */
  lemma {:induction false} SomeBit(n: nat, x: nat) returns (k: nat)
    requires 0 < x < Pow2(n)
    ensures k < n && Bit(x, k) == 1
  {
    if x % 2 == 1 {
      k := 0;
    } else {
      k := SomeBit(n - 1, x / 2);
      k := k + 1;
    }
  }

  lemma ThirtyTwo()
    ensures Pow2(32) == 0x1_0000_0000 && Pow2(5) == 32
  {
    assert Pow2(8) == 256;
    assert Pow2(12) == 4096;
    assert Pow2(16) == 65536;
    assert Pow2(20) == 0x10_0000;
    assert Pow2(24) == 0x100_0000;
    assert Pow2(28) == 0x1000_0000;
  }

  /** Left shift in a 32-bit word. */
  function Shl(x: nat, s: nat): nat { x * Pow2(s) % 0x1_0000_0000 }

  function SlotMask(slot: nat): nat { Shl(1, slot % 32) }

  lemma Shifted(s: nat)
    requires s < 32
    ensures Shl(1, s) == Pow2(s) <= ALL
    ensures Shl(ALL, s) == 0x1_0000_0000 - Pow2(s)
  {
    ThirtyTwo();
    Monotone(s, 31);
    assert Pow2(32) == 2 * Pow2(31);
    var p := Pow2(s);
    assert 1 <= p <= 0x8000_0000;
    hide Pow2;
    ShiftedOnes(p);
  }

  lemma ShiftedOnes(p: nat)
    requires 1 <= p <= 0x8000_0000
    ensures (ALL * p) % 0x1_0000_0000 == 0x1_0000_0000 - p
  {
    assert ALL * p == 0x1_0000_0000 * (p - 1) + (0x1_0000_0000 - p);
  }

  /** The ready words as sixty-four flags. */
  predicate Flags(w0: nat, w1: nat, ready: Ready) {
    forall s: Slot :: ready[s] <==> Bit(if s < 32 then w0 else w1, s % 32) == 1
  }

  function FlagsOf(w0: nat, w1: nat): Ready { seq(64, s requires 0 <= s < 64 => Bit(if s < 32 then w0 else w1, s % 32) == 1) }

  lemma ScanIs(ready: Ready, start: Slot, c: Slot)
    requires ready[c] && forall s: Slot :: ready[s] ==> Distance(start, c) <= Distance(start, s)
    ensures Scan(ready, start, 0) == c
  {
    ScanMeaning(ready, start, 0);
  }

  lemma MaskedBits(word: nat, sb: nat, k: nat)
    requires word <= ALL && sb < 32 && k < 32
    ensures Shl(ALL, sb) <= ALL
    ensures Bit(And(word, Shl(ALL, sb)), k) == (if k >= sb then Bit(word, k) else 0)
    ensures Bit(And(word, Not(Shl(ALL, sb))), k) == (if k < sb then Bit(word, k) else 0)
  {
    hide And, Bit, Pow2;
    Shifted(sb);
    ThirtyTwo();
    var high := Shl(ALL, sb);
    PositivePower(sb);
    hide Shl;
    BitHigh(32, sb, k);
    BitNot(32, high, k);
    BitAnd(word, high, k);
    BitAnd(word, Not(high), k);
  }

  lemma PositivePower(s: nat)
    requires s < 32
    ensures 1 <= Pow2(s) <= 0x8000_0000
  {
    Shifted(s);
    ThirtyTwo();
    Monotone(s, 31);
    assert Pow2(32) == 2 * Pow2(31);
  }

  lemma AndSmall(x: nat, y: nat)
    ensures And(x, y) <= x && And(x, y) <= y
  {
  }

  /** Whatever the three branches have ruled out lies before the candidate on the cycle. */
  lemma Closest(start: Slot, branch: nat, bit: nat, s: Slot)
    requires bit < 32 && branch < 3
    requires var a, sb, i, k := start / 32, start % 32, s / 32, s % 32;
      && (branch == 0 ==> bit >= sb && !(i == a && sb <= k < bit))
      && (branch == 1 ==> !(i == a && sb <= k) && !(i == 1 - a && k < bit))
      && (branch == 2 ==> bit < sb && i == a && bit <= k < sb)
    ensures Distance(start, 32 * (if branch == 1 then 1 - start / 32 else start / 32) + bit) <= Distance(start, s)
  {
    assert start == 32 * (start / 32) + start % 32 && s == 32 * (s / 32) + s % 32;
    assert start / 32 <= 1 && s / 32 <= 1;
  }

  /** The candidate the two-word search settles on is the first slot of the cyclic scan. */
  lemma CandidateIsScan(w: seq<nat>, start: Slot, branch: nat, bit: nat)
    requires |w| == 2 && w[0] <= ALL && w[1] <= ALL && bit < 32 && branch < 3
    requires var a, sb := start / 32, start % 32; var y := w[1 - a]; var x := if branch == 1 then y else w[a];
      && Bit(x, bit) == 1
      && (branch == 0 ==> bit >= sb && forall k :: sb <= k < bit ==> Bit(x, k) == 0)
      && (branch == 1 ==> (forall k :: sb <= k < 32 ==> Bit(w[a], k) == 0) && forall k :: 0 <= k < bit ==> Bit(x, k) == 0)
      && (branch == 2 ==>
            && bit < sb && (forall k :: sb <= k < 32 ==> Bit(w[a], k) == 0)
            && (forall k :: 0 <= k < 32 ==> Bit(y, k) == 0) && forall k :: 0 <= k < bit ==> Bit(x, k) == 0)
    ensures Scan(FlagsOf(w[0], w[1]), start, 0) == 32 * (if branch == 1 then 1 - start / 32 else start / 32) + bit
  {
    hide Bit;
    var a := start / 32;
    var c := 32 * (if branch == 1 then 1 - a else a) + bit;
    var ready := FlagsOf(w[0], w[1]);
    assert c / 32 == (if branch == 1 then 1 - a else a) && c % 32 == bit;
    forall s: Slot | ready[s] ensures Distance(start, c) <= Distance(start, s) {
      assert Bit(w[s / 32], s % 32) == 1;
      Closest(start, branch, bit, s);
    }
    ScanIs(ready, start, c);
  }

  lemma NoCandidate(w: seq<nat>, start: Slot)
    requires |w| == 2 && forall i, k :: 0 <= i < 2 && 0 <= k < 32 ==> Bit(w[i], k) == 0
    ensures Scan(FlagsOf(w[0], w[1]), start, 0) == 64
  {
    hide Bit;
    var ready := FlagsOf(w[0], w[1]);
    forall s: Slot ensures !ready[s] { assert Bit(w[s / 32], s % 32) == 0; }
    ScanMeaning(ready, start, 0);
  }

  /** Clearing or setting one bit of one word clears or sets one slot. */
  lemma WordUpdated(w: seq<nat>, slot: Slot)
    requires |w| == 2 && w[0] <= ALL && w[1] <= ALL
    ensures SlotMask(slot) <= ALL && And(w[slot / 32], Not(SlotMask(slot))) <= ALL && Or(w[slot / 32], SlotMask(slot)) <= ALL
    ensures var cleared := w[slot / 32 := And(w[slot / 32], Not(SlotMask(slot)))];
      FlagsOf(cleared[0], cleared[1]) == FlagsOf(w[0], w[1])[slot := false]
    ensures var added := w[slot / 32 := Or(w[slot / 32], SlotMask(slot))];
      FlagsOf(added[0], added[1]) == FlagsOf(w[0], w[1])[slot := true]
  {
    hide And, Bit, Or, Pow2;
    var i, b := slot / 32, slot % 32;
    Shifted(b);
    PositivePower(b);
    ThirtyTwo();
    var m := SlotMask(slot);
    hide Shl, SlotMask;
    AndSmall(w[i], Not(m));
    OrBelow(w[i], m, 32);
    forall k: nat | k < 32
      ensures Bit(And(w[i], Not(m)), k) == (if k == b then 0 else Bit(w[i], k))
      ensures Bit(Or(w[i], m), k) == 1 <==> k == b || Bit(w[i], k) == 1
    {
      BitOfPower(b, k);
      BitNot(32, m, k);
      BitAnd(w[i], Not(m), k);
      BitOr(w[i], m, k);
    }
  }

  // ---------------------------------------------------------------- the scheduler

  class PqcSessionScheduler {
    const readyBitmap: array<nat>
    const pending: array<Request>
    var nextSlot: nat

    ghost predicate Valid()
      reads this, readyBitmap
    {
      readyBitmap.Length == 2 && pending.Length == 64 && readyBitmap[0] <= ALL && readyBitmap[1] <= ALL && nextSlot < 64
    }

    ghost function View(): Table
      requires Valid()
      reads this, readyBitmap, pending
    {
      Table(FlagsOf(readyBitmap[0], readyBitmap[1]), pending[..], nextSlot)
    }

    constructor ()
      ensures Valid() && View().ready == seq(64, _ => false) && nextSlot == 0 && fresh(readyBitmap) && fresh(pending)
    {
      readyBitmap := new nat[2](_ => 0);
      pending := new Request[64](_ => Request(0, 0, 0, [], []));
      nextSlot := 0;
      new;
      forall k: nat | k < 32 ensures Bit(0, k) == 0 { BitOfZero(k); }
    }

    method HasPending(slot: nat) returns (r: bool)
      requires Valid()
      ensures r <==> slot < 64 && View().ready[slot]
    {
      if slot >= SESSIONS { return false; }
      MaskTests(readyBitmap[slot / 32], slot % 32);
      r := And(readyBitmap[slot / 32], SlotMask(slot)) != 0;
    }

    /** 1 accepted, 0 the slot is busy, -1 bad slot or length. */
    method Submit(slot: nat, q: Request) returns (r: int)
      requires Valid()
      modifies readyBitmap, pending
      ensures Valid() && nextSlot == old(nextSlot)
      ensures r == -1 <==> slot >= 64 || q.length > 64
      ensures r == -1 ==> View() == old(View())
      ensures r != -1 ==> r == (if old(View().ready)[slot] then 0 else 1) && View() == Accept(old(View()), slot, q)
      ensures r == 0 ==> View() == old(View())
      ensures r == 1 ==> View().ready == old(View().ready)[slot := true] && View().requests == old(View().requests)[slot := q]
    {
      if slot >= SESSIONS || q.length > PACKET_BYTES { return -1; }
      var busy := HasPending(slot);
      if busy { return 0; }
      WordUpdated(readyBitmap[..], slot);
      ghost var was := readyBitmap[..];
      pending[slot] := q;
      readyBitmap[slot / 32] := Or(readyBitmap[slot / 32], SlotMask(slot));
      assert readyBitmap[..] == was[slot / 32 := Or(was[slot / 32], SlotMask(slot))];
      assert pending[..] == old(pending[..])[slot := q];
      return 1;
    }

    method FirstSetBit(value: nat) returns (bit: nat)
      requires 0 < value <= ALL
      ensures bit < 32 && Bit(value, bit) == 1 && forall k :: 0 <= k < bit ==> Bit(value, k) == 0
    {
      hide Bit, Pow2, Shift;
      ThirtyTwo();
      var v := value;
      bit := 0;
      ShiftedBit(value, 0);
      while v % 2 == 0
        invariant bit <= 32 && v == Shift(value, bit) && 0 < v < Pow2(32 - bit)
        invariant Bit(value, bit) == v % 2
        invariant forall k :: 0 <= k < bit ==> Bit(value, k) == 0
        decreases v
      {
        HalfBelow(v, 32 - bit);
        ShiftedBit(value, bit + 1);
        v := v / 2;
        bit := bit + 1;
      }
      HalfBelow(v, 32 - bit);
    }

    /** The next request in round-robin order: 1 with its slot, or 0 when nothing is pending. */
    method TakeNext() returns (r: int, slot: nat, q: Request)
      requires Valid()
      modifies this, readyBitmap
      ensures Valid()
      ensures View() == Take(old(View()))
      ensures r == 0 <==> forall s: Slot :: !old(View().ready)[s]
      ensures r != 0 ==> r == 1 && slot == Scan(old(View().ready), old(nextSlot), 0) < 64 && q == old(View().requests)[slot]
    {
      ScanMeaning(View().ready, nextSlot, 0);
      r, slot, q := 0, 0, Request(0, 0, 0, [], []);
      var found, candidate := Search();
      if !found { return; }
      WordUpdated(readyBitmap[..], candidate);
      ghost var was := readyBitmap[..];
      readyBitmap[candidate / 32] := And(readyBitmap[candidate / 32], Not(SlotMask(candidate)));
      assert readyBitmap[..] == was[candidate / 32 := And(was[candidate / 32], Not(SlotMask(candidate)))];
      nextSlot := (candidate + 1) % 64;
      r, slot, q := 1, candidate, pending[candidate];
    }

    /** The two-word search from the next slot on. */
    method Search() returns (found: bool, candidate: nat)
      requires Valid()
      ensures var c := Scan(View().ready, nextSlot, 0); if found then candidate == c < 64 else c == 64
    {
      hide Bit, And, Shl, Not, Scan;
      candidate := 0;
      var startWord, startBit := nextSlot / 32, nextSlot % 32;
      var otherWord := 1 - startWord;
      ghost var w := readyBitmap[..];
      var bit;
      MaskedBits(w[startWord], startBit, 0);
      forall k: nat | k < 32
        ensures Bit(And(w[startWord], Shl(ALL, startBit)), k) == (if k >= startBit then Bit(w[startWord], k) else 0)
        ensures Bit(And(w[startWord], Not(Shl(ALL, startBit))), k) == (if k < startBit then Bit(w[startWord], k) else 0)
      {
        MaskedBits(w[startWord], startBit, k);
      }
      AndSmall(w[startWord], Shl(ALL, startBit));
      AndSmall(w[startWord], Not(Shl(ALL, startBit)));
      var candidates := And(readyBitmap[startWord], Shl(ALL, startBit));
      if candidates != 0 {
        bit := FirstSetBit(candidates);
        CandidateIsScan(w, nextSlot, 0, bit);
        return true, 32 * startWord + bit;
      }
      AllClear();
      if readyBitmap[otherWord] != 0 {
        bit := FirstSetBit(readyBitmap[otherWord]);
        CandidateIsScan(w, nextSlot, 1, bit);
        return true, 32 * otherWord + bit;
      }
      candidates := And(readyBitmap[startWord], Not(Shl(ALL, startBit)));
      if candidates == 0 {
        NoCandidate(w, nextSlot);
        return false, 0;
      }
      bit := FirstSetBit(candidates);
      CandidateIsScan(w, nextSlot, 2, bit);
      return true, 32 * startWord + bit;
    }
  }

  /** Shifting one bit at a time: the low bit of the shifted word is the next bit. */
  lemma {:induction false} ShiftedBit(x: nat, b: nat)
    ensures Bit(x, b) == Shift(x, b) % 2
    ensures b == 0 ==> Shift(x, b) == x
    ensures b > 0 ==> Shift(x, b) == Shift(x, b - 1) / 2
    decreases b
  {
    if b > 0 { ShiftedBit(x / 2, b - 1); }
  }

  /** A positive even word is below 2^n only for n > 0, and its half is below 2^(n - 1). */
  lemma HalfBelow(v: nat, n: nat)
    requires 0 < v < Pow2(n)
    ensures n > 0 && v / 2 < Pow2(n - 1)
  {
  }

  lemma AllClear()
    ensures forall k: nat :: Bit(0, k) == 0
  {
    forall k: nat ensures Bit(0, k) == 0 { BitOfZero(k); }
  }

  /** Testing with a one-bit mask reads that bit. */
  lemma MaskTests(word: nat, b: nat)
    requires word <= ALL && b < 32
    ensures And(word, Shl(1, b)) != 0 <==> Bit(word, b) == 1
  {
    hide And, Bit, Pow2;
    Shifted(b);
    ThirtyTwo();
    hide Shl;
    var m := And(word, Shl(1, b));
    BitOfPower(b, b);
    BitAnd(word, Shl(1, b), b);
    BitRange(word, b);
    BitOfZero(b);
    if m != 0 {
      AndSmall(word, Shl(1, b));
      var k := SomeBit(32, m);
      BitOfPower(b, k);
      BitAnd(word, Shl(1, b), k);
    }
  }
}
