/** The sixty-four-session table in block memory and its counters (one request at a time). */
module Session {
  import opened Bytes

  // ---------------------------------------------------------------- sessions and the abstract table

  const TWO32 := 0x1_0000_0000
  const TWO64 := 0x1_0000_0000_0000_0000

  type Word32 = w: nat | w < 0x1_0000_0000
  type Counter = c: nat | c < 0x1_0000_0000_0000_0000
  type Slot = s: nat | s < 64
  type Key = k: seq<Word32> | |k| == 8 witness [0, 0, 0, 0, 0, 0, 0, 0]

  datatype Record = Record(id: Word32, txKey: Key, rxKey: Key, txPrefix: Word32, rxPrefix: Word32, txCounter: Counter, rxCounter: Counter)

  datatype Option<T> = None | Some(value: T)

  type Table = t: seq<Option<Record>> | |t| == 64 witness seq(64, _ => None)

  datatype Request = Request(slot: Slot, decrypt: bool, length: Byte, counter: Counter, data: nat, tag: nat)

  datatype Response = Response(authOk: bool, error: bool, slot: Slot, counter: Counter, data: nat, tag: nat)

  /** What the cipher engine is given, and its answer. */
  datatype EngineIn = EngineIn(decrypt: bool, key: Key, nonce: nat, aad: nat, data: nat, tag: nat)

  datatype Answer = Answer(authOk: bool, data: nat, tag: nat)

  /** The cipher engine, uninterpreted. */
  type Aead = EngineIn -> Answer

  /** Value with its n bytes in the opposite order. */
  function Reversed(x: nat, n: nat): nat {
    if n == 0 then 0 else x % 256 * Pow256(n - 1) + Reversed(x / 256, n - 1)
  }

  /** Prefix, then the counter most significant byte first. */
  function Nonce(prefix: Word32, counter: Counter): nat { prefix + TWO32 * Reversed(counter, 8) }

  function Aad(id: Word32, counter: Counter, length: Byte): nat {
    Reversed(id, 4) + TWO32 * Reversed(counter, 8) + length * 0x1_0000_0000_0000_0000_0000_0000
  }

  /** Counter the cipher runs under. */
  function OperationCounter(r: Record, q: Request): Counter { if q.decrypt then q.counter else r.txCounter }

  function EngineJob(r: Record, q: Request): EngineIn {
    var c := OperationCounter(r, q);
    EngineIn(q.decrypt, if q.decrypt then r.rxKey else r.txKey, Nonce(if q.decrypt then r.rxPrefix else r.txPrefix, c),
             Aad(r.id, c, q.length), q.data, q.tag)
  }

  /** Length and replay check. */
  predicate Admissible(r: Record, q: Request) { q.length <= 64 && (q.decrypt ==> q.counter == r.rxCounter) }

  predicate Succeeds(aead: Aead, t: Table, q: Request) {
    t[q.slot].Some? && Admissible(t[q.slot].value, q) && aead(EngineJob(t[q.slot].value, q)).authOk
  }

  function Counted(r: Record, decrypt: bool): Record {
    if decrypt then r.(rxCounter := (r.rxCounter + 1) % TWO64) else r.(txCounter := (r.txCounter + 1) % TWO64)
  }

  /** A request serves one slot; only success moves its counter. */
  function TableAfter(aead: Aead, t: Table, q: Request): Table {
    if Succeeds(aead, t, q) then t[q.slot := Some(Counted(t[q.slot].value, q.decrypt))] else t
  }

  function Rejection(q: Request, tag: nat, counter: Counter): Response { Response(false, true, q.slot, counter, 0, tag) }

  function ResponseTo(aead: Aead, t: Table, q: Request): Response {
    if t[q.slot].None? || !Admissible(t[q.slot].value, q) then Rejection(q, 0, if q.decrypt then q.counter else 0)
    else
      var r := t[q.slot].value;
      var a := aead(EngineJob(r, q));
      if a.authOk then Response(true, false, q.slot, OperationCounter(r, q), a.data, a.tag)
      else Rejection(q, a.tag, OperationCounter(r, q))
  }

  function Installed(r: Record): Record { r.(txCounter := 0, rxCounter := 0) }

  function Configured(t: Table, s: Slot, valid: bool, r: Record): Table {
    t[s := if valid then Some(Installed(r)) else None]
  }

  // ---------------------------------------------------------------- runs

  datatype Operation = Configure(slot: Slot, valid: bool, record: Record) | Serve(request: Request)

  function After(aead: Aead, t: Table, o: Operation): Table {
    match o case Configure(s, v, r) => Configured(t, s, v, r) case Serve(q) => TableAfter(aead, t, q)
  }

  /** Counters of the successful requests of one direction on one slot, in order. */
  function Counters(aead: Aead, t: Table, run: seq<Operation>, s: Slot, decrypt: bool): seq<Counter>
    decreases |run|
  {
    if run == [] then []
    else
      var rest := Counters(aead, After(aead, t, run[0]), run[1..], s, decrypt);
      if Hits(aead, t, run[0], s, decrypt) then
        [ResponseTo(aead, t, run[0].request).counter] + rest
      else rest
  }

  predicate Untouched(run: seq<Operation>, s: Slot) {
    forall i :: 0 <= i < |run| ==> run[i].Configure? ==> run[i].slot != s
  }

  function CounterOf(r: Record, decrypt: bool): Counter { if decrypt then r.rxCounter else r.txCounter }

  /** Until the slot is configured again, successful requests of one direction use consecutive
      counters, whatever else happens to this slot or to others. */
  lemma {:induction false} ConsecutiveCounters(aead: Aead, t: Table, run: seq<Operation>, s: Slot, decrypt: bool)
    requires t[s].Some? && Untouched(run, s)
    ensures CountsFrom(Counters(aead, t, run, s, decrypt), CounterOf(t[s].value, decrypt))
    decreases |run|
  {
    if run != [] {
      var t', rest := After(aead, t, run[0]), run[1..];
      assert run[0].Configure? ==> run[0].slot != s;
      assert Untouched(rest, s) by { forall i | 0 <= i < |rest| && rest[i].Configure? ensures rest[i].slot != s { assert rest[i] == run[i + 1]; } }
      ConsecutiveCounters(aead, t', rest, s, decrypt);
      var c, d := Counters(aead, t, run, s, decrypt), Counters(aead, t', rest, s, decrypt);
      var start, next := CounterOf(t[s].value, decrypt), CounterOf(t'[s].value, decrypt);
      OneOperation(aead, t, run[0], s, decrypt);
      if Hits(aead, t, run[0], s, decrypt) {
        assert c == [start] + d;
        Prepended(d, start, next);
      } else {
        assert c == d && next == start;
      }
    }
  }

  /** start, start + 1, start + 2, ... modulo 2^64. */
  predicate CountsFrom(c: seq<Counter>, start: Counter) {
    forall i :: 0 <= i < |c| ==> c[i] == (start + i) % TWO64
  }

  lemma Prepended(d: seq<Counter>, start: Counter, next: Counter)
    requires CountsFrom(d, next) && next == (start + 1) % TWO64
    ensures CountsFrom([start] + d, start)
  {
    var c := [start] + d;
    forall i | 0 <= i < |c| ensures c[i] == (start + i) % TWO64 {
      if i > 0 {
        assert c[i] == d[i - 1];
        Wraps(start, i, next);
      }
    }
  }

  /** The operation is a successful request of this direction on this slot. */
  predicate Hits(aead: Aead, t: Table, o: Operation, s: Slot, decrypt: bool) {
    o.Serve? && o.request.slot == s && o.request.decrypt == decrypt && Succeeds(aead, t, o.request)
  }

  lemma OneOperation(aead: Aead, t: Table, o: Operation, s: Slot, decrypt: bool)
    requires t[s].Some? && (o.Configure? ==> o.slot != s)
    ensures var t' := After(aead, t, o); var start := CounterOf(t[s].value, decrypt);
      && t'[s].Some?
      && CounterOf(t'[s].value, decrypt) == (if Hits(aead, t, o, s, decrypt) then (start + 1) % TWO64 else start)
      && (Hits(aead, t, o, s, decrypt) ==> ResponseTo(aead, t, o.request).counter == start)
  {
  }

  lemma Wraps(start: int, i: int, next: int)
    requires i > 0 && next == (start + 1) % TWO64
    ensures (next + (i - 1)) % TWO64 == (start + i) % TWO64
  {
  }

  /** From an installation on, the successful requests of each direction use 0, 1, 2, ... without gap
      or repetition, for fewer than 2^64 of them. */
  lemma CountersAfterInstall(aead: Aead, t: Table, s: Slot, r: Record, run: seq<Operation>, decrypt: bool)
    requires Untouched(run, s)
    ensures var c := Counters(aead, After(aead, t, Configure(s, true, r)), run, s, decrypt);
      |c| <= TWO64 ==> forall i :: 0 <= i < |c| ==> c[i] == i
  {
    ConsecutiveCounters(aead, Configured(t, s, true, r), run, s, decrypt);
  }

  lemma {:induction false} ReversedBelow(x: nat, n: nat)
    requires x < Pow256(n)
    ensures Reversed(x, n) < Pow256(n)
  {
    if n > 0 {
      ReversedBelow(x / 256, n - 1);
      Digit(x % 256, Pow256(n - 1));
    }
  }

  lemma Digit(d: nat, p: nat)
    requires d < 256
    ensures d * p <= 255 * p
  {
  }

  lemma {:induction false} ReversedInjective(x: nat, y: nat, n: nat)
    requires x < Pow256(n) && y < Pow256(n) && Reversed(x, n) == Reversed(y, n)
    ensures x == y
  {
    if n > 0 {
      ReversedBelow(x / 256, n - 1);
      ReversedBelow(y / 256, n - 1);
      SameDigit(x % 256, y % 256, Pow256(n - 1), Reversed(x / 256, n - 1), Reversed(y / 256, n - 1));
      ReversedInjective(x / 256, y / 256, n - 1);
    }
  }

  lemma SameDigit(a: nat, b: nat, p: nat, x: nat, y: nat)
    requires x < p && y < p && a * p + x == b * p + y
    ensures a == b && x == y
  {
    Difference(a, b, p);
    Difference(b, a, p);
    if a > b { Reaches(a - b, p); } else if a < b { Reaches(b - a, p); }
  }

  lemma Difference(a: int, b: int, p: int)
    ensures (a - b) * p == a * p - b * p
  {
  }

  lemma Reaches(d: int, p: nat)
    requires d >= 1
    ensures d * p >= p
  {
  }

  /** Nonces of the successful encryptions after an installation, in order. */
  function Nonces(aead: Aead, t: Table, s: Slot, r: Record, run: seq<Operation>): seq<nat> {
    var c := Counters(aead, After(aead, t, Configure(s, true, r)), run, s, false);
    seq(|c|, i requires 0 <= i < |c| => Nonce(r.txPrefix, c[i]))
  }

  /** Two successful encryptions after any two installations, of one slot or of two, use the same nonce
      exactly when the prefixes agree and both are the i-th of their installation. */
  lemma NoncesCollide(aead: Aead, t: Table, s: Slot, r: Record, run: seq<Operation>, i: nat,
                      t': Table, s': Slot, r': Record, run': seq<Operation>, k: nat)
    requires Untouched(run, s) && i < |Nonces(aead, t, s, r, run)| <= TWO64
    requires Untouched(run', s') && k < |Nonces(aead, t', s', r', run')| <= TWO64
    ensures Nonces(aead, t, s, r, run)[i] == Nonces(aead, t', s', r', run')[k] <==> r.txPrefix == r'.txPrefix && i == k
  {
    CountersAfterInstall(aead, t, s, r, run, false);
    CountersAfterInstall(aead, t', s', r', run', false);
    EightBytes();
    NonceParts(r.txPrefix, i, r'.txPrefix, k);
  }

  /** A nonce determines its prefix and its counter. */
  lemma NonceParts(p: Word32, c: Counter, p': Word32, c': Counter)
    ensures Nonce(p, c) == Nonce(p', c') <==> p == p' && c == c'
  {
    EightBytes();
    if Nonce(p, c) == Nonce(p', c') {
      var x, x' := Reversed(c, 8), Reversed(c', 8);
      assert x == x' by { assert p - p' == TWO32 * (x' - x); }
      ReversedInjective(c, c', 8);
    }
  }

  /** Within one installation no nonce repeats. */
  lemma NoncesDiffer(aead: Aead, t: Table, s: Slot, r: Record, run: seq<Operation>, i: nat, k: nat)
    requires Untouched(run, s)
    requires i < k < |Nonces(aead, t, s, r, run)| <= TWO64
    ensures Nonces(aead, t, s, r, run)[i] != Nonces(aead, t, s, r, run)[k]
  {
    NoncesCollide(aead, t, s, r, run, i, t, s, r, run, k);
  }

  /** Installing the same record again starts over: the same request is given to the cipher engine
      under the same key and the same nonce, whatever happened in between. */
  lemma ReinstallRepeats(aead: Aead, t: Table, s: Slot, r: Record, t': Table, q: Request)
    requires q.slot == s
    ensures var one, two := After(aead, t, Configure(s, true, r)), After(aead, t', Configure(s, true, r));
      && one[s].Some? && two[s].Some? && EngineJob(one[s].value, q) == EngineJob(two[s].value, q)
      && (!q.decrypt ==> EngineJob(one[s].value, q).nonce == Nonce(r.txPrefix, 0))
      && (Succeeds(aead, one, q) <==> Succeeds(aead, two, q))
  {
  }

  lemma EightBytes()
    ensures Pow256(8) == TWO64
  {
    assert Pow256(4) == TWO32;
  }

  /** Exactly the successes are acknowledged; everything else returns no data and moves no counter;
      and an operation never touches another slot. */
  lemma OnlySuccessCounts(aead: Aead, t: Table, q: Request, other: Slot)
    ensures ResponseTo(aead, t, q).authOk <==> Succeeds(aead, t, q)
    ensures ResponseTo(aead, t, q).error <==> !ResponseTo(aead, t, q).authOk
    ensures !ResponseTo(aead, t, q).authOk ==> ResponseTo(aead, t, q).data == 0 && TableAfter(aead, t, q) == t
    ensures other != q.slot ==> TableAfter(aead, t, q)[other] == t[other]
  {
  }

  // ---------------------------------------------------------------- what the cipher engine is given

  /** n bytes of a number, least and most significant first. */
  function LowFirst(x: nat, n: nat): (b: seq<Byte>)
    ensures |b| == n
  {
    if n == 0 then [] else [x % 256] + LowFirst(x / 256, n - 1)
  }

  function HighFirst(x: nat, n: nat): (b: seq<Byte>)
    ensures |b| == n
  {
    if n == 0 then [] else HighFirst(x / 256, n - 1) + [x % 256]
  }

  /** The 96-bit nonce: four prefix bytes as they are, eight counter bytes in network order. */
  function NonceBytes(prefix: Word32, counter: Counter): (b: seq<Byte>)
    ensures |b| == 12
  {
    LowFirst(prefix, 4) + HighFirst(counter, 8)
  }

  /** Associated data: session number and counter in network order, then the length. */
  function AadBytes(id: Word32, counter: Counter, length: Byte): (b: seq<Byte>)
    ensures |b| == 13
  {
    HighFirst(id, 4) + HighFirst(counter, 8) + [length]
  }

  lemma {:induction false} LowFirstValue(x: nat, n: nat)
    requires x < Pow256(n)
    ensures Le(LowFirst(x, n)) == x
  {
    if n > 0 { LowFirstValue(x / 256, n - 1); }
  }

  lemma {:induction false} HighFirstValue(x: nat, n: nat)
    ensures Le(HighFirst(x, n)) == Reversed(x, n)
  {
    if n > 0 {
      HighFirstValue(x / 256, n - 1);
      LeAppend(HighFirst(x / 256, n - 1), [x % 256]);
      OneByte(x % 256);
      Times(x % 256, Pow256(n - 1));
    }
  }

  lemma OneByte(b: Byte)
    ensures Le([b]) == b
  {
    assert Le([]) == 0;
  }

  lemma Times(a: nat, b: nat)
    ensures a * b == b * a
  {
  }

  lemma FourBytes()
    ensures Pow256(4) == TWO32
  {
  }

  /** The numbers on the nonce and associated-data inputs spell these bytes, first byte lowest. */
  lemma NonceSpelled(prefix: Word32, counter: Counter)
    ensures Nonce(prefix, counter) == Le(NonceBytes(prefix, counter))
  {
    hide LowFirst, HighFirst, Reversed, Le;
    FourBytes();
    LowFirstValue(prefix, 4);
    HighFirstValue(counter, 8);
    LeAppend(LowFirst(prefix, 4), HighFirst(counter, 8));
  }

  lemma AadSpelled(id: Word32, counter: Counter, length: Byte)
    ensures Aad(id, counter, length) == Le(AadBytes(id, counter, length))
  {
    hide HighFirst, Reversed, Le, Pow256;
    FourBytes();
    TwelveBytes();
    HighFirstValue(id, 4);
    HighFirstValue(counter, 8);
    OneByte(length);
    LeAppend(HighFirst(id, 4), HighFirst(counter, 8));
    LeAppend(HighFirst(id, 4) + HighFirst(counter, 8), [length]);
  }

  lemma TwelveBytes()
    ensures Pow256(12) == 0x1_0000_0000_0000_0000_0000_0000
  {
    assert Pow256(8) == TWO64;
  }

  // ---------------------------------------------------------------- requests of an installed session

  /** The table a run leaves. */
  function TableOf(aead: Aead, t: Table, run: seq<Operation>): Table
    decreases |run|
  {
    if run == [] then t else TableOf(aead, After(aead, t, run[0]), run[1..])
  }

  /** Until the slot is configured again its record keeps everything but the counters, and these have
      moved by the number of successes of their direction. */
  lemma {:induction false} RecordAfter(aead: Aead, t: Table, run: seq<Operation>, s: Slot)
    requires t[s].Some? && Untouched(run, s)
    ensures var n := TableOf(aead, t, run); var r := t[s].value;
      n[s] == Some(r.(txCounter := (r.txCounter + |Counters(aead, t, run, s, false)|) % TWO64,
                      rxCounter := (r.rxCounter + |Counters(aead, t, run, s, true)|) % TWO64))
    decreases |run|
  {
    if run != [] {
      var t', rest := After(aead, t, run[0]), run[1..];
      assert run[0].Configure? ==> run[0].slot != s;
      assert Untouched(rest, s) by { forall i | 0 <= i < |rest| && rest[i].Configure? ensures rest[i].slot != s { assert rest[i] == run[i + 1]; } }
      OneRecord(aead, t, run[0], s);
      RecordAfter(aead, t', rest, s);
      OneMore(aead, t, run, s, false);
      OneMore(aead, t, run, s, true);
      hide Hits, Counters, After, TableOf;
      Onwards(t[s].value.txCounter, if Hits(aead, t, run[0], s, false) then 1 else 0, |Counters(aead, t', rest, s, false)|);
      Onwards(t[s].value.rxCounter, if Hits(aead, t, run[0], s, true) then 1 else 0, |Counters(aead, t', rest, s, true)|);
    }
  }

  lemma OneMore(aead: Aead, t: Table, run: seq<Operation>, s: Slot, decrypt: bool)
    requires run != []
    ensures |Counters(aead, t, run, s, decrypt)|
         == (if Hits(aead, t, run[0], s, decrypt) then 1 else 0) + |Counters(aead, After(aead, t, run[0]), run[1..], s, decrypt)|
  {
    hide Hits, After;
  }

  lemma OneRecord(aead: Aead, t: Table, o: Operation, s: Slot)
    requires t[s].Some? && (o.Configure? ==> o.slot != s)
    ensures var r := t[s].value;
      After(aead, t, o)[s] == Some(r.(txCounter := (r.txCounter + (if Hits(aead, t, o, s, false) then 1 else 0)) % TWO64,
                                      rxCounter := (r.rxCounter + (if Hits(aead, t, o, s, true) then 1 else 0)) % TWO64))
  {
  }

  lemma Onwards(c: nat, a: nat, b: nat)
    ensures ((c + a) % TWO64 + b) % TWO64 == (c + (a + b)) % TWO64
  {
  }

  /** A request to an installed session, after any run that did not configure its slot again, field by
      field.  With n packets sent and k received since the installation, a packet over 64 bytes and a
      received packet whose counter is not k are turned away unseen.  Everything else goes to the
      cipher engine under the installed key and prefix of its direction and that counter, and the
      answer is passed on, without data when the engine does not vouch for it. */
  lemma InstalledServes(aead: Aead, t: Table, s: Slot, r: Record, run: seq<Operation>, q: Request)
    requires Untouched(run, s) && q.slot == s
    ensures var one := After(aead, t, Configure(s, true, r));
      var n, k := |Counters(aead, one, run, s, false)| % TWO64, |Counters(aead, one, run, s, true)| % TWO64;
      var rsp := ResponseTo(aead, TableOf(aead, one, run), q);
      if q.length > 64 then rsp == Response(false, true, s, if q.decrypt then q.counter else 0, 0, 0)
      else if q.decrypt then
        if q.counter != k then rsp == Response(false, true, s, q.counter, 0, 0)
        else
          var a := aead(EngineIn(true, r.rxKey, Le(NonceBytes(r.rxPrefix, k)), Le(AadBytes(r.id, k, q.length)), q.data, q.tag));
          rsp == if a.authOk then Response(true, false, s, k, a.data, a.tag) else Response(false, true, s, k, 0, a.tag)
      else
        var a := aead(EngineIn(false, r.txKey, Le(NonceBytes(r.txPrefix, n)), Le(AadBytes(r.id, n, q.length)), q.data, q.tag));
        rsp == if a.authOk then Response(true, false, s, n, a.data, a.tag) else Response(false, true, s, n, 0, a.tag)
  {
    hide Nonce, Aad, Le, NonceBytes, AadBytes;
    var one := After(aead, t, Configure(s, true, r));
    RecordAfter(aead, one, run, s);
    var n := TableOf(aead, one, run)[s].value;
    NonceSpelled(n.txPrefix, n.txCounter);
    NonceSpelled(n.rxPrefix, q.counter);
    AadSpelled(n.id, n.txCounter, q.length);
    AadSpelled(n.id, q.counter, q.length);
  }

  /** A slot never configured, or removed, turns every request away. */
  lemma RemovedServesNothing(aead: Aead, t: Table, s: Slot, r: Record, run: seq<Operation>, q: Request)
    requires Untouched(run, s) && q.slot == s
    ensures ResponseTo(aead, TableOf(aead, After(aead, t, Configure(s, false, r)), run), q)
         == Response(false, true, s, if q.decrypt then q.counter else 0, 0, 0)
  {
    StaysEmpty(aead, After(aead, t, Configure(s, false, r)), run, s);
  }

  lemma {:induction false} StaysEmpty(aead: Aead, t: Table, run: seq<Operation>, s: Slot)
    requires t[s].None? && Untouched(run, s)
    ensures TableOf(aead, t, run)[s].None?
    decreases |run|
  {
    if run != [] {
      var rest := run[1..];
      assert run[0].Configure? ==> run[0].slot != s;
      assert Untouched(rest, s) by { forall i | 0 <= i < |rest| && rest[i].Configure? ensures rest[i].slot != s { assert rest[i] == run[i + 1]; } }
      StaysEmpty(aead, After(aead, t, run[0]), rest, s);
    }
  }

  // ---------------------------------------------------------------- words of a record

  type Index24 = w: nat | w < 24

  type Memory = m: seq<Word32> | |m| == 1536 witness seq(1536, _ => 0)

  function WordOf(r: Record, w: Index24): Word32 {
    if w == 0 then r.id
    else if w < 9 then r.txKey[w - 1]
    else if w < 17 then r.rxKey[w - 9]
    else if w == 17 then r.txPrefix
    else if w == 18 then r.rxPrefix
    else if w == 19 then r.txCounter % TWO32
    else if w == 20 then r.txCounter / TWO32
    else if w == 21 then r.rxCounter % TWO32
    else if w == 22 then r.rxCounter / TWO32
    else 0
  }

  /** One captured word goes to its field. */
  function SetWord(r: Record, w: Index24, v: Word32): Record {
    if w == 0 then r.(id := v)
    else if w < 9 then r.(txKey := r.txKey[w - 1 := v])
    else if w < 17 then r.(rxKey := r.rxKey[w - 9 := v])
    else if w == 17 then r.(txPrefix := v)
    else if w == 18 then r.(rxPrefix := v)
    else if w == 19 then r.(txCounter := r.txCounter / TWO32 * TWO32 + v)
    else if w == 20 then r.(txCounter := v * TWO32 + r.txCounter % TWO32)
    else if w == 21 then r.(rxCounter := r.rxCounter / TWO32 * TWO32 + v)
    else if w == 22 then r.(rxCounter := v * TWO32 + r.rxCounter % TWO32)
    else r
  }

  lemma SetWordKeeps(r: Record, w: Index24, v: Word32, k: Index24)
    ensures w < 23 ==> WordOf(SetWord(r, w, v), w) == v
    ensures k != w ==> WordOf(SetWord(r, w, v), k) == WordOf(r, k)
  {
    if w == 19 { Halves(r.txCounter / TWO32, v); Parts(r.txCounter); }
    if w == 20 { Halves(v, r.txCounter % TWO32); Parts(r.txCounter); }
    if w == 21 { Halves(r.rxCounter / TWO32, v); Parts(r.rxCounter); }
    if w == 22 { Halves(v, r.rxCounter % TWO32); Parts(r.rxCounter); }
  }

  lemma Halves(hi: nat, lo: Word32)
    ensures (hi * TWO32 + lo) / TWO32 == hi && (hi * TWO32 + lo) % TWO32 == lo
  {
  }

  lemma Parts(c: Counter)
    ensures c == c / TWO32 * TWO32 + c % TWO32 && c / TWO32 < TWO32
  {
  }

  /** Records with the same words are the same. */
  lemma WordsDetermine(a: Record, b: Record)
    requires forall w: Index24 :: w < 23 ==> WordOf(a, w) == WordOf(b, w)
    ensures a == b
  {
    assert WordOf(a, 0) == WordOf(b, 0) && WordOf(a, 17) == WordOf(b, 17) && WordOf(a, 18) == WordOf(b, 18);
    assert WordOf(a, 19) == WordOf(b, 19) && WordOf(a, 20) == WordOf(b, 20) && WordOf(a, 21) == WordOf(b, 21) && WordOf(a, 22) == WordOf(b, 22);
    forall i | 0 <= i < 8 ensures a.txKey[i] == b.txKey[i] && a.rxKey[i] == b.rxKey[i] {
      assert WordOf(a, i + 1) == WordOf(b, i + 1) && WordOf(a, i + 9) == WordOf(b, i + 9);
    }
    assert a.txKey == b.txKey && a.rxKey == b.rxKey;
    Parts(a.txCounter);
    Parts(b.txCounter);
    Parts(a.rxCounter);
    Parts(b.rxCounter);
  }

  function BaseOf(s: Slot): nat { 24 * s }

  /** The slot's words spell the record. */
  ghost predicate Spells(mem: Memory, s: Slot, r: Record) {
    forall w: Index24 :: mem[BaseOf(s) + w] == WordOf(r, w)
  }

  /** Every valid slot spells its record; at most `except` is in between. */
  ghost predicate Holds(mem: Memory, valid: seq<bool>, t: Table, except: nat)
    requires |valid| == 64
  {
    forall s: Slot :: s != except ==> (valid[s] <==> t[s].Some?) && (t[s].Some? ==> Spells(mem, s, t[s].value))
  }

  /** A word written into one slot concerns no other. */
  lemma WriteElsewhere(mem: Memory, s: Slot, w: Index24, v: Word32, other: Slot, r: Record)
    requires other != s && Spells(mem, other, r)
    ensures Spells(mem[BaseOf(s) + w := v], other, r)
  {
    hide WordOf;
  }

  lemma HoldsElsewhere(mem: Memory, valid: seq<bool>, t: Table, s: Slot, w: Index24, v: Word32)
    requires |valid| == 64 && Holds(mem, valid, t, s)
    ensures Holds(mem[BaseOf(s) + w := v], valid, t, s)
  {
    hide WordOf, Spells;
    forall o: Slot | o != s && t[o].Some? ensures Spells(mem[BaseOf(s) + w := v], o, t[o].value) {
      WriteElsewhere(mem, s, w, v, o, t[o].value);
    }
  }

  // ---------------------------------------------------------------- registers

  datatype State = Idle | CfgWrite | ReadIssue | ReadCapture | Check | EngineWait | CountLow | CountHigh | Respond

  /** `wait` counts the clocks the engine still needs; its delay is arbitrary each time. */
  datatype Regs = Regs(state: State, cfgSlot: Slot, cfgWord: Index24, cfg: Record, q: Request, active: Record, readWord: Index24,
                       rdata: Word32, operationCounter: Counter, updated: Counter, job: EngineIn, wait: nat,
                       rspValid: bool, rsp: Response, cfgDone: bool)

  datatype In = In(cfgWrite: bool, cfgSlot: Slot, cfgValid: bool, cfg: Record, reqValid: bool, q: Request, rspReady: bool, delay: nat)

  /** Registers, memory and the valid bits. */
  datatype Core = Core(x: Regs, mem: Memory, valid: seq<bool>)

  function Cleared(): Record { Record(0, [0, 0, 0, 0, 0, 0, 0, 0], [0, 0, 0, 0, 0, 0, 0, 0], 0, 0, 0, 0) }

  function ConfigWord(r: Record, w: Index24): Word32 { if w < 19 then WordOf(r, w) else 0 }

  function CounterWord(q: Request): Index24 { if q.decrypt then 21 else 19 }

  function IdleEdge(m: Core, i: In): Core
    requires |m.valid| == 64
  {
    var x := m.x.(cfgDone := false);
    if i.cfgWrite then
      if !i.cfgValid then Core(x.(cfgDone := true), m.mem, m.valid[i.cfgSlot := false])
      else Core(x.(cfgSlot := i.cfgSlot, cfgWord := 0, cfg := i.cfg, state := CfgWrite), m.mem, m.valid)
    else if i.reqValid then
      var y := x.(q := i.q, rsp := Response(false, false, i.q.slot, x.rsp.counter, 0, 0));
      if !m.valid[i.q.slot] then
        Core(y.(rsp := Response(false, true, i.q.slot, if i.q.decrypt then i.q.counter else 0, 0, 0), rspValid := true, state := Respond),
             m.mem, m.valid)
      else Core(y.(readWord := 0, active := Cleared(), state := ReadIssue), m.mem, m.valid)
    else Core(x, m.mem, m.valid)
  }

  function CheckEdge(m: Core, delay: nat): Core {
    var x := m.x.(cfgDone := false, operationCounter := if m.x.q.decrypt then m.x.q.counter else m.x.active.txCounter);
    if m.x.q.length > 64 || (m.x.q.decrypt && m.x.q.counter != m.x.active.rxCounter) then
      m.(x := x.(rsp := Response(false, true, x.rsp.slot, if m.x.q.decrypt then m.x.q.counter else 0, 0, 0), rspValid := true, state := Respond))
    else m.(x := x.(job := EngineJob(m.x.active, m.x.q), wait := delay, state := EngineWait))
  }

  function EngineEdge(aead: Aead, m: Core): Core {
    var x := m.x.(cfgDone := false);
    if x.wait > 0 then m.(x := x.(wait := x.wait - 1))
    else
      var a := aead(x.job);
      var y := x.(rsp := Response(a.authOk, !a.authOk, x.rsp.slot, x.operationCounter, if a.authOk then a.data else 0, a.tag));
      if a.authOk then
        m.(x := y.(updated := ((if x.q.decrypt then x.active.rxCounter else x.active.txCounter) + 1) % TWO64, state := CountLow))
      else m.(x := y.(rspValid := true, state := Respond))
  }

  /** Next value of every register, of the memory and of the valid bits. */
  function Edge(aead: Aead, m: Core, i: In): Core
    requires |m.valid| == 64
  {
    var x := m.x.(cfgDone := false);
    match m.x.state
    case Idle => IdleEdge(m, i)
    case CfgWrite =>
      var mem := m.mem[BaseOf(x.cfgSlot) + x.cfgWord := ConfigWord(x.cfg, x.cfgWord)];
      if x.cfgWord == 23 then Core(x.(cfgDone := true, state := Idle), mem, m.valid[x.cfgSlot := true])
      else Core(x.(cfgWord := x.cfgWord + 1), mem, m.valid)
    case ReadIssue => m.(x := x.(rdata := m.mem[BaseOf(x.q.slot) + x.readWord], state := ReadCapture))
    case ReadCapture =>
      var y := x.(active := SetWord(x.active, x.readWord, x.rdata));
      m.(x := if x.readWord == 23 then y.(state := Check) else y.(readWord := x.readWord + 1, state := ReadIssue))
    case Check => CheckEdge(m, i.delay)
    case EngineWait => EngineEdge(aead, m)
    case CountLow => m.(x := x.(state := CountHigh), mem := m.mem[BaseOf(x.q.slot) + CounterWord(x.q) := x.updated % TWO32])
    case CountHigh =>
      m.(x := x.(rspValid := true, state := Respond), mem := m.mem[BaseOf(x.q.slot) + CounterWord(x.q) + 1 := x.updated / TWO32])
    case Respond => m.(x := if i.rspReady then x.(rspValid := false, state := Idle) else x)
  }

  // ---------------------------------------------------------------- what every register means

  /** Words below n have been copied. */
  ghost predicate Copied(mem: Memory, s: Slot, r: Record, n: nat) {
    forall w: Index24 :: w < n ==> mem[BaseOf(s) + w] == WordOf(r, w)
  }

  ghost predicate Captured(active: Record, r: Record, n: nat) {
    forall w: Index24 :: w < n && w < 23 ==> WordOf(active, w) == WordOf(r, w)
  }

  ghost predicate Active(x: Regs, t: Table) { t[x.q.slot].Some? && x.rsp.slot == x.q.slot }

  /** The table t is the one before the operation in progress; from the response on, the one after. */
  ghost predicate Inv(aead: Aead, m: Core, t: Table, before: Table) {
    && |m.valid| == 64
    && m.x.rspValid == (m.x.state == Respond)
    && match m.x.state
       case Idle => Holds(m.mem, m.valid, t, 64)
       case CfgWrite => Holds(m.mem, m.valid, t, m.x.cfgSlot) && Copied(m.mem, m.x.cfgSlot, Installed(m.x.cfg), m.x.cfgWord)
       case ReadIssue => Holds(m.mem, m.valid, t, 64) && Active(m.x, t) && Captured(m.x.active, t[m.x.q.slot].value, m.x.readWord)
       case ReadCapture =>
         Holds(m.mem, m.valid, t, 64) && Active(m.x, t) && Captured(m.x.active, t[m.x.q.slot].value, m.x.readWord)
         && m.x.rdata == WordOf(t[m.x.q.slot].value, m.x.readWord)
       case Check => Holds(m.mem, m.valid, t, 64) && Active(m.x, t) && m.x.active == t[m.x.q.slot].value
       case EngineWait =>
         Holds(m.mem, m.valid, t, 64) && Active(m.x, t) && m.x.active == t[m.x.q.slot].value
         && Admissible(m.x.active, m.x.q) && m.x.job == EngineJob(m.x.active, m.x.q)
         && m.x.operationCounter == OperationCounter(m.x.active, m.x.q)
       case CountLow => Holds(m.mem, m.valid, t, 64) && Counting(aead, m.x, t)
       case CountHigh =>
         Holds(m.mem, m.valid, t, m.x.q.slot) && m.valid[m.x.q.slot] && Counting(aead, m.x, t)
         && HalfCounted(m.mem, m.x.q, t[m.x.q.slot].value, m.x.updated)
       case Respond =>
         Holds(m.mem, m.valid, t, 64) && t == TableAfter(aead, before, m.x.q) && m.x.rsp == ResponseTo(aead, before, m.x.q)
  }

  ghost predicate Counting(aead: Aead, x: Regs, t: Table) {
    && Succeeds(aead, t, x.q) && x.rsp == ResponseTo(aead, t, x.q)
    && x.updated == CounterOf(Counted(t[x.q.slot].value, x.q.decrypt), x.q.decrypt)
  }

  /** The low counter word is new, every other word old. */
  ghost predicate HalfCounted(mem: Memory, q: Request, r: Record, updated: Counter) {
    forall w: Index24 :: mem[BaseOf(q.slot) + w] == if w == CounterWord(q) then updated % TWO32 else WordOf(r, w)
  }

  /** The abstract table moves when an operation is complete. */
  ghost function NextTable(aead: Aead, m: Core, i: In, t: Table): Table {
    match m.x.state
    case Idle => if i.cfgWrite && !i.cfgValid then Configured(t, i.cfgSlot, false, i.cfg) else t
    case CfgWrite => if m.x.cfgWord == 23 then Configured(t, m.x.cfgSlot, true, m.x.cfg) else t
    case CountHigh => TableAfter(aead, t, m.x.q)
    case _ => t
  }

  ghost function NextBefore(m: Core, t: Table, before: Table): Table { if m.x.state == Respond then before else t }

  // ---------------------------------------------------------------- steps

  lemma InvalidHolds(mem: Memory, valid: seq<bool>, t: Table, s: Slot)
    requires |valid| == 64 && Holds(mem, valid, t, 64)
    ensures Holds(mem, valid[s := false], t[s := None], 64)
  {
    hide Spells;
  }

  lemma IdleStep(aead: Aead, m: Core, i: In, t: Table, before: Table)
    requires Inv(aead, m, t, before) && m.x.state == Idle
    ensures Inv(aead, Edge(aead, m, i), NextTable(aead, m, i, t), NextBefore(m, t, before))
  {
    hide Spells, WordOf;
    InvalidHolds(m.mem, m.valid, t, i.cfgSlot);
    assert i.q.slot != 64;
    if m.valid[i.q.slot] { assert t[i.q.slot].Some?; } else { assert t[i.q.slot].None?; }
  }

  lemma ConfigWordIs(r: Record, w: Index24)
    ensures ConfigWord(r, w) == WordOf(Installed(r), w)
  {
  }

  lemma CopyStep(mem: Memory, s: Slot, r: Record, n: Index24)
    requires Copied(mem, s, r, n)
    ensures Copied(mem[BaseOf(s) + n := WordOf(r, n)], s, r, n + 1)
  {
    hide WordOf;
  }

  lemma CopyDone(mem: Memory, valid: seq<bool>, t: Table, s: Slot, r: Record)
    requires |valid| == 64 && Holds(mem, valid, t, s) && Copied(mem, s, r, 24)
    ensures Holds(mem, valid[s := true], t[s := Some(r)], 64)
  {
    hide WordOf;
    assert Spells(mem, s, r);
    hide Spells, Copied;
  }

  lemma CfgStep(aead: Aead, m: Core, i: In, t: Table, before: Table)
    requires Inv(aead, m, t, before) && m.x.state == CfgWrite
    ensures Inv(aead, Edge(aead, m, i), NextTable(aead, m, i, t), NextBefore(m, t, before))
  {
    hide Holds, Copied, WordOf, ConfigWord;
    var s, n := m.x.cfgSlot, m.x.cfgWord;
    var r := Installed(m.x.cfg);
    ConfigWordIs(m.x.cfg, n);
    CopyStep(m.mem, s, r, n);
    HoldsElsewhere(m.mem, m.valid, t, s, n, WordOf(r, n));
    if n == 23 { CopyDone(m.mem[BaseOf(s) + n := WordOf(r, n)], m.valid, t, s, r); }
  }

  lemma ReadStep(aead: Aead, m: Core, i: In, t: Table, before: Table)
    requires Inv(aead, m, t, before) && (m.x.state == ReadIssue || m.x.state == ReadCapture)
    ensures Inv(aead, Edge(aead, m, i), NextTable(aead, m, i, t), NextBefore(m, t, before))
  {
    hide WordOf, SetWord;
    var r := t[m.x.q.slot].value;
    if m.x.state == ReadIssue {
      assert m.x.q.slot != 64;
      assert Spells(m.mem, m.x.q.slot, r);
    } else {
      forall w: Index24 | w < m.x.readWord + 1 && w < 23 ensures WordOf(SetWord(m.x.active, m.x.readWord, m.x.rdata), w) == WordOf(r, w) {
        SetWordKeeps(m.x.active, m.x.readWord, m.x.rdata, w);
      }
      if m.x.readWord == 23 { WordsDetermine(SetWord(m.x.active, m.x.readWord, m.x.rdata), r); }
    }
  }

  lemma CheckStep(aead: Aead, m: Core, i: In, t: Table, before: Table)
    requires Inv(aead, m, t, before) && (m.x.state == Check || m.x.state == EngineWait)
    ensures Inv(aead, Edge(aead, m, i), NextTable(aead, m, i, t), NextBefore(m, t, before))
  {
    hide Holds, EngineJob;
  }

  lemma LowWord(mem: Memory, q: Request, r: Record, updated: Counter)
    requires Spells(mem, q.slot, r)
    ensures HalfCounted(mem[BaseOf(q.slot) + CounterWord(q) := updated % TWO32], q, r, updated)
  {
    hide WordOf;
  }

  lemma HighWord(mem: Memory, q: Request, r: Record, updated: Counter)
    requires HalfCounted(mem, q, r, updated) && updated == CounterOf(Counted(r, q.decrypt), q.decrypt)
    ensures Spells(mem[BaseOf(q.slot) + CounterWord(q) + 1 := updated / TWO32], q.slot, Counted(r, q.decrypt))
  {
    Parts(updated);
    var n := mem[BaseOf(q.slot) + CounterWord(q) + 1 := updated / TWO32];
    forall w: Index24 ensures n[BaseOf(q.slot) + w] == WordOf(Counted(r, q.decrypt), w) {
      assert mem[BaseOf(q.slot) + w] == if w == CounterWord(q) then updated % TWO32 else WordOf(r, w);
    }
  }

  lemma Rejoined(mem: Memory, valid: seq<bool>, t: Table, s: Slot, r: Record)
    requires |valid| == 64 && Holds(mem, valid, t, s) && valid[s] && Spells(mem, s, r)
    ensures Holds(mem, valid, t[s := Some(r)], 64)
  {
    hide Spells;
  }

  lemma Loosened(mem: Memory, valid: seq<bool>, t: Table, s: Slot)
    requires |valid| == 64 && Holds(mem, valid, t, 64)
    ensures Holds(mem, valid, t, s) && (valid[s] <==> t[s].Some?) && (t[s].Some? ==> Spells(mem, s, t[s].value))
  {
    hide Spells;
  }

  lemma CountStep(aead: Aead, m: Core, i: In, t: Table, before: Table)
    requires Inv(aead, m, t, before) && (m.x.state == CountLow || m.x.state == CountHigh)
    ensures Inv(aead, Edge(aead, m, i), NextTable(aead, m, i, t), NextBefore(m, t, before))
  {
    hide Holds, Spells, HalfCounted, WordOf, EngineJob, ResponseTo;
    var q := m.x.q;
    var r := t[q.slot].value;
    Parts(m.x.updated);
    if m.x.state == CountLow {
      Loosened(m.mem, m.valid, t, q.slot);
      LowWord(m.mem, q, r, m.x.updated);
      HoldsElsewhere(m.mem, m.valid, t, q.slot, CounterWord(q), m.x.updated % TWO32);
    } else {
      HighWord(m.mem, q, r, m.x.updated);
      HoldsElsewhere(m.mem, m.valid, t, q.slot, CounterWord(q) + 1, m.x.updated / TWO32);
      Rejoined(m.mem[BaseOf(q.slot) + CounterWord(q) + 1 := m.x.updated / TWO32], m.valid, t, q.slot, Counted(r, q.decrypt));
    }
  }

  lemma InvKept(aead: Aead, m: Core, i: In, t: Table, before: Table)
    requires Inv(aead, m, t, before)
    ensures Inv(aead, Edge(aead, m, i), NextTable(aead, m, i, t), NextBefore(m, t, before))
  {
    hide Inv, Edge, NextTable, NextBefore;
    match m.x.state {
    case Idle => IdleStep(aead, m, i, t, before);
    case CfgWrite => CfgStep(aead, m, i, t, before);
    case ReadIssue => ReadStep(aead, m, i, t, before);
    case ReadCapture => ReadStep(aead, m, i, t, before);
    case Check => CheckStep(aead, m, i, t, before);
    case EngineWait => CheckStep(aead, m, i, t, before);
    case CountLow => CountStep(aead, m, i, t, before);
    case CountHigh => CountStep(aead, m, i, t, before);
    case Respond => RespondStep(aead, m, i, t, before);
    }
  }

  lemma RespondStep(aead: Aead, m: Core, i: In, t: Table, before: Table)
    requires Inv(aead, m, t, before) && m.x.state == Respond
    ensures Inv(aead, Edge(aead, m, i), NextTable(aead, m, i, t), NextBefore(m, t, before))
  {
    hide Holds, ResponseTo, TableAfter;
  }

  // ---------------------------------------------------------------- the machine

  /** Phase, then what delays the next phase. */
  function Rank(x: Regs): nat {
    match x.state
    case Idle => 0
    case CfgWrite => 24 - x.cfgWord
    case ReadIssue => 100 + 2 * (24 - x.readWord)
    case ReadCapture => 99 + 2 * (24 - x.readWord)
    case Check => 90
    case EngineWait => 80
    case CountLow => 70
    case CountHigh => 60
    case Respond => 50
  }

  lemma RankDown(aead: Aead, m: Core, i: In)
    requires |m.valid| == 64 && m.x.state != Idle && m.x.state != Respond
    ensures var n := Edge(aead, m, i).x;
      Rank(n) < Rank(m.x) || (Rank(n) == Rank(m.x) && m.x.state == EngineWait && n.wait < m.x.wait)
    ensures var n := Edge(aead, m, i).x;
      if m.x.state == CfgWrite then n.state in {Idle, CfgWrite} else n.state in {ReadIssue, ReadCapture, Check, EngineWait, CountLow, CountHigh, Respond}
    ensures Edge(aead, m, i).x.q == m.x.q && Edge(aead, m, i).x.cfg == m.x.cfg && Edge(aead, m, i).x.cfgSlot == m.x.cfgSlot
  {
    hide WordOf, SetWord, EngineJob;
  }

  class SessionManager {
    const aead: Aead
    var m: Core
    ghost var table: Table
    ghost var before: Table

    ghost predicate Valid()
      reads this
    {
      Inv(aead, m, table, before)
    }

    constructor (engine: Aead, power: Regs, mem: Memory)
      ensures Valid() && m.x.state == Idle && table == seq(64, _ => None) && aead == engine
    {
      aead := engine;
      m := Core(power.(state := Idle, rspValid := false), mem, seq(64, _ => false));
      table := seq(64, _ => None);
    }

    method Clock(i: In)
      requires Valid()
      modifies this
      ensures Valid() && m == Edge(aead, old(m), i)
      ensures table == NextTable(aead, old(m), i, old(table)) && before == NextBefore(old(m), old(table), old(before))
    {
      hide Inv, Edge, NextTable, NextBefore;
      InvShape(aead, m, table, before);
      InvKept(aead, m, i, table, before);
      before, table := NextBefore(m, table, before), NextTable(aead, m, i, table);
      m := Edge(aead, m, i);
    }

    /** Install or remove a session. */
    method Configure(s: Slot, valid: bool, r: Record)
      requires Valid() && m.x.state == Idle
      modifies this
      ensures Valid() && m.x.state == Idle && table == Configured(old(table), s, valid, r)
    {
      var q := Request(0, false, 0, 0, 0, 0);
      Clock(In(true, s, valid, r, false, q, false, 0));
      hide Inv, WordOf, Holds;
      while m.x.state != Idle
        invariant Valid()
        invariant m.x.state == CfgWrite ==> m.x.cfg == r && m.x.cfgSlot == s && table == old(table) && valid
        invariant m.x.state == Idle ==> table == Configured(old(table), s, valid, r)
        invariant m.x.state in {Idle, CfgWrite}
        decreases Rank(m.x)
      {
        InvShape(aead, m, table, before);
        RankDown(aead, m, In(false, 0, false, r, false, q, false, 0));
        Clock(In(false, 0, false, r, false, q, false, 0));
      }
    }

    /** Serve one request, for any engine delay. */
    method Serve(q: Request) returns (rsp: Response)
      requires Valid() && m.x.state == Idle
      modifies this
      ensures Valid() && m.x.state == Idle
      ensures rsp == ResponseTo(aead, old(table), q) && table == TableAfter(aead, old(table), q)
    {
      hide Inv, WordOf, Holds, TableAfter, ResponseTo;
      Clock(In(false, 0, false, Cleared(), true, q, false, 0));
      while m.x.state != Respond
        invariant Valid() && m.x.q == q
        invariant m.x.state in {ReadIssue, ReadCapture, Check, EngineWait, CountLow, CountHigh, Respond}
        invariant if m.x.state == Respond then before == old(table) else table == old(table)
        decreases Rank(m.x), m.x.wait
      {
        InvShape(aead, m, table, before);
        var delay: nat := *;
        RankDown(aead, m, In(false, 0, false, Cleared(), false, q, false, delay));
        Clock(In(false, 0, false, Cleared(), false, q, false, delay));
      }
      ResponseShape(aead, m, table, before);
      rsp := m.x.rsp;
      Clock(In(false, 0, false, Cleared(), false, q, true, 0));
    }
  }

  lemma InvShape(aead: Aead, m: Core, t: Table, before: Table)
    requires Inv(aead, m, t, before)
    ensures |m.valid| == 64
  {
  }

  lemma ResponseShape(aead: Aead, m: Core, t: Table, before: Table)
    requires Inv(aead, m, t, before) && m.x.state == Respond
    ensures t == TableAfter(aead, before, m.x.q) && m.x.rsp == ResponseTo(aead, before, m.x.q) && |m.valid| == 64
  {
  }
}
