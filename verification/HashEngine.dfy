/** The shared hash engine: the feeder, the sponge, and what becomes of the sponge's output. */
module HashEngine {
  import opened Bytes
  import opened Codec
  import opened Layout
  import opened Kernel
  import opened Ring
  import opened PolyRam
  import opened Sampling
  import opened HashFeeder
  import Sponge

  // ---------------------------------------------------------------- what each command leaves behind

  /** The first values of a list in place, the rest old; values past the end of the slot are dropped. */
  function Placed(was: Poly, v: seq<int>): Poly {
    seq(256, i requires 0 <= i < 256 => if i < |v| then v[i] else was[i])
  }

  function Noise(z: seq<Byte>, eta: nat, k: nat): seq<int>
    requires 2 * eta * k <= 8 * |z| && 2 <= eta <= 3
  {
    seq(k, i requires 0 <= i < k => (NoiseIndex(eta, i, k); Binomial(z, eta, i)))
  }

  lemma NoiseIndex(eta: nat, i: nat, k: nat)
    requires i < k && 2 <= eta <= 3
    ensures 2 * eta * i + 2 * eta <= 2 * eta * k
  {
    if eta == 2 { assert 4 * i + 4 <= 4 * k; } else { assert 6 * i + 6 <= 6 * k; }
  }

  /** Accepted values as words. */
  function Ints(v: seq<nat>): seq<int> { seq(|v|, i requires 0 <= i < |v| => v[i]) }

  function Digest(z: seq<Byte>, n: nat): seq<Byte>
    requires n <= |z| && n <= 72
  {
    z[..n] + seq(72 - n, _ => 0)
  }

  // ---------------------------------------------------------------- registers

  datatype State = Idle | HStart | Feeding | Final | Out | Check | W0 | W1 | NWrite | Drain | Done

  datatype Writer = Writer(outIndex: nat, byteCount: nat, coeffCount: Index, writeIndex: nat, group: Word, digest: seq<Byte>,
                           error: bool, finished: bool)

  datatype Engine = Engine(state: State, o: Operands, feed: Feed, w: Writer, skQ: Word, ctQ: Word)

  function Eta(o: Operands): nat { if o.eta3 then 3 else 2 }

  /** Bytes of a noise group and the coefficients they make. */
  function GroupBytes(o: Operands): nat { if o.eta3 then 3 else 4 }
  function GroupCoeffs(o: Operands): nat { if o.eta3 then 4 else 8 }

  function LastByte(o: Operands): nat { if o.cmd == MATRIX then 2 else GroupBytes(o) - 1 }

  function Value0(g: Word): nat { Decode12(g[0], g[1], g[2], 0) }
  function Value1(g: Word): nat { Decode12(g[0], g[1], g[2], 1) }

  function NoiseWord(o: Operands, w: Writer): int {
    if o.eta3 then Cbd3(Le(w.group[..3]), w.writeIndex) else Cbd2(Le(w.group), w.writeIndex)
  }

  predicate InRange(e: Engine) { e.w.byteCount < 4 && e.w.outIndex < 72 && |e.w.digest| == 72 }

  function SpongeIn(e: Engine, delay: nat): Sponge.In {
    Sponge.In(e.state == HStart, ModeOf(e.o.cmd), OutputLength(e.o.cmd, e.o.eta3), e.feed.feedByte, e.feed.feedValid, e.state == Final,
              e.state == Out || e.state == Drain, delay)
  }

  function RamWe(e: Engine): bool { e.state in {W0, W1, NWrite} }

  function RamData(e: Engine): int {
    if e.state == W0 then Value0(e.w.group) else if e.state == W1 then Value1(e.w.group) else NoiseWord(e.o, e.w)
  }

  /** Output state with and without a byte from the sponge. */
  function OutEdge(e: Engine, valid: bool, byte: Byte, hashDone: bool): Engine
    requires InRange(e)
  {
    var w := e.w;
    if valid then
      if e.o.cmd == MATRIX || e.o.cmd == NOISE then
        var w := w.(group := w.group[w.byteCount := byte]);
        if w.byteCount == LastByte(e.o) then
          e.(w := w.(byteCount := 0, writeIndex := 0), state := if e.o.cmd == MATRIX then Check else NWrite)
        else e.(w := w.(byteCount := (w.byteCount + 1) % 4))
      else
        var w := w.(digest := w.digest[w.outIndex := byte], outIndex := if w.outIndex < 71 then w.outIndex + 1 else w.outIndex);
        e.(w := w, state := if hashDone then Done else Out)
    else if hashDone then
      // the coefficient counter has eight bits, so its comparison with 256 always succeeds
      e.(w := w.(error := w.error || (e.o.cmd == MATRIX && w.coeffCount < 256)), state := Done)
    else e
  }

  function WriteEdge(e: Engine): Engine {
    var w := e.w;
    match e.state
    case Check => e.(state := if Value0(w.group) < 3329 then W0 else if Value1(w.group) < 3329 then W1 else Out)
    case W0 =>
      if w.coeffCount == 255 then e.(state := Drain)
      else e.(w := w.(coeffCount := w.coeffCount + 1), state := if Value1(w.group) < 3329 then W1 else Out)
    case W1 =>
      if w.coeffCount == 255 then e.(state := Drain) else e.(w := w.(coeffCount := w.coeffCount + 1), state := Out)
    case _ =>
      if w.coeffCount == 255 then e.(state := Drain)
      else
        var w := w.(coeffCount := w.coeffCount + 1);
        if w.writeIndex == GroupCoeffs(e.o) - 1 then e.(w := w.(writeIndex := 0), state := Out)
        else e.(w := w.(writeIndex := w.writeIndex + 1))
  }

  function StartEdge(e: Engine, o: Operands): Engine {
    e.(o := o, feed := FeedStart(o.cmd, e.feed),
       w := Writer(0, 0, 0, 0, [0, 0, 0, 0], seq(72, _ => 0), false, false), state := HStart)
  }

  /** Next value of every engine register. */
  function Edge(e: Engine, start: bool, o: Operands, sk: SecretKey, ct: Ciphertext, sp: Sponge.Regs): Engine
    requires InRange(e) && Sponge.InRange(sp)
  {
    var ready := sp.control == Sponge.Absorbing;
    var valid := sp.control == Sponge.Squeezing;
    var n := e.(skQ := WordAt(sk, SkByte(e.o.cmd, e.feed.fetchIndex)), ctQ := WordAt(ct, CtByte(e.o.cmd, e.feed.fetchIndex)),
                w := e.w.(finished := e.w.finished || sp.done));
    match e.state
    case Idle => if start then StartEdge(n, o) else n
    case HStart => n.(state := Feeding)
    case Feeding => n.(feed := FeedEdge(e.o, e.feed, ready, e.skQ, e.ctQ), state := if FeedDone(e.o, e.feed) then Final else Feeding)
    case Final => n.(w := n.w.(outIndex := 0, byteCount := 0, group := [0, 0, 0, 0]), state := Out)
    case Out => OutEdge(n, valid, Sponge.OutputByte(sp), sp.done)
    case Drain => if sp.done || e.w.finished then n.(state := Done) else n
    case Done => n.(state := Idle)
    case _ => WriteEdge(n)
  }

  // ---------------------------------------------------------------- the output phase

  /** Values in place after the n-th output byte, in each state of the matrix command. */
  ghost predicate MatrixOk(e: Engine, z: seq<Byte>, n: nat, slot: Poly, was: Poly)
    requires n <= |z|
  {
    var t, g := n / 3, e.w.group;
    && |z| == 1024
    && if e.state == Out then
         && e.w.byteCount == n % 3 && g[..e.w.byteCount] == z[3 * t..n]
         && e.w.coeffCount == |Accepted(z, t)| && slot == Placed(was, Ints(Accepted(z, t))) && !e.w.error
       else if e.state in {Check, W0, W1} then
         && n % 3 == 0 && t > 0 && TripleIn(e, z, t)
         && (e.state == W0 ==> Value0(g) < 3329) && (e.state == W1 ==> Value1(g) < 3329)
         && Before(e, z, t, slot, was, if e.state == W1 then Kept(Value0(g)) else [])
       else if e.state == Drain then
         |Accepted(z, t)| >= 256 && slot == Placed(was, Ints(Accepted(z, t))) && !e.w.error
       else if e.state == Done then
         slot == Placed(was, Ints(Accepted(z, 341))) && (e.w.error <==> |Accepted(z, 341)| < 256)
       else false
  }

  ghost predicate TripleIn(e: Engine, z: seq<Byte>, t: nat)
    requires 0 < t && 3 * t <= |z|
  {
    e.w.group[0] == z[3 * (t - 1)] && e.w.group[1] == z[3 * (t - 1) + 1] && e.w.group[2] == z[3 * (t - 1) + 2] && e.w.byteCount == 0
  }

  ghost predicate Before(e: Engine, z: seq<Byte>, t: nat, slot: Poly, was: Poly, more: seq<nat>)
    requires 0 < t && 3 * t <= |z|
  {
    && e.w.coeffCount == |Accepted(z, t - 1)| + |more| && !e.w.error
    && slot == Placed(was, Ints(Accepted(z, t - 1) + more))
  }

  ghost predicate NoiseOk(e: Engine, z: seq<Byte>, n: nat, slot: Poly, was: Poly)
    requires n <= |z|
  {
    var eta, per, size := Eta(e.o), GroupCoeffs(e.o), GroupBytes(e.o);
    && |z| == 64 * eta && !e.w.error
    && (if e.state == Out then
          && e.w.byteCount < size && e.w.coeffCount % per == 0 && n == e.w.coeffCount / per * size + e.w.byteCount
          && (forall i :: 0 <= i < e.w.byteCount ==> e.w.group[i] == z[n - e.w.byteCount + i])
          && slot == Placed(was, Noise(z, eta, e.w.coeffCount))
        else if e.state == NWrite then
          && e.w.writeIndex == e.w.coeffCount % per && n == (e.w.coeffCount / per + 1) * size && e.w.byteCount == 0
          && (forall i :: 0 <= i < size ==> e.w.group[i] == z[n - size + i])
          && slot == Placed(was, Noise(z, eta, e.w.coeffCount))
        else e.state in {Drain, Done} && n == |z| && slot == Placed(was, Noise(z, eta, 256)))
  }

  ghost predicate DigestOk(e: Engine, z: seq<Byte>, n: nat, slot: Poly, was: Poly)
    requires n <= |z|
  {
    && |z| <= 72 && !e.w.error && slot == was
    && e.w.outIndex == (if n < 71 then n else 71) && e.w.digest == Digest(z, n)
    && (e.state == Out || (e.state == Done && n == |z|))
  }

  ghost predicate OutputOk(e: Engine, z: seq<Byte>, n: nat, slot: Poly, was: Poly) {
    && n <= |z|
    && (if e.o.cmd == MATRIX then MatrixOk(e, z, n, slot, was)
        else if e.o.cmd == NOISE then NoiseOk(e, z, n, slot, was)
        else DigestOk(e, z, n, slot, was))
  }

  // ---------------------------------------------------------------- one output clock

  lemma PlacedNext(was: Poly, v: seq<int>, x: int)
    requires |v| < 256
    ensures Placed(was, v)[|v| := x] == Placed(was, v + [x])
  {
  }

  lemma IntsAppend(v: seq<nat>, x: nat)
    ensures Ints(v + [x]) == Ints(v) + [x]
  {
  }

  lemma AcceptedStep(z: seq<Byte>, t: nat, g: Word)
    requires 0 < t && 3 * t <= |z|
    requires g[0] == z[3 * (t - 1)] && g[1] == z[3 * (t - 1) + 1] && g[2] == z[3 * (t - 1) + 2]
    ensures Accepted(z, t) == Accepted(z, t - 1) + Kept(Value0(g)) + Kept(Value1(g))
  {
  }

  /** The matrix command takes one more byte. */
  lemma MatrixByte(e: Engine, z: seq<Byte>, n: nat, slot: Poly, was: Poly)
    requires InRange(e) && n < |z| && e.o.cmd == MATRIX && e.state == Out && MatrixOk(e, z, n, slot, was)
    ensures MatrixOk(OutEdge(e, true, z[n], false), z, n + 1, slot, was)
  {
    hide Accepted, Placed;
    var t := n / 3;
    assert n == 3 * t + n % 3;
    forall i: nat | i < e.w.byteCount ensures e.w.group[i] == z[3 * t + i] {
      assert e.w.group[..e.w.byteCount][i] == z[3 * t..n][i];
    }
    assert Accepted(z, t) + [] == Accepted(z, t);
    if n % 3 == 2 {
      assert (n + 1) / 3 == t + 1 && (n + 1) % 3 == 0;
    } else {
      assert (n + 1) / 3 == t && (n + 1) % 3 == n % 3 + 1;
      var g := e.w.group[e.w.byteCount := z[n]];
      assert g[..n % 3 + 1] == z[3 * t..n + 1];
    }
  }

  /** ... and writes at most one accepted value. */
  lemma MatrixWrite(e: Engine, z: seq<Byte>, n: nat, slot: Poly, was: Poly)
    requires n <= |z| && e.o.cmd == MATRIX && e.state in {Check, W0, W1} && MatrixOk(e, z, n, slot, was)
    ensures MatrixOk(WriteEdge(e), z, n, if e.state == Check then slot else slot[e.w.coeffCount := RamData(e)], was)
  {
    hide Accepted, Placed, Ints;
    var t, g := n / 3, e.w.group;
    AcceptedStep(z, t, g);
    var a, b, c := Accepted(z, t - 1), Kept(Value0(g)), Kept(Value1(g));
    var v := a + (if e.state == W1 then b else []);
    assert a + [] == a && a + b + [] == a + b && a + [] + c == a + c;
    if e.state != Check {
      var x := if e.state == W0 then Value0(g) else Value1(g);
      IntsLength(v);
      IntsAppend(v, x);
      PlacedNext(was, Ints(v), x);
      if e.w.coeffCount == 255 { PlacedFull(was, v + [x], Accepted(z, t)); }
    }
    assert g[..0] == z[n..n];
  }

  lemma IntsLength(v: seq<nat>)
    ensures |Ints(v)| == |v|
  {
  }

  /** Once the slot is full, later values change nothing. */
  lemma PlacedFull(was: Poly, v: seq<nat>, v': seq<nat>)
    requires |v| >= 256 && v <= v'
    ensures Placed(was, Ints(v)) == Placed(was, Ints(v'))
  {
  }

  /** The matrix command ends: an error exactly when 341 triples held too few values. */
  lemma MatrixEnd(e: Engine, z: seq<Byte>, n: nat, slot: Poly, was: Poly, w: Writer)
    requires InRange(e) && n <= |z| && e.o.cmd == MATRIX && MatrixOk(e, z, n, slot, was)
    requires w == e.w.(finished := w.finished)
    ensures e.state == Out && n == |z| ==> MatrixOk(OutEdge(e.(w := w), false, 0, true), z, n, slot, was)
    ensures e.state == Drain && n == |z| ==> MatrixOk(e.(w := w, state := Done), z, n, slot, was)
    ensures e.state == Drain && n < |z| ==> MatrixOk(e.(w := w), z, n + 1, slot, was)
  {
    hide Accepted, Placed, Ints;
    if e.state == Drain {
      if n < |z| {
        assert n / 3 <= (n + 1) / 3;
        Later(z, n / 3, (n + 1) / 3, was);
      }
      Later(z, n / 3, 341, was);
    }
  }

  lemma Later(z: seq<Byte>, s: nat, t: nat, was: Poly)
    requires s <= t && 3 * t <= |z| && |Accepted(z, s)| >= 256
    ensures |Accepted(z, t)| >= 256 && Placed(was, Ints(Accepted(z, t))) == Placed(was, Ints(Accepted(z, s)))
  {
    hide Accepted, Placed, Ints;
    AcceptedGrows(z, s, t);
    PlacedFull(was, Accepted(z, s), Accepted(z, t));
  }

  lemma NoiseByte(e: Engine, z: seq<Byte>, n: nat, slot: Poly, was: Poly)
    requires InRange(e) && n < |z| && e.o.cmd == NOISE && e.state == Out && NoiseOk(e, z, n, slot, was)
    ensures NoiseOk(OutEdge(e, true, z[n], false), z, n + 1, slot, was)
  {
    hide Noise, Placed;
    var g := e.w.group[e.w.byteCount := z[n]];
    assert forall i :: 0 <= i <= e.w.byteCount ==> g[i] == z[n + 1 - (e.w.byteCount + 1) + i];
  }

  lemma NoiseValue(o: Operands, w: Writer, z: seq<Byte>, n: nat)
    requires |z| == 64 * Eta(o) && w.writeIndex == w.coeffCount % GroupCoeffs(o) && n == (w.coeffCount / GroupCoeffs(o) + 1) * GroupBytes(o)
    requires n <= |z| && forall i :: 0 <= i < GroupBytes(o) ==> w.group[i] == z[n - GroupBytes(o) + i]
    ensures 2 * Eta(o) * w.coeffCount + 2 * Eta(o) <= 8 * |z| && NoiseWord(o, w) == Binomial(z, Eta(o), w.coeffCount)
  {
    hide Cbd2, Cbd3, Binomial, Le;
    var g := w.coeffCount / GroupCoeffs(o);
    if o.eta3 {
      assert w.group[..3] == z[3 * g..3 * g + 3];
      Cbd3IsBinomial(z, g, w.writeIndex);
    } else {
      assert w.group == z[4 * g..4 * g + 4];
      Cbd2IsBinomial(z, g, w.writeIndex);
    }
  }

  lemma NoiseNext(z: seq<Byte>, eta: nat, k: nat)
    requires 2 <= eta <= 3 && k < 256 && |z| == 64 * eta
    ensures Noise(z, eta, k + 1) == Noise(z, eta, k) + [Binomial(z, eta, k)]
  {
    hide Binomial;
  }

  lemma NoiseWrite(e: Engine, z: seq<Byte>, n: nat, slot: Poly, was: Poly)
    requires n <= |z| && e.o.cmd == NOISE && e.state == NWrite && NoiseOk(e, z, n, slot, was)
    ensures NoiseOk(WriteEdge(e), z, n, slot[e.w.coeffCount := RamData(e)], was)
  {
    hide Noise, Placed, NoiseWord, Binomial;
    NoiseValue(e.o, e.w, z, n);
    var k := e.w.coeffCount;
    NoiseNext(z, Eta(e.o), k);
    NoiseSize(z, Eta(e.o), k);
    PlacedNext(was, Noise(z, Eta(e.o), k), NoiseWord(e.o, e.w));
    if e.o.eta3 { assert k % 4 < 3 ==> (k + 1) / 4 == k / 4 && (k + 1) % 4 == k % 4 + 1; } else {
      assert k % 8 < 7 ==> (k + 1) / 8 == k / 8 && (k + 1) % 8 == k % 8 + 1;
    }
  }

  lemma NoiseSize(z: seq<Byte>, eta: nat, k: nat)
    requires 2 <= eta <= 3 && 2 * eta * k <= 8 * |z|
    ensures |Noise(z, eta, k)| == k
  {
  }

  lemma DigestByte(e: Engine, z: seq<Byte>, n: nat, slot: Poly, was: Poly)
    requires InRange(e) && n < |z| && e.state == Out && e.o.cmd != MATRIX && e.o.cmd != NOISE && DigestOk(e, z, n, slot, was)
    ensures DigestOk(OutEdge(e, true, z[n], false), z, n + 1, slot, was)
  {
    assert Digest(z, n)[n := z[n]] == Digest(z, n + 1);
  }

  // ---------------------------------------------------------------- the sponge during output

  lemma SpongeOutput(f: Sponge.Permutation, sp: Sponge.Regs, i: Sponge.In, j: Sponge.Job, z: seq<Byte>)
    requires Sponge.Inv(f, sp, j) && i.Ok() && sp.control in {Sponge.PadFinal, Sponge.PermFinal, Sponge.Squeezing, Sponge.PermSqueeze}
    requires j.length > 0 && z == Sponge.Hash(f, j.mode, j.absorbed, j.length)
    ensures var sp', j' := Sponge.Edge(f, sp, i), Sponge.NextJob(sp, i, j); var n := |j.emitted|;
      && Sponge.Inv(f, sp', j') && j' == j.(emitted := j'.emitted)
      && sp'.control in {Sponge.PermFinal, Sponge.Squeezing, Sponge.PermSqueeze, Sponge.Idle}
      && n < |z| == j.length
      && (if sp.control == Sponge.Squeezing && i.ready then |j'.emitted| == n + 1 && Sponge.OutputByte(sp) == z[n] else j'.emitted == j.emitted)
      && (sp'.control == Sponge.Idle <==> |j'.emitted| == |z|) && (sp'.done <==> sp'.control == Sponge.Idle)
  {
    hide Sponge.Seed, Sponge.Fed, Sponge.XorAt, Sponge.Squeeze, Sponge.Mod, Sponge.Div;
    Sponge.EdgeKeeps(f, sp, i, j);
    var sp', j' := Sponge.Edge(f, sp, i), Sponge.NextJob(sp, i, j);
    var n := |j.emitted|;
    if sp.control == Sponge.Squeezing && i.ready {
      assert j'.emitted == z[..n + 1];
      assert j'.emitted[n] == z[n];
    }
  }

  /** Rank of a sponge on its way to the next output byte. */
  function Stage(sp: Sponge.Regs): nat {
    if sp.control == Sponge.PadFinal then 2 else if sp.control == Sponge.PermFinal || sp.control == Sponge.PermSqueeze then 1 else 0
  }

  function WriteRank(e: Engine): nat {
    match e.state
    case Check => 3
    case W0 => 2
    case W1 => 1
    case NWrite => if e.w.writeIndex <= 9 then 10 - e.w.writeIndex else 0
    case _ => 0
  }

  ghost predicate OutPhase(f: Sponge.Permutation, e: Engine, sp: Sponge.Regs, j: Sponge.Job, z: seq<Byte>, slot: Poly, was: Poly,
                           sk: SecretKey, ct: Ciphertext) {
    && InRange(e) && Sponge.Inv(f, sp, j) && !e.feed.feedValid
    && j.mode == ModeOf(e.o.cmd) && j.length == OutputLength(e.o.cmd, e.o.eta3) == |z| && j.absorbed == Input(e.o, sk, ct)
    && z == Sponge.Hash(f, j.mode, j.absorbed, j.length)
    && e.state in {Out, Check, W0, W1, NWrite, Drain, Done}
    && sp.control !in {Sponge.Absorbing, Sponge.PermAbsorb}
    && OutputOk(e, z, |j.emitted|, slot, was)
    && (if sp.control == Sponge.Idle then
          && |j.emitted| == |z|
          && (if e.state == Done then !sp.done else sp.done == !e.w.finished) && (e.state == Out ==> sp.done)
        else !e.w.finished && !sp.done && e.state != Done)
  }

  lemma OutputLonger(c: Command, eta3: bool)
    ensures 32 <= OutputLength(c, eta3) < 65536
  {
  }

  /** The memory words and the latched done pulse mean nothing to the writer. */
  lemma Latched(e: Engine, d: Engine, z: seq<Byte>, n: nat, slot: Poly, was: Poly)
    requires OutputOk(e, z, n, slot, was) && d.state == e.state && d.o == e.o && d.w == e.w.(finished := d.w.finished)
    ensures OutputOk(d, z, n, slot, was) && RamData(d) == RamData(e) && d.w.coeffCount == e.w.coeffCount
  {
    hide Accepted, Placed, Ints, Noise, Digest, Cbd2, Cbd3, Le;
  }

  lemma TakesByte(e: Engine, z: seq<Byte>, n: nat, slot: Poly, was: Poly)
    requires InRange(e) && OutputOk(e, z, n, slot, was) && n < |z| && e.state == Out
    ensures OutputOk(OutEdge(e, true, z[n], false), z, n + 1, slot, was) && InRange(OutEdge(e, true, z[n], false))
  {
    hide MatrixOk, NoiseOk, DigestOk;
    if e.o.cmd == MATRIX { MatrixByte(e, z, n, slot, was); }
    else if e.o.cmd == NOISE { NoiseByte(e, z, n, slot, was); }
    else { DigestByte(e, z, n, slot, was); }
  }

  lemma Writes(e: Engine, z: seq<Byte>, n: nat, slot: Poly, was: Poly)
    requires OutputOk(e, z, n, slot, was) && e.state in {Check, W0, W1, NWrite}
    ensures OutputOk(WriteEdge(e), z, n, if e.state == Check then slot else slot[e.w.coeffCount := RamData(e)], was)
    ensures WriteRank(WriteEdge(e)) < WriteRank(e) && WriteEdge(e).w.finished == e.w.finished
    ensures WriteEdge(e).state == Out ==> n < |z|
    ensures (e.state == NWrite <==> e.o.cmd == NOISE) && WriteEdge(e).state in {Out, W0, W1, NWrite, Drain}
  {
    hide Accepted, Placed, Ints, Noise, NoiseWord, Digest;
    if e.o.cmd == MATRIX { MatrixWrite(e, z, n, slot, was); } else { NoiseRoom(e, z, n, slot, was); NoiseWrite(e, z, n, slot, was); }
  }

  lemma NoiseRoom(e: Engine, z: seq<Byte>, n: nat, slot: Poly, was: Poly)
    requires OutputOk(e, z, n, slot, was) && e.state in {Check, W0, W1, NWrite} && e.o.cmd != MATRIX
    ensures e.o.cmd == NOISE && e.state == NWrite && e.w.writeIndex < GroupCoeffs(e.o)
    ensures WriteEdge(e).state == Out ==> n < |z|
  {
    hide Placed, Noise, Digest;
  }

  /** With the whole stream taken, a drained or waiting writer is done. */
  lemma Ends(e: Engine, z: seq<Byte>, slot: Poly, was: Poly)
    requires InRange(e) && OutputOk(e, z, |z|, slot, was)
    ensures e.state == Out ==> OutputOk(OutEdge(e, false, 0, true), z, |z|, slot, was) && InRange(OutEdge(e, false, 0, true))
    ensures e.state == Drain ==> OutputOk(e.(state := Done), z, |z|, slot, was)
    ensures e.o.cmd == MATRIX ==> e.state !in {Check, W0, W1}
  {
    hide Accepted, Placed, Ints, Noise;
    if e.o.cmd == MATRIX { MatrixEnd(e, z, |z|, slot, was, e.w); }
  }

  /** A full slot ignores the bytes that are still drained. */
  lemma Drains(e: Engine, z: seq<Byte>, n: nat, slot: Poly, was: Poly)
    requires InRange(e) && OutputOk(e, z, n, slot, was) && e.state == Drain && n < |z|
    ensures OutputOk(e, z, n + 1, slot, was)
  {
    hide Accepted, Placed, Ints, Noise;
    if e.o.cmd == MATRIX { MatrixEnd(e, z, n, slot, was, e.w); }
  }

  /** One clock of the output phase with the sponge still emitting. */
  lemma EmittingStep(f: Sponge.Permutation, e: Engine, sp: Sponge.Regs, j: Sponge.Job, z: seq<Byte>, slot: Poly, was: Poly,
                     sk: SecretKey, ct: Ciphertext, delay: nat, o: Operands)
    requires OutPhase(f, e, sp, j, z, slot, was, sk, ct) && sp.control != Sponge.Idle
    ensures OutPhase(f, Edge(e, false, o, sk, ct, sp), Sponge.Edge(f, sp, SpongeIn(e, delay)), Sponge.NextJob(sp, SpongeIn(e, delay), j), z,
                     if RamWe(e) then slot[e.w.coeffCount := RamData(e)] else slot, was, sk, ct)
  {
    hide Sponge.Inv, Sponge.Edge, OutputOk, OutEdge, WriteEdge, RamData, Sponge.Hash, Input, FeedEdge, WordAt, WriteRank, Sponge.OutputByte;
    var i := SpongeIn(e, delay);
    OutputLonger(e.o.cmd, e.o.eta3);
    InputOkNow(f, sp, j);
    SpongeOutput(f, sp, i, j, z);
    var n := |j.emitted|;
    var d := e.(skQ := WordAt(sk, SkByte(e.o.cmd, e.feed.fetchIndex)), ctQ := WordAt(ct, CtByte(e.o.cmd, e.feed.fetchIndex)));
    assert d.w == e.w.(finished := e.w.finished || sp.done);
    Latched(e, d, z, n, slot, was);
    if e.state == Out {
      if sp.control == Sponge.Squeezing { TakesByte(d, z, n, slot, was); OutStates(d, z[n]); } else { Waits(d, Sponge.OutputByte(sp)); }
    } else if e.state == Drain {
      if sp.control == Sponge.Squeezing { Drains(d, z, n, slot, was); }
    } else {
      Writes(d, z, n, slot, was);
      WriteRegs(d);
    }
  }

  lemma InputOkNow(f: Sponge.Permutation, sp: Sponge.Regs, j: Sponge.Job)
    requires Sponge.Inv(f, sp, j)
    ensures Sponge.InRange(sp)
  {
  }

  lemma Waits(e: Engine, byte: Byte)
    requires InRange(e)
    ensures OutEdge(e, false, byte, false) == e
  {
  }

  lemma OutStates(e: Engine, byte: Byte)
    requires InRange(e) && e.state == Out
    ensures var n := OutEdge(e, true, byte, false);
      n.state in {Out, Check, NWrite} && n.o == e.o && n.feed == e.feed && n.w.finished == e.w.finished
  {
  }

  lemma WriteRegs(e: Engine)
    requires InRange(e)
    ensures InRange(WriteEdge(e)) && WriteEdge(e).o == e.o && WriteEdge(e).feed == e.feed
  {
  }

  /** One clock of the output phase after the sponge has emitted everything. */
  lemma EmittedStep(f: Sponge.Permutation, e: Engine, sp: Sponge.Regs, j: Sponge.Job, z: seq<Byte>, slot: Poly, was: Poly,
                    sk: SecretKey, ct: Ciphertext, delay: nat, o: Operands)
    requires OutPhase(f, e, sp, j, z, slot, was, sk, ct) && sp.control == Sponge.Idle && e.state != Done
    ensures OutPhase(f, Edge(e, false, o, sk, ct, sp), Sponge.Edge(f, sp, SpongeIn(e, delay)), Sponge.NextJob(sp, SpongeIn(e, delay), j), z,
                     if RamWe(e) then slot[e.w.coeffCount := RamData(e)] else slot, was, sk, ct)
    ensures e.state in {Out, Drain} ==> Edge(e, false, o, sk, ct, sp).state == Done
  {
    hide OutputOk, OutEdge, WriteEdge, RamData, Sponge.Hash, Input, FeedEdge, WordAt, WriteRank, Sponge.OutputByte;
    var d := e.(skQ := WordAt(sk, SkByte(e.o.cmd, e.feed.fetchIndex)), ctQ := WordAt(ct, CtByte(e.o.cmd, e.feed.fetchIndex)),
                w := e.w.(finished := e.w.finished || sp.done));
    Latched(e, d, z, |z|, slot, was);
    Ends(d, z, slot, was);
    EndsAnyByte(d, Sponge.OutputByte(sp));
    if e.state !in {Out, Drain} { Writes(d, z, |z|, slot, was); WriteRegs(d); }
  }

  lemma EndsAnyByte(e: Engine, byte: Byte)
    requires InRange(e)
    ensures OutEdge(e, false, byte, true) == OutEdge(e, false, 0, true) && OutEdge(e, false, byte, true).state == Done
    ensures OutEdge(e, false, byte, true).o == e.o && OutEdge(e, false, byte, true).feed == e.feed
    ensures OutEdge(e, false, byte, true).w.finished == e.w.finished
  {
  }

  // ---------------------------------------------------------------- the feeding phase

  function Stream(f: Sponge.Permutation, o: Operands, sk: SecretKey, ct: Ciphertext): (z: seq<Byte>)
    ensures |z| == OutputLength(o.cmd, o.eta3)
  {
    Sponge.Hash(f, ModeOf(o.cmd), Input(o, sk, ct), OutputLength(o.cmd, o.eta3))
  }

  /** Characters as bytes. */
  function Ascii(s: string): seq<Byte>
    requires forall i :: 0 <= i < |s| ==> s[i] as int < 256
  {
    seq(|s|, i requires 0 <= i < |s| => s[i] as int)
  }

  /** The seven commands, with their numbers on the command port: H(ek), G, J, the matrix expansion, the
      noise, the transcript hash and the key derivation, as SHA3-256, SHA3-512, SHAKE256, SHAKE128,
      SHAKE256, SHA3-256 and SHAKE256.  The unused number 7 hashes as the key derivation's input. */
  lemma CommandHashes(f: Sponge.Permutation, o: Operands, sk: SecretKey, ct: Ciphertext)
    ensures o.cmd == 0 ==> Stream(f, o, sk, ct) == Sponge.Hash(f, 0, sk[768..1568], 32)
    ensures o.cmd == 1 ==> Stream(f, o, sk, ct) == Sponge.Hash(f, 1, o.d0 + o.d1, 64)
    ensures o.cmd == 2 ==> Stream(f, o, sk, ct) == Sponge.Hash(f, 3, o.d0 + ct, 32)
    ensures o.cmd == 3 ==> Stream(f, o, sk, ct) == Sponge.Hash(f, 2, o.d0 + [o.x, o.y], 1024)
    ensures o.cmd == 4 ==> Stream(f, o, sk, ct) == Sponge.Hash(f, 3, o.d0 + [o.nonce], if o.eta3 then 192 else 128)
    ensures o.cmd == 5 ==> Stream(f, o, sk, ct) == Sponge.Hash(f, 0, sk[768..1568] + ct + o.sid, 32)
    ensures o.cmd == 6 ==> Stream(f, o, sk, ct) == Sponge.Hash(f, 3, Ascii("ZYNQ-PQC-v1") + o.d0 + o.d1, 72)
    ensures o.cmd == 7 ==> Stream(f, o, sk, ct) == Sponge.Hash(f, 0, Ascii("ZYNQ-PQC-v1") + o.d0 + o.d1, 32)
  {
    hide Sponge.Hash;
    DomainText();
  }

  lemma DomainText()
    ensures Domain() == Ascii("ZYNQ-PQC-v1")
  {
    var s := "ZYNQ-PQC-v1";
    assert s == ['Z', 'Y', 'N', 'Q', '-', 'P', 'Q', 'C', '-', 'v', '1'];
  }

  predicate FreshWriter(w: Writer) {
    w.outIndex == 0 && w.byteCount == 0 && w.coeffCount == 0 && !w.error && !w.finished && w.digest == seq(72, _ => 0)
  }

  ghost predicate FeedPhase(f: Sponge.Permutation, e: Engine, sp: Sponge.Regs, j: Sponge.Job, sk: SecretKey, ct: Ciphertext) {
    && Sponge.Inv(f, sp, j) && FreshWriter(e.w) && e.state == Feeding
    && (sp.control == Sponge.Absorbing || sp.control == Sponge.PermAbsorb)
    && j.mode == ModeOf(e.o.cmd) && j.length == OutputLength(e.o.cmd, e.o.eta3)
    && FeedOk(e.o, e.feed, sk, ct, e.skQ, e.ctQ, j.absorbed)
  }

  /** The finalize pulse is up: the sponge is in its absorb state and has the whole input. */
  ghost predicate FinalPhase(f: Sponge.Permutation, e: Engine, sp: Sponge.Regs, j: Sponge.Job, sk: SecretKey, ct: Ciphertext) {
    && Sponge.Inv(f, sp, j) && FreshWriter(e.w) && e.state == Final && sp.control == Sponge.Absorbing && !e.feed.feedValid
    && j.mode == ModeOf(e.o.cmd) && j.length == OutputLength(e.o.cmd, e.o.eta3) && j.absorbed == Input(e.o, sk, ct)
  }

  lemma SpongeAbsorbs(f: Sponge.Permutation, sp: Sponge.Regs, i: Sponge.In, j: Sponge.Job)
    requires Sponge.Inv(f, sp, j) && i.Ok() && (sp.control == Sponge.Absorbing || sp.control == Sponge.PermAbsorb) && !i.finalize
    ensures var sp', j' := Sponge.Edge(f, sp, i), Sponge.NextJob(sp, i, j); var taken := sp.control == Sponge.Absorbing && i.valid;
      && Sponge.Inv(f, sp', j') && !sp.done && !sp'.done
      && (sp'.control == Sponge.Absorbing || sp'.control == Sponge.PermAbsorb)
      && j' == j.(absorbed := j.absorbed + (if taken then [i.byte] else []))
      && (sp.control == Sponge.Absorbing && !i.valid ==> sp'.control == Sponge.Absorbing)
      && (sp.control == Sponge.PermAbsorb ==> Sponge.Mod(|j.absorbed|, Sponge.Rate(j.mode)) == 0)
      && (sp.control == Sponge.PermAbsorb && sp'.control == Sponge.PermAbsorb ==> sp'.perm == sp.perm - 1)
  {
    hide Sponge.Seed, Sponge.Fed, Sponge.XorAt, Sponge.Squeeze, Sponge.Mod, Sponge.Div, Sponge.Hash;
    Sponge.EdgeKeeps(f, sp, i, j);
    assert j.absorbed + [] == j.absorbed;
  }

  /** One feeding clock.  The sponge sees the next input byte or none, and when the index reaches
      the end with an empty skid the sponge cannot be permuting. */
  lemma FeedStep(f: Sponge.Permutation, e: Engine, sp: Sponge.Regs, j: Sponge.Job, sk: SecretKey, ct: Ciphertext, delay: nat, o: Operands)
    requires FeedPhase(f, e, sp, j, sk, ct)
    ensures var e', sp', j' := Edge(e, false, o, sk, ct, sp), Sponge.Edge(f, sp, SpongeIn(e, delay)), Sponge.NextJob(sp, SpongeIn(e, delay), j);
      if FeedDone(e.o, e.feed) then FinalPhase(f, e', sp', j', sk, ct) else FeedPhase(f, e', sp', j', sk, ct)
  {
    hide Sponge.Inv, Sponge.Edge, Sponge.NextJob, FeedEdge, FeedOk, Input, WordAt, Sponge.Mod;
    var i := SpongeIn(e, delay);
    OutputLonger(e.o.cmd, e.o.eta3);
    InputOkNow(f, sp, j);
    SpongeAbsorbs(f, sp, i, j);
    var ready := sp.control == Sponge.Absorbing;
    FeedKept(e.o, e.feed, ready, sk, ct, e.skQ, e.ctQ, j.absorbed);
    FeedComplete(e.o, e.feed, sk, ct, e.skQ, e.ctQ, j.absorbed);
    if FeedDone(e.o, e.feed) {
      InputSize(e.o, sk, ct);
      LastBlockNeverFull(e.o.cmd);
      DoneStaysDone(e.o, e.feed, ready, e.skQ, e.ctQ);
    }
  }

  lemma DoneStaysDone(o: Operands, s: Feed, ready: bool, skQ: Word, ctQ: Word)
    requires FeedDone(o, s)
    ensures !FeedEdge(o, s, ready, skQ, ctQ).feedValid
  {
  }

  /** The finalize pulse is heard and the output phase begins with nothing emitted. */
  lemma FinalStep(f: Sponge.Permutation, e: Engine, sp: Sponge.Regs, j: Sponge.Job, sk: SecretKey, ct: Ciphertext, delay: nat, o: Operands, was: Poly)
    requires FinalPhase(f, e, sp, j, sk, ct)
    ensures OutPhase(f, Edge(e, false, o, sk, ct, sp), Sponge.Edge(f, sp, SpongeIn(e, delay)), Sponge.NextJob(sp, SpongeIn(e, delay), j),
                     Stream(f, e.o, sk, ct), was, was, sk, ct)
  {
    hide Sponge.Seed, Sponge.Fed, Sponge.XorAt, Sponge.Squeeze, Sponge.Mod, Sponge.Div, Sponge.Hash, Input, WordAt, OutputOk, FeedEdge;
    OutputLonger(e.o.cmd, e.o.eta3);
    Sponge.EdgeKeeps(f, sp, SpongeIn(e, delay), j);
    Nothing(Edge(e, false, o, sk, ct, sp), Stream(f, e.o, sk, ct), was);
  }

  lemma Nothing(e: Engine, z: seq<Byte>, was: Poly)
    requires FreshWriter(e.w) && e.state == Out && |z| == OutputLength(e.o.cmd, e.o.eta3)
    ensures OutputOk(e, z, 0, was, was)
  {
    hide Noise, Accepted, Ints, Placed, Digest;
    PlacedNothing(was, z, Eta(e.o));
    assert e.w.group[..0] == z[0..0];
  }

  lemma PlacedNothing(was: Poly, z: seq<Byte>, eta: nat)
    requires 2 <= eta <= 3 && |z| >= 32
    ensures Accepted(z, 0) == [] && Ints([]) == [] && Placed(was, Ints([])) == was
    ensures Placed(was, Noise(z, eta, 0)) == was
    ensures Digest(z, 0) == seq(72, _ => 0)
  {
    assert Placed(was, []) == was;
    assert Noise(z, eta, 0) == [];
  }

  // ---------------------------------------------------------------- all phases

  ghost predicate Inv(f: Sponge.Permutation, e: Engine, sp: Sponge.Regs, j: Sponge.Job, slots: Slots, was: Slots, sk: SecretKey, ct: Ciphertext) {
    && InRange(e) && Sponge.InRange(sp)
    && match e.state
       case Idle => sp.control == Sponge.Idle && !sp.done && !e.feed.feedValid
       case HStart =>
         sp.control == Sponge.Idle && !sp.done && FreshWriter(e.w) && e.feed == FeedStart(e.o.cmd, e.feed) && slots == was
       case Feeding => FeedPhase(f, e, sp, j, sk, ct) && slots == was
       case Final => FinalPhase(f, e, sp, j, sk, ct) && slots == was
       case _ =>
         && OutPhase(f, e, sp, j, Stream(f, e.o, sk, ct), slots[e.o.slot], was[e.o.slot], sk, ct)
         && slots == was[e.o.slot := slots[e.o.slot]]
  }

  function RamNext(e: Engine, ram: Ram): Ram {
    RamEdgeAt(ram, RamWe(e), e.o.slot, e.w.coeffCount, RamData(e));
    RamEdge(ram, RamWe(e), Address(e.o.slot, e.w.coeffCount), RamData(e))
  }

  lemma RamNextSlots(e: Engine, ram: Ram)
    ensures RamNext(e, ram).slots == if RamWe(e) then ram.slots[e.o.slot := ram.slots[e.o.slot][e.w.coeffCount := RamData(e)]] else ram.slots
  {
    hide RamEdge, RamData;
    RamEdgeAt(ram, RamWe(e), e.o.slot, e.w.coeffCount, RamData(e));
  }

  lemma OutKept(f: Sponge.Permutation, e: Engine, sp: Sponge.Regs, j: Sponge.Job, ram: Ram, was: Slots, sk: SecretKey, ct: Ciphertext,
                delay: nat, o: Operands)
    requires Inv(f, e, sp, j, ram.slots, was, sk, ct) && e.state in {Out, Check, W0, W1, NWrite, Drain}
    ensures Inv(f, Edge(e, false, o, sk, ct, sp), Sponge.Edge(f, sp, SpongeIn(e, delay)), Sponge.NextJob(sp, SpongeIn(e, delay), j),
                RamNext(e, ram).slots, was, sk, ct)
    ensures Edge(e, false, o, sk, ct, sp).o == e.o
    ensures Edge(e, false, o, sk, ct, sp).state in {Out, Check, W0, W1, NWrite, Drain, Done}
  {
    hide OutPhase, Edge, Sponge.Edge, Sponge.NextJob, RamNext, RamData, FeedPhase, FinalPhase, Stream;
    RamNextSlots(e, ram);
    var z := Stream(f, e.o, sk, ct);
    if sp.control == Sponge.Idle {
      EmittedStep(f, e, sp, j, z, ram.slots[e.o.slot], was[e.o.slot], sk, ct, delay, o);
    } else {
      EmittingStep(f, e, sp, j, z, ram.slots[e.o.slot], was[e.o.slot], sk, ct, delay, o);
    }
    OutputEdge(e, o, sk, ct, sp);
    OutputRange(f, Edge(e, false, o, sk, ct, sp), Sponge.Edge(f, sp, SpongeIn(e, delay)), Sponge.NextJob(sp, SpongeIn(e, delay), j),
                z, RamNext(e, ram).slots[e.o.slot], was[e.o.slot], sk, ct);
  }

  lemma OutputRange(f: Sponge.Permutation, e: Engine, sp: Sponge.Regs, j: Sponge.Job, z: seq<Byte>, slot: Poly, was: Poly, sk: SecretKey, ct: Ciphertext)
    requires OutPhase(f, e, sp, j, z, slot, was, sk, ct)
    ensures InRange(e) && Sponge.InRange(sp) && e.state in {Out, Check, W0, W1, NWrite, Drain, Done}
  {
    hide OutputOk, Sponge.Hash, Input;
  }

  lemma OutputEdge(e: Engine, o: Operands, sk: SecretKey, ct: Ciphertext, sp: Sponge.Regs)
    requires InRange(e) && Sponge.InRange(sp) && e.state in {Out, Check, W0, W1, NWrite, Drain}
    ensures Edge(e, false, o, sk, ct, sp).o == e.o
  {
    hide WordAt;
  }

  // ---------------------------------------------------------------- progress

  /** Phase, bytes to come, then whatever delays the next byte. */
  datatype Work = Work(phase: nat, bytes: nat, local: nat, stage: nat, perm: nat)

  ghost function WorkOf(e: Engine, sp: Sponge.Regs, j: Sponge.Job): Work {
    match e.state
    case Idle => Work(0, 0, 0, 0, 0)
    case Done => Work(1, 0, 0, 0, 0)
    case HStart => Work(5, 0, 0, 0, 0)
    case Feeding =>
      Work(4, if |j.absorbed| <= 2000 then 2000 - |j.absorbed| else 0, 0,
           if sp.control == Sponge.PermAbsorb then sp.perm + 1 else 0, FeedRank(e.o, e.feed))
    case Final => Work(3, 0, 0, 0, 0)
    case _ => Work(2, if |j.emitted| <= 2000 then 2000 - |j.emitted| else 0, WriteRank(e), Stage(sp), sp.perm)
  }

  ghost predicate Smaller(a: Work, b: Work) {
    || a.phase < b.phase
    || (a.phase == b.phase &&
        (|| a.bytes < b.bytes
         || (a.bytes == b.bytes &&
             (|| a.local < b.local
              || (a.local == b.local && (a.stage < b.stage || (a.stage == b.stage && a.perm < b.perm)))))))
  }

  lemma FeedWork(f: Sponge.Permutation, e: Engine, sp: Sponge.Regs, j: Sponge.Job, sk: SecretKey, ct: Ciphertext, delay: nat, o: Operands)
    requires FeedPhase(f, e, sp, j, sk, ct)
    ensures Smaller(WorkOf(Edge(e, false, o, sk, ct, sp), Sponge.Edge(f, sp, SpongeIn(e, delay)), Sponge.NextJob(sp, SpongeIn(e, delay), j)),
                    WorkOf(e, sp, j))
  {
    hide Sponge.Inv, Sponge.Edge, Sponge.NextJob, FeedEdge, FeedOk, Input, WordAt, Sponge.Mod, FeedRank;
    OutputLonger(e.o.cmd, e.o.eta3);
    InputOkNow(f, sp, j);
    SpongeAbsorbs(f, sp, SpongeIn(e, delay), j);
    FeedComplete(e.o, e.feed, sk, ct, e.skQ, e.ctQ, j.absorbed);
    LengthBound(e.o.cmd);
    if !FeedDone(e.o, e.feed) && !e.feed.feedValid {
      FeedProgress(e.o, e.feed, sp.control == Sponge.Absorbing, sk, ct, e.skQ, e.ctQ, j.absorbed);
    }
  }

  lemma LengthBound(c: Command)
    ensures InputLength(c) <= 1572
  {
  }

  lemma OutWork(f: Sponge.Permutation, e: Engine, sp: Sponge.Regs, j: Sponge.Job, z: seq<Byte>, slot: Poly, was: Poly,
                sk: SecretKey, ct: Ciphertext, delay: nat, o: Operands)
    requires OutPhase(f, e, sp, j, z, slot, was, sk, ct) && e.state != Done
    ensures Smaller(WorkOf(Edge(e, false, o, sk, ct, sp), Sponge.Edge(f, sp, SpongeIn(e, delay)), Sponge.NextJob(sp, SpongeIn(e, delay), j)),
                    WorkOf(e, sp, j))
  {
    hide OutputOk, Input, WordAt, Sponge.Hash, FeedEdge, Sponge.Inv, Edge;
    InputOkNow(f, sp, j);
    if e.state !in {Out, Drain} {
      WriteWork(e, sp, z, |j.emitted|, slot, was, o, sk, ct);
      SpongeHeld(sp, SpongeIn(e, delay), j);
    } else if sp.control == Sponge.Idle {
      EmittedStep(f, e, sp, j, z, slot, was, sk, ct, delay, o);
    } else {
      OutputLonger(e.o.cmd, e.o.eta3);
      LengthOut(e.o.cmd, e.o.eta3);
      SpongeOutput(f, sp, SpongeIn(e, delay), j, z);
      if sp.control == Sponge.Squeezing { AfterByte(e, sp, o, sk, ct); } else { EmitWork(e, sp, o, sk, ct); }
    }
  }

  lemma SpongeHeld(sp: Sponge.Regs, i: Sponge.In, j: Sponge.Job)
    requires Sponge.InRange(sp) && !i.start && !i.ready && !i.valid
    ensures Sponge.NextJob(sp, i, j) == j
  {
  }

  lemma AfterByte(e: Engine, sp: Sponge.Regs, o: Operands, sk: SecretKey, ct: Ciphertext)
    requires InRange(e) && Sponge.InRange(sp) && e.state in {Out, Drain} && sp.control == Sponge.Squeezing && !sp.done
    ensures Edge(e, false, o, sk, ct, sp).state in {Out, Check, NWrite, Drain, Done}
  {
    hide WordAt;
  }

  lemma LengthOut(c: Command, eta3: bool)
    ensures OutputLength(c, eta3) <= 1024
  {
  }

  lemma WriteWork(e: Engine, sp: Sponge.Regs, z: seq<Byte>, n: nat, slot: Poly, was: Poly, o: Operands, sk: SecretKey, ct: Ciphertext)
    requires InRange(e) && Sponge.InRange(sp) && OutputOk(e, z, n, slot, was) && e.state in {Check, W0, W1, NWrite}
    ensures WriteRank(Edge(e, false, o, sk, ct, sp)) < WriteRank(e)
    ensures Edge(e, false, o, sk, ct, sp).state in {Out, W0, W1, NWrite, Drain}
  {
    hide OutputOk, WordAt;
    Writes(e, z, n, slot, was);
  }

  lemma EmitWork(e: Engine, sp: Sponge.Regs, o: Operands, sk: SecretKey, ct: Ciphertext)
    requires InRange(e) && Sponge.InRange(sp) && e.state in {Out, Drain} && sp.control != Sponge.Squeezing && !sp.done && !e.w.finished
    ensures Edge(e, false, o, sk, ct, sp).state == e.state
  {
    hide WordAt;
  }

  // ---------------------------------------------------------------- the machine

  class SharedHashEngine {
    const f: Sponge.Permutation
    var e: Engine
    var sp: Sponge.Regs
    ghost var job: Sponge.Job
    ghost var was: Slots

    ghost predicate Valid(ram: Ram, sk: SecretKey, ct: Ciphertext)
      reads this
    {
      Inv(f, e, sp, job, ram.slots, was, sk, ct)
    }

    ghost predicate Resting()
      reads this
    {
      e.state == Idle && InRange(e) && Sponge.InRange(sp) && sp.control == Sponge.Idle && !sp.done && !e.feed.feedValid
    }

    /** Command o, which found the slots w, is under way. */
    ghost predicate Working(o: Operands, w: Slots, ram: Ram, sk: SecretKey, ct: Ciphertext)
      reads this
    {
      e.state != Idle && e.o == o && was == w && Valid(ram, sk, ct)
    }

    predicate AtDone()
      reads this
    {
      e.state == Done
    }

    ghost function Clocks(): Work
      reads this
    {
      WorkOf(e, sp, job)
    }

    constructor (permutation: Sponge.Permutation, power: Engine)
      ensures Resting() && f == permutation
    {
      f := permutation;
      e := power.(state := Idle, feed := FeedStart(0, power.feed), w := Writer(0, 0, 0, 0, [0, 0, 0, 0], seq(72, _ => 0), false, false));
      sp := Sponge.Regs(Sponge.Idle, Sponge.Zeros(), 0, 0, 0, 0, 136, 6, false, 0);
      job := Sponge.Job(0, 0, [], []);
    }

    /** One rising edge of the engine, its sponge, both byte memories and the polynomial memory. */
    method Clock(start: bool, o: Operands, sk: SecretKey, ct: Ciphertext, delay: nat, ram: Ram) returns (ram': Ram)
      requires Valid(ram, sk, ct)
      modifies this
      ensures Valid(ram', sk, ct)
      ensures old(e.state) == Idle ==> ram'.slots == ram.slots && (if start then e.state == HStart && e.o == o && was == ram.slots else e.state == Idle)
      ensures old(e.state) != Idle ==> e.o == old(e.o) && was == old(was)
      ensures old(e.state) == Done ==> Resting() && ram'.slots == ram.slots && e.w.error == old(e.w.error) && e.w.digest == old(e.w.digest)
      ensures old(e.state) !in {Idle, Done} ==> e.state != Idle && Smaller(WorkOf(e, sp, job), old(WorkOf(e, sp, job)))
    {
      hide FeedPhase, FinalPhase, OutPhase, RamNext, Edge, Sponge.Edge, Sponge.NextJob, Stream, RamData, Smaller, WorkOf, FreshWriter;
      ram' := RamNext(e, ram);
      RamNextSlots(e, ram);
      Steps(f, e, sp, job, ram, if e.state == Idle then ram.slots else was, sk, ct, delay, start, o);
      if e.state == Idle { was := ram.slots; }
      var i := SpongeIn(e, delay);
      job := Sponge.NextJob(sp, i, job);
      e, sp := Edge(e, start, o, sk, ct, sp), Sponge.Edge(f, sp, i);
    }

    /** The same edge as an engine sees it. */
    method Step(start: bool, o: Operands, ghost d: Operands, ghost w: Slots, sk: SecretKey, ct: Ciphertext, delay: nat, ram: Ram)
      returns (ram': Ram)
      requires Resting() || Working(d, w, ram, sk, ct)
      modifies this
      ensures old(Resting()) ==> ram'.slots == ram.slots
      ensures old(Resting()) && !start ==> Resting()
      ensures old(Resting()) && start ==> Working(o, ram.slots, ram', sk, ct)
      ensures !old(Resting()) && !old(AtDone()) ==> Working(d, w, ram', sk, ct) && Smaller(Clocks(), old(Clocks()))
      ensures !old(Resting()) && old(AtDone()) ==> Resting() && ram'.slots == ram.slots
      ensures !old(Resting()) && old(AtDone()) ==> Outcome(f, d, sk, ct, w, ram.slots, old(e.w.error), old(e.w.digest))
    {
      hide Stream, Smaller, WorkOf, FeedPhase, FinalPhase, OutPhase, FreshWriter;
      if e.state == Idle { RestingValid(f, e, sp, job, ram.slots, was, sk, ct); }
      if e.state == Done { ResultAtDone(f, e, sp, job, ram.slots, was, sk, ct); }
      hide Inv, Outcome;
      ram' := Clock(start, o, sk, ct, delay, ram);
      if !start { IdleRests(f, e, sp, job, ram'.slots, was, sk, ct); }
    }

    /** A whole command.  Whatever the permutation delays, the engine reaches its done state, and
        leaves the values the standard defines from the specified byte string. */
    method Run(o: Operands, sk: SecretKey, ct: Ciphertext, ram: Ram) returns (out: Ram)
      requires Resting()
      modifies this
      ensures Resting() && out.slots == ram.slots[o.slot := out.slots[o.slot]]
      ensures o.cmd == MATRIX ==>
        var a := Accepted(Stream(f, o, sk, ct), 341);
        out.slots[o.slot] == Placed(ram.slots[o.slot], Ints(a)) && (e.w.error <==> |a| < 256)
      ensures o.cmd == NOISE ==> !e.w.error && out.slots[o.slot] == Placed(ram.slots[o.slot], Noise(Stream(f, o, sk, ct), Eta(o), 256))
      ensures o.cmd != MATRIX && o.cmd != NOISE ==> out.slots == ram.slots && e.w.digest == Digest(Stream(f, o, sk, ct), OutputLength(o.cmd, o.eta3))
    {
      RestingValid(f, e, sp, job, ram.slots, was, sk, ct);
      hide Inv, Stream, Accepted, Placed, Ints, Noise, Digest, Smaller, Binomial;
      var delay: nat := *;
      out := Clock(true, o, sk, ct, delay, ram);
      while e.state != Done
        invariant Valid(out, sk, ct) && e.state != Idle && e.o == o && was == ram.slots
        decreases WorkOf(e, sp, job).phase, WorkOf(e, sp, job).bytes, WorkOf(e, sp, job).local, WorkOf(e, sp, job).stage, WorkOf(e, sp, job).perm
      {
        ghost var before := WorkOf(e, sp, job);
        delay := *;
        out := Clock(false, o, sk, ct, delay, out);
        SmallerMeans(WorkOf(e, sp, job), before);
      }
      ResultAtDone(f, e, sp, job, out.slots, was, sk, ct);
      out := Clock(false, o, sk, ct, delay, out);
    }
  }

  lemma SmallerMeans(a: Work, b: Work)
    requires Smaller(a, b)
    ensures a.phase <= b.phase && (a.phase == b.phase ==> a.bytes <= b.bytes)
    ensures a.phase == b.phase && a.bytes == b.bytes ==> a.local <= b.local
    ensures a.phase == b.phase && a.bytes == b.bytes && a.local == b.local ==> a.stage <= b.stage
    ensures a.phase == b.phase && a.bytes == b.bytes && a.local == b.local && a.stage == b.stage ==> a.perm < b.perm
  {
  }

  lemma RestingValid(f: Sponge.Permutation, e: Engine, sp: Sponge.Regs, j: Sponge.Job, slots: Slots, was: Slots, sk: SecretKey, ct: Ciphertext)
    requires e.state == Idle && InRange(e) && Sponge.InRange(sp) && sp.control == Sponge.Idle && !sp.done && !e.feed.feedValid
    ensures Inv(f, e, sp, j, slots, was, sk, ct)
  {
  }

  lemma IdleRests(f: Sponge.Permutation, e: Engine, sp: Sponge.Regs, j: Sponge.Job, slots: Slots, was: Slots, sk: SecretKey, ct: Ciphertext)
    requires Inv(f, e, sp, j, slots, was, sk, ct)
    ensures e.state == Idle ==> InRange(e) && Sponge.InRange(sp) && sp.control == Sponge.Idle && !sp.done && !e.feed.feedValid
  {
  }

  /** What a command leaves: its slot or its digest, and the error flag. */
  ghost predicate Outcome(f: Sponge.Permutation, o: Operands, sk: SecretKey, ct: Ciphertext, was: Slots, slots: Slots, error: bool, digest: seq<Byte>) {
    var z := Stream(f, o, sk, ct);
    && slots == was[o.slot := slots[o.slot]]
    && (o.cmd == MATRIX ==> slots[o.slot] == Placed(was[o.slot], Ints(Accepted(z, 341))) && (error <==> |Accepted(z, 341)| < 256))
    && (o.cmd == NOISE ==> !error && slots[o.slot] == Placed(was[o.slot], Noise(z, Eta(o), 256)))
    && (o.cmd != MATRIX && o.cmd != NOISE ==> slots == was && digest == Digest(z, OutputLength(o.cmd, o.eta3)))
  }

  lemma ResultAtDone(f: Sponge.Permutation, e: Engine, sp: Sponge.Regs, j: Sponge.Job, slots: Slots, was: Slots, sk: SecretKey, ct: Ciphertext)
    requires Inv(f, e, sp, j, slots, was, sk, ct) && e.state == Done
    ensures slots == was[e.o.slot := slots[e.o.slot]]
    ensures var z, s := Stream(f, e.o, sk, ct), e.o.slot;
      && (e.o.cmd == MATRIX ==> slots[s] == Placed(was[s], Ints(Accepted(z, 341))) && (e.w.error <==> |Accepted(z, 341)| < 256))
      && (e.o.cmd == NOISE ==> !e.w.error && slots[s] == Placed(was[s], Noise(z, Eta(e.o), 256)))
      && (e.o.cmd != MATRIX && e.o.cmd != NOISE ==> slots == was && e.w.digest == Digest(z, OutputLength(e.o.cmd, e.o.eta3)))
  {
    hide Stream, Accepted, Placed, Ints, Noise, Digest, Sponge.Inv, Sponge.Hash, Input;
  }

  /** What the contract of a clock says, on values. */
  ghost predicate Stepped(f: Sponge.Permutation, e: Engine, sp: Sponge.Regs, j: Sponge.Job, ram: Ram, was: Slots, sk: SecretKey, ct: Ciphertext,
                          start: bool, o: Operands, e': Engine, sp': Sponge.Regs, j': Sponge.Job) {
    && Inv(f, e', sp', j', RamNext(e, ram).slots, was, sk, ct)
    && (e.state == Idle ==> RamNext(e, ram).slots == ram.slots && (if start then e'.state == HStart && e'.o == o else e'.state == Idle))
    && (e.state != Idle ==> e'.o == e.o)
    && (e.state == Done ==>
          && e'.state == Idle && InRange(e') && sp'.control == Sponge.Idle && !sp'.done && !e'.feed.feedValid
          && RamNext(e, ram).slots == ram.slots && e'.w.error == e.w.error && e'.w.digest == e.w.digest)
    && (e.state !in {Idle, Done} ==> e'.state != Idle && Smaller(WorkOf(e', sp', j'), WorkOf(e, sp, j)))
  }

  lemma OuterStep(f: Sponge.Permutation, e: Engine, sp: Sponge.Regs, j: Sponge.Job, ram: Ram, was: Slots, sk: SecretKey, ct: Ciphertext,
                  delay: nat, start: bool, o: Operands)
    requires Inv(f, e, sp, j, ram.slots, was, sk, ct) && (e.state == Idle ==> was == ram.slots) && (e.state == Idle || e.state == Done)
    ensures Stepped(f, e, sp, j, ram, was, sk, ct, start, o,
                    Edge(e, start, o, sk, ct, sp), Sponge.Edge(f, sp, SpongeIn(e, delay)), Sponge.NextJob(sp, SpongeIn(e, delay), j))
  {
    hide FeedPhase, FinalPhase, RamNext, RamData, WordAt, OutputOk, Sponge.Hash, Input, Smaller, WorkOf;
    RamNextSlots(e, ram);
  }

  lemma StartStep(f: Sponge.Permutation, e: Engine, sp: Sponge.Regs, j: Sponge.Job, ram: Ram, was: Slots, sk: SecretKey, ct: Ciphertext,
                  delay: nat, o: Operands)
    requires Inv(f, e, sp, j, ram.slots, was, sk, ct) && e.state == HStart
    ensures Stepped(f, e, sp, j, ram, was, sk, ct, false, o,
                    Edge(e, false, o, sk, ct, sp), Sponge.Edge(f, sp, SpongeIn(e, delay)), Sponge.NextJob(sp, SpongeIn(e, delay), j))
  {
    hide RamNext, RamData, WordAt, Sponge.Hash, Input, FeedOk, Sponge.Fed, Sponge.Mod, SkByte, CtByte, OutPhase;
    RamNextSlots(e, ram);
    FeedBegins(e.o, e.feed, sk, ct);
    Sponge.FedNothing(f, Sponge.Rate(ModeOf(e.o.cmd)));
    OutputLonger(e.o.cmd, e.o.eta3);
  }

  lemma FeedingStep(f: Sponge.Permutation, e: Engine, sp: Sponge.Regs, j: Sponge.Job, ram: Ram, was: Slots, sk: SecretKey, ct: Ciphertext,
                    delay: nat, o: Operands)
    requires Inv(f, e, sp, j, ram.slots, was, sk, ct) && e.state == Feeding
    ensures Stepped(f, e, sp, j, ram, was, sk, ct, false, o,
                    Edge(e, false, o, sk, ct, sp), Sponge.Edge(f, sp, SpongeIn(e, delay)), Sponge.NextJob(sp, SpongeIn(e, delay), j))
  {
    hide RamNext, RamData, WordAt, Input, FeedOk, Sponge.Inv, Sponge.Edge, Sponge.NextJob, FeedEdge, Smaller, WorkOf, OutPhase;
    RamNextSlots(e, ram);
    FeedStep(f, e, sp, j, sk, ct, delay, o);
    FeedWork(f, e, sp, j, sk, ct, delay, o);
    InputOkNow(f, Sponge.Edge(f, sp, SpongeIn(e, delay)), Sponge.NextJob(sp, SpongeIn(e, delay), j));
  }

  lemma FinalizeStep(f: Sponge.Permutation, e: Engine, sp: Sponge.Regs, j: Sponge.Job, ram: Ram, was: Slots, sk: SecretKey, ct: Ciphertext,
                     delay: nat, o: Operands)
    requires Inv(f, e, sp, j, ram.slots, was, sk, ct) && e.state == Final
    ensures Stepped(f, e, sp, j, ram, was, sk, ct, false, o,
                    Edge(e, false, o, sk, ct, sp), Sponge.Edge(f, sp, SpongeIn(e, delay)), Sponge.NextJob(sp, SpongeIn(e, delay), j))
  {
    hide RamNext, RamData, WordAt, Input, Sponge.Inv, Sponge.Edge, Sponge.NextJob, FeedEdge, OutPhase, Stream;
    RamNextSlots(e, ram);
    FinalStep(f, e, sp, j, sk, ct, delay, o, was[e.o.slot]);
    OutputRange(f, Edge(e, false, o, sk, ct, sp), Sponge.Edge(f, sp, SpongeIn(e, delay)), Sponge.NextJob(sp, SpongeIn(e, delay), j),
                Stream(f, e.o, sk, ct), was[e.o.slot], was[e.o.slot], sk, ct);
  }

  lemma OutputStep(f: Sponge.Permutation, e: Engine, sp: Sponge.Regs, j: Sponge.Job, ram: Ram, was: Slots, sk: SecretKey, ct: Ciphertext,
                   delay: nat, o: Operands)
    requires Inv(f, e, sp, j, ram.slots, was, sk, ct) && e.state in {Out, Check, W0, W1, NWrite, Drain}
    ensures Stepped(f, e, sp, j, ram, was, sk, ct, false, o,
                    Edge(e, false, o, sk, ct, sp), Sponge.Edge(f, sp, SpongeIn(e, delay)), Sponge.NextJob(sp, SpongeIn(e, delay), j))
  {
    hide RamNext, RamData, OutPhase, Stream, Edge, Sponge.Edge, Sponge.NextJob, Smaller, WorkOf, FeedPhase, FinalPhase;
    OutKept(f, e, sp, j, ram, was, sk, ct, delay, o);
    OutWork(f, e, sp, j, Stream(f, e.o, sk, ct), ram.slots[e.o.slot], was[e.o.slot], sk, ct, delay, o);
  }

  /** Only the idle state listens to a start. */
  lemma StartIgnored(e: Engine, start: bool, o: Operands, sk: SecretKey, ct: Ciphertext, sp: Sponge.Regs)
    requires InRange(e) && Sponge.InRange(sp) && e.state != Idle
    ensures Edge(e, start, o, sk, ct, sp) == Edge(e, false, o, sk, ct, sp)
  {
    hide FeedEdge, OutEdge, WriteEdge, WordAt;
  }

  /** One edge in any state. */
  lemma Steps(f: Sponge.Permutation, e: Engine, sp: Sponge.Regs, j: Sponge.Job, ram: Ram, was: Slots, sk: SecretKey, ct: Ciphertext,
              delay: nat, start: bool, o: Operands)
    requires Inv(f, e, sp, j, ram.slots, was, sk, ct) && (e.state == Idle ==> was == ram.slots)
    ensures Stepped(f, e, sp, j, ram, was, sk, ct, start, o,
                    Edge(e, start, o, sk, ct, sp), Sponge.Edge(f, sp, SpongeIn(e, delay)), Sponge.NextJob(sp, SpongeIn(e, delay), j))
  {
    hide RamNext, RamData, OutPhase, Stream, Edge, Sponge.Edge, Sponge.NextJob, Smaller, WorkOf, FeedPhase, FinalPhase, FreshWriter, FeedStart;
    if e.state == Idle || e.state == Done {
      OuterStep(f, e, sp, j, ram, was, sk, ct, delay, start, o);
    } else {
      StartIgnored(e, start, o, sk, ct, sp);
      if e.state == HStart { StartStep(f, e, sp, j, ram, was, sk, ct, delay, o); }
      else if e.state == Feeding { FeedingStep(f, e, sp, j, ram, was, sk, ct, delay, o); }
      else if e.state == Final { FinalizeStep(f, e, sp, j, ram, was, sk, ct, delay, o); }
      else { OutputStep(f, e, sp, j, ram, was, sk, ct, delay, o); }
    }
  }
}
