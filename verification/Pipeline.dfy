/** The register stages of the polynomial kernel and what they hold while a layer is in flight.

  Each Clock function gives every register of a pipeline its next value from the old ones; a
  command's invariant says, stage by stage, which butterfly is in it and how far it has got. */
module Pipeline {
  import opened ModQ
  import opened Ring
  import opened Kernel
  import opened ParityBank

  // ---------------------------------------------------------------- registers

  /** Butterfly pipeline, shared by the forward layers, the scale pass and the inverse layers. */
  datatype Pipe = Pipe(
    butterflyA: int, butterflyAD1: int, butterflyAD2: int,
    inttSum: int, inttDiff: int, inttSumD1: int, inttSumD2: int,
    fqProduct: int, fqProductD1: int, montMultiplier: int, fqResult: int,
    barrettAccum: int, barrettTemp: int, barrettResult: int,
    zetaD1: int, zetaD2: int,
    bf1: nat, bf2: nat, bf3: nat, bf4: nat, bf5: nat,
    v1: bool, v2: bool, v3: bool, v4: bool, v5: bool)

  /** Index and valid bit move one stage per clock; the forward commands use four stages. */
  function Shift4(p: Pipe, butterfly: nat, issue: bool): Pipe {
    p.(bf1 := butterfly, v1 := issue, bf2 := p.bf1, v2 := p.v1, bf3 := p.bf2, v3 := p.v2, bf4 := p.bf3, v4 := p.v3)
  }

  function NttClock(p: Pipe, dout0: int, dout1: int, zeta: int, butterfly: nat, issue: bool): Pipe {
    Shift4(p, butterfly, issue).(
      butterflyA := dout0,
      fqProduct := Wrap32(dout1 * p.zetaD1),
      montMultiplier := MontMultiplier(p.fqProduct),
      fqProductD1 := p.fqProduct,
      butterflyAD1 := p.butterflyA,
      fqResult := MontResult(p.fqProductD1, p.montMultiplier),
      butterflyAD2 := p.butterflyAD1,
      zetaD1 := zeta)
  }

  function ScaleClock(p: Pipe, dout0: int, butterfly: nat, issue: bool): Pipe {
    Shift4(p, butterfly, issue).(
      fqProduct := Wrap32(dout0 * 1441),
      montMultiplier := MontMultiplier(p.fqProduct),
      fqProductD1 := p.fqProduct,
      fqResult := MontResult(p.fqProductD1, p.montMultiplier))
  }

  function InttClock(p: Pipe, dout0: int, dout1: int, zeta: int, butterfly: nat, issue: bool): Pipe {
    Shift4(p, butterfly, issue).(
      bf5 := p.bf4, v5 := p.v4,
      inttSum := Wrap16(dout0 + dout1),
      inttDiff := Wrap16(dout1 - dout0),
      fqProduct := Wrap32(p.inttDiff * p.zetaD2),
      barrettAccum := Wrap32(20159 * p.inttSum + 33554432),
      inttSumD1 := p.inttSum,
      montMultiplier := MontMultiplier(p.fqProduct),
      barrettTemp := p.barrettAccum / 67108864,
      fqProductD1 := p.fqProduct,
      inttSumD2 := p.inttSumD1,
      fqResult := MontResult(p.fqProductD1, p.montMultiplier),
      barrettResult := Wrap16(p.inttSumD2 - p.barrettTemp * 3329),
      zetaD1 := zeta, zetaD2 := p.zetaD1)
  }

  lemma NttClockValid(p: Pipe, dout0: int, dout1: int, zeta: int, butterfly: nat, issue: bool)
    ensures var q := NttClock(p, dout0, dout1, zeta, butterfly, issue);
      q.v1 == issue && q.v2 == p.v1 && q.v3 == p.v2 && q.v4 == p.v3
  {
  }

  lemma InttClockValid(p: Pipe, dout0: int, dout1: int, zeta: int, butterfly: nat, issue: bool)
    ensures var q := InttClock(p, dout0, dout1, zeta, butterfly, issue);
      q.v1 == issue && q.v2 == p.v1 && q.v3 == p.v2 && q.v4 == p.v3 && q.v5 == p.v4
  {
  }

  lemma LayerTables(l: nat)
    requires 1 <= l < 7
    ensures Span(l + 1) == Span(l) / 2 && Span(l) == 2 * Span(l + 1) && Blocks(l) == 2 * Blocks(l - 1)
  {
  }

  // ---------------------------------------------------------------- forward layer in flight

  /** Butterfly c has not been written back: not issued yet, or still in a stage. */
  predicate Pending4(p: Pipe, next: nat, c: nat) {
    c >= next || (p.v1 && p.bf1 == c) || (p.v2 && p.bf2 == c) || (p.v3 && p.bf3 == c) || (p.v4 && p.bf4 == c)
  }

  /** Stages hold distinct, already issued first addresses. */
  ghost predicate InOrder4(p: Pipe, l: nat, next: nat)
    requires 1 <= l <= 7
  {
    && (p.v1 ==> p.bf1 < 256 && p.bf1 < next && IsLow(l, p.bf1))
    && (p.v2 ==> p.bf2 < 256 && p.bf2 < next && IsLow(l, p.bf2))
    && (p.v3 ==> p.bf3 < 256 && p.bf3 < next && IsLow(l, p.bf3))
    && (p.v4 ==> p.bf4 < 256 && p.bf4 < next && IsLow(l, p.bf4))
    && (p.v1 && p.v2 ==> p.bf2 < p.bf1) && (p.v1 && p.v3 ==> p.bf3 < p.bf1) && (p.v1 && p.v4 ==> p.bf4 < p.bf1)
    && (p.v2 && p.v3 ==> p.bf3 < p.bf2) && (p.v2 && p.v4 ==> p.bf4 < p.bf2) && (p.v3 && p.v4 ==> p.bf4 < p.bf3)
  }

  function High(l: nat, a: nat): (h: nat)
    requires 1 <= l <= 7 && a < 256 && IsLow(l, a)
    ensures h < 256
  {
    PairFacts(l, a);
    a + Span(l)
  }

  ghost predicate NttStages(z: Zetas, x: Poly, l: nat, p: Pipe, dout0: int, dout1: int, next: nat)
    requires 1 <= l <= 7
  {
    && InOrder4(p, l, next)
    && (p.v1 ==> dout0 == x[p.bf1] && dout1 == x[High(l, p.bf1)] && p.zetaD1 == ZetaAt(z, l, p.bf1))
    && (p.v2 ==> p.butterflyA == x[p.bf2] && p.fqProduct == Wrap32(x[High(l, p.bf2)] * ZetaAt(z, l, p.bf2)))
    && (p.v3 ==>
          && p.butterflyAD1 == x[p.bf3]
          && p.fqProductD1 == Wrap32(x[High(l, p.bf3)] * ZetaAt(z, l, p.bf3))
          && p.montMultiplier == MontMultiplier(p.fqProductD1))
    && (p.v4 ==> p.butterflyAD2 == x[p.bf4] && p.fqResult == FqMul(x[High(l, p.bf4)], ZetaAt(z, l, p.bf4)))
  }

  /** Memory while a layer runs: retired butterflies are new, all others still old. */
  ghost predicate NttMemory(z: Zetas, x: Poly, l: nat, p: Pipe, mem: Poly, next: nat)
    requires 1 <= l <= 7
  {
    forall a: nat :: a < 256 ==> mem[a] == if Pending4(p, next, LowOf(l, a)) then x[a] else NttLayer(z, x, l)[a]
  }

  /** No first address lies strictly between two consecutive ones. */
  ghost predicate Consecutive(l: nat, c: nat, next: nat)
    requires 1 <= l <= 7
  {
    c < next && forall d: nat :: c < d < next && d < 256 ==> !IsLow(l, d)
  }

  /** How the machine's counters find the next first address: inside a block one further on, at its
      end one span beyond, and after the last block nothing is left. */
  lemma NextLow(l: nat, a: nat, b: nat, start: nat, m: nat)
    requires 1 <= l <= 7 && a < 256 && IsLow(l, a)
    requires b == BlockOf(l - 1, a) && start == Base(l - 1, b) && m == Span(l)
    ensures start <= a < start + m && start % 2 == 0 && start + 2 * m <= 256
    ensures a == start + m - 1 && start + 2 * m >= 256 ==>
      Consecutive(l, a, 256) && b == Blocks(l - 1) - 1 && start + 2 * m == 256
    ensures a == start + m - 1 && start + 2 * m < 256 ==>
      var n := start + 2 * m;
      IsLow(l, n) && Consecutive(l, a, n) && b + 1 < Blocks(l - 1) && BlockOf(l - 1, n) == b + 1 && Base(l - 1, b + 1) == n
    ensures a != start + m - 1 ==>
      a + 1 < 256 && IsLow(l, a + 1) && Consecutive(l, a, a + 1) && BlockOf(l - 1, a + 1) == b
  {
    hide Base, BlockOf, Within, Span, Blocks;
    ChildBlocks(l, b);
    NextBlock(l, b);
    SpanPower(l, b);
    forall d: nat | start <= d < start + 2 * m && d < 256 ensures BlockOf(l - 1, d) == b && IsLow(l, d) == (d - start < m) {
      AddressParts(l - 1, b, d - start);
    }
    if start + 2 * m < 256 { AddressParts(l - 1, b + 1, 0); }
  }

  lemma NttStagesAdvance(z: Zetas, x: Poly, l: nat, p: Pipe, dout0: int, dout1: int,
                         next: nat, butterfly: nat, issue: bool, zeta: int, dout0': int, dout1': int, next': nat)
    requires 1 <= l <= 7 && NttStages(z, x, l, p, dout0, dout1, next)
    requires issue ==> butterfly < 256 && IsLow(l, butterfly) && next == butterfly < next'
    requires issue ==> dout0' == x[butterfly] && dout1' == x[High(l, butterfly)] && zeta == ZetaAt(z, l, butterfly)
    requires !issue ==> next' == next
    ensures NttStages(z, x, l, NttClock(p, dout0, dout1, zeta, butterfly, issue), dout0', dout1', next')
  {
    hide IsLow, ZetaAt, MontMultiplier, MontResult, Wrap32, High;
  }

  lemma NttMemoryAdvance(z: Zetas, x: Poly, l: nat, p: Pipe, dout0: int, dout1: int, mem: Poly,
                         next: nat, butterfly: nat, issue: bool, zeta: int, next': nat)
    requires 1 <= l <= 7 && NttStages(z, x, l, p, dout0, dout1, next) && NttMemory(z, x, l, p, mem, next)
    requires issue ==> next == butterfly && Consecutive(l, butterfly, next')
    requires !issue ==> next' == next
    ensures p.v4 ==> p.bf4 < 256 && p.bf4 + Span(l) < 256 && Parity(p.bf4) != Parity(p.bf4 + Span(l))
    ensures var w0 := Wrap16(p.butterflyAD2 + p.fqResult); var w1 := Wrap16(p.butterflyAD2 - p.fqResult);
      var mem' := if p.v4 then mem[p.bf4 := w0][p.bf4 + Span(l) := w1] else mem;
      NttMemory(z, x, l, NttClock(p, dout0, dout1, zeta, butterfly, issue), mem', next')
  {
    hide IsLow, ZetaAt, MontMultiplier, MontResult, Wrap32, Span, FqMul, BlockOf, Within;
    if p.v4 { PairFacts(l, p.bf4); RetireLow(z, x, l, p.bf4); RetireHigh(z, x, l, p.bf4); }
    forall a: nat | a < 256 { LowIsLow(l, a); }
  }

  /** A butterfly that is being issued still finds its two old words. */
  lemma NttReads(z: Zetas, x: Poly, l: nat, p: Pipe, mem: Poly, c: nat)
    requires 1 <= l <= 7 && c < 256 && IsLow(l, c) && NttMemory(z, x, l, p, mem, c)
    ensures mem[c] == x[c] && mem[High(l, c)] == x[High(l, c)]
  {
    hide BlockOf, Within, Span, NttLayer;
    RetireHigh(z, x, l, c);
    RetireLow(z, x, l, c);
  }

  /** Once everything is issued and retired the memory is the whole layer. */
  lemma NttLayerDone(z: Zetas, x: Poly, l: nat, p: Pipe, mem: Poly)
    requires 1 <= l <= 7 && NttMemory(z, x, l, p, mem, 256) && !p.v1 && !p.v2 && !p.v3 && !p.v4
    ensures mem == NttLayer(z, x, l)
  {
    hide NttLayer, IsLow;
    forall a: nat | a < 256 ensures mem[a] == NttLayer(z, x, l)[a] { LowIsLow(l, a); }
  }

  /** An empty pipeline at the first butterfly of a layer. */
  lemma NttLayerBegins(z: Zetas, x: Poly, l: nat, p: Pipe, dout0: int, dout1: int)
    requires 1 <= l <= 7 && !p.v1 && !p.v2 && !p.v3 && !p.v4
    ensures NttStages(z, x, l, p, dout0, dout1, 0) && NttMemory(z, x, l, p, x, 0)
    ensures IsLow(l, 0) && BlockOf(l - 1, 0) == 0 && Base(l - 1, 0) == 0
  {
    hide NttLayer;
  }

  /** The two words butterfly c writes. */
  function LowWord(z: Zetas, x: Poly, l: nat, c: nat): int
    requires 1 <= l <= 7 && c < 256 && IsLow(l, c)
  {
    Wrap16(x[c] + FqMul(x[High(l, c)], ZetaAt(z, l, c)))
  }

  function HighWord(z: Zetas, x: Poly, l: nat, c: nat): int
    requires 1 <= l <= 7 && c < 256 && IsLow(l, c)
  {
    Wrap16(x[c] - FqMul(x[High(l, c)], ZetaAt(z, l, c)))
  }

  lemma RetireLow(z: Zetas, x: Poly, l: nat, c: nat)
    requires 1 <= l <= 7 && c < 256 && IsLow(l, c)
    ensures NttLayer(z, x, l)[c] == LowWord(z, x, l, c) && LowOf(l, c) == c
  {
    hide BlockOf, Within, Span, Blocks, FqMul, Wrap16;
    PairFacts(l, c);
  }

  lemma RetireHigh(z: Zetas, x: Poly, l: nat, c: nat)
    requires 1 <= l <= 7 && c < 256 && IsLow(l, c)
    ensures NttLayer(z, x, l)[High(l, c)] == HighWord(z, x, l, c) && LowOf(l, High(l, c)) == c
  {
    hide BlockOf, Within, Span, Blocks, FqMul, Wrap16;
    PairFacts(l, c);
  }

  // ---------------------------------------------------------------- scale pass in flight

  ghost predicate ScaleStages(x: Poly, p: Pipe, dout0: int, next: nat) {
    && (p.v1 ==> p.bf1 < 256 && p.bf1 < next && dout0 == x[p.bf1])
    && (p.v2 ==> p.bf2 < 256 && p.bf2 < next && p.fqProduct == Wrap32(x[p.bf2] * 1441))
    && (p.v3 ==> p.bf3 < 256 && p.bf3 < next && p.fqProductD1 == Wrap32(x[p.bf3] * 1441)
                 && p.montMultiplier == MontMultiplier(p.fqProductD1))
    && (p.v4 ==> p.bf4 < 256 && p.bf4 < next && p.fqResult == FqMul(x[p.bf4], 1441))
    && (p.v1 && p.v2 ==> p.bf2 < p.bf1) && (p.v1 && p.v3 ==> p.bf3 < p.bf1) && (p.v1 && p.v4 ==> p.bf4 < p.bf1)
    && (p.v2 && p.v3 ==> p.bf3 < p.bf2) && (p.v2 && p.v4 ==> p.bf4 < p.bf2) && (p.v3 && p.v4 ==> p.bf4 < p.bf3)
  }

  ghost predicate ScaleMemory(x: Poly, p: Pipe, mem: Poly, next: nat) {
    forall a: nat :: a < 256 ==> mem[a] == if Pending4(p, next, a) then x[a] else ScalePass(x)[a]
  }

  lemma ScaleAdvance(x: Poly, p: Pipe, dout0: int, mem: Poly, next: nat, butterfly: nat, issue: bool, dout0': int, next': nat)
    requires ScaleStages(x, p, dout0, next) && ScaleMemory(x, p, mem, next)
    requires issue ==> butterfly < 256 && next == butterfly && next' == butterfly + 1 && dout0' == x[butterfly]
    requires !issue ==> next' == next
    ensures ScaleStages(x, ScaleClock(p, dout0, butterfly, issue), dout0', next')
    ensures ScaleMemory(x, ScaleClock(p, dout0, butterfly, issue), if p.v4 then mem[p.bf4 := p.fqResult] else mem, next')
  {
    hide MontMultiplier, MontResult, Wrap32;
  }

  lemma ScaleClockValid(p: Pipe, dout0: int, butterfly: nat, issue: bool)
    ensures var q := ScaleClock(p, dout0, butterfly, issue);
      q.v1 == issue && q.v2 == p.v1 && q.v3 == p.v2 && q.v4 == p.v3
  {
  }

  lemma ScaleShape(x: Poly, p: Pipe, dout0: int, next: nat, mem: Poly, issue: bool, butterfly: nat)
    requires ScaleStages(x, p, dout0, next) && ScaleMemory(x, p, mem, next)
    ensures p.v4 ==> p.bf4 < 256
    ensures issue && next == butterfly < 256 ==> mem[butterfly] == x[butterfly]
  {
  }

  lemma ScaleDone(x: Poly, p: Pipe, mem: Poly)
    requires ScaleMemory(x, p, mem, 256) && !p.v1 && !p.v2 && !p.v3 && !p.v4
    ensures mem == ScalePass(x)
  {
    hide ScalePass;
  }

  // ---------------------------------------------------------------- inverse layer in flight

  predicate Pending5(p: Pipe, next: nat, c: nat) {
    Pending4(p, next, c) || (p.v5 && p.bf5 == c)
  }

  ghost predicate InOrder5(p: Pipe, l: nat, next: nat)
    requires 1 <= l <= 7
  {
    && InOrder4(p, l, next)
    && (p.v5 ==> p.bf5 < 256 && p.bf5 < next && IsLow(l, p.bf5))
    && (p.v1 && p.v5 ==> p.bf5 < p.bf1) && (p.v2 && p.v5 ==> p.bf5 < p.bf2)
    && (p.v3 && p.v5 ==> p.bf5 < p.bf3) && (p.v4 && p.v5 ==> p.bf5 < p.bf4)
  }

  function SumAt(x: Poly, l: nat, c: nat): int
    requires 1 <= l <= 7 && c < 256 && IsLow(l, c)
  {
    Wrap16(x[c] + x[High(l, c)])
  }

  function DiffAt(x: Poly, l: nat, c: nat): int
    requires 1 <= l <= 7 && c < 256 && IsLow(l, c)
  {
    Wrap16(x[High(l, c)] - x[c])
  }

  ghost predicate InttStages(z: Zetas, x: Poly, l: nat, p: Pipe, dout0: int, dout1: int, next: nat)
    requires 1 <= l <= 7
  {
    && InOrder5(p, l, next)
    && (p.v1 ==> dout0 == x[p.bf1] && dout1 == x[High(l, p.bf1)] && p.zetaD1 == BackZetaAt(z, l, p.bf1))
    && (p.v2 ==>
          && p.inttSum == SumAt(x, l, p.bf2) && p.inttDiff == DiffAt(x, l, p.bf2)
          && p.zetaD2 == BackZetaAt(z, l, p.bf2))
    && (p.v3 ==>
          && p.inttSumD1 == SumAt(x, l, p.bf3)
          && p.barrettAccum == Wrap32(20159 * p.inttSumD1 + 33554432)
          && p.fqProduct == Wrap32(DiffAt(x, l, p.bf3) * BackZetaAt(z, l, p.bf3)))
    && (p.v4 ==>
          && p.inttSumD2 == SumAt(x, l, p.bf4)
          && p.barrettTemp == Wrap32(20159 * p.inttSumD2 + 33554432) / 67108864
          && p.fqProductD1 == Wrap32(DiffAt(x, l, p.bf4) * BackZetaAt(z, l, p.bf4))
          && p.montMultiplier == MontMultiplier(p.fqProductD1))
    && (p.v5 ==>
          && p.barrettResult == BarrettSum(SumAt(x, l, p.bf5))
          && p.fqResult == FqMul(DiffAt(x, l, p.bf5), BackZetaAt(z, l, p.bf5)))
  }

  ghost predicate InttMemory(z: Zetas, x: Poly, l: nat, p: Pipe, mem: Poly, next: nat)
    requires 1 <= l <= 7
  {
    forall a: nat :: a < 256 ==> mem[a] == if Pending5(p, next, LowOf(l, a)) then x[a] else InttLayer(z, x, l)[a]
  }

  lemma InttStagesAdvance(z: Zetas, x: Poly, l: nat, p: Pipe, dout0: int, dout1: int,
                          next: nat, butterfly: nat, issue: bool, zeta: int, dout0': int, dout1': int, next': nat)
    requires 1 <= l <= 7 && InttStages(z, x, l, p, dout0, dout1, next)
    requires issue ==> butterfly < 256 && IsLow(l, butterfly) && next == butterfly < next'
    requires issue ==> dout0' == x[butterfly] && dout1' == x[High(l, butterfly)] && zeta == BackZetaAt(z, l, butterfly)
    requires !issue ==> next' == next
    ensures InttStages(z, x, l, InttClock(p, dout0, dout1, zeta, butterfly, issue), dout0', dout1', next')
  {
    hide IsLow, BackZetaAt, MontMultiplier, MontResult, Wrap32, Wrap16, High;
  }

  lemma InttMemoryAdvance(z: Zetas, x: Poly, l: nat, p: Pipe, dout0: int, dout1: int, mem: Poly,
                          next: nat, butterfly: nat, issue: bool, zeta: int, next': nat)
    requires 1 <= l <= 7 && InttStages(z, x, l, p, dout0, dout1, next) && InttMemory(z, x, l, p, mem, next)
    requires issue ==> next == butterfly && Consecutive(l, butterfly, next')
    requires !issue ==> next' == next
    ensures p.v5 ==> p.bf5 < 256 && p.bf5 + Span(l) < 256 && Parity(p.bf5) != Parity(p.bf5 + Span(l))
    ensures var mem' := if p.v5 then mem[p.bf5 := p.barrettResult][p.bf5 + Span(l) := p.fqResult] else mem;
      InttMemory(z, x, l, InttClock(p, dout0, dout1, zeta, butterfly, issue), mem', next')
  {
    hide IsLow, BackZetaAt, MontMultiplier, MontResult, Wrap32, Wrap16, Span, FqMul, BarrettSum, BlockOf, Within, SumAt, DiffAt, Pending4, Pending5, InOrder4, InttLayer, InttClock;
    if p.v5 { PairFacts(l, p.bf5); RetireIntt(z, x, l, p.bf5); }
    var p' := InttClock(p, dout0, dout1, zeta, butterfly, issue);
    var mem' := if p.v5 then mem[p.bf5 := p.barrettResult][p.bf5 + Span(l) := p.fqResult] else mem;
    forall a: nat | a < 256
      ensures mem'[a] == if Pending5(p', next', LowOf(l, a)) then x[a] else InttLayer(z, x, l)[a]
    {
      LowIsLow(l, a);
      PendingStep(l, p, dout0, dout1, next, butterfly, issue, zeta, next', LowOf(l, a));
    }
  }

  /** One clock retires exactly the butterfly in the last stage. */
  lemma PendingStep(l: nat, p: Pipe, dout0: int, dout1: int, next: nat, butterfly: nat, issue: bool, zeta: int, next': nat, c: nat)
    requires 1 <= l <= 7 && InOrder5(p, l, next) && c < 256 && IsLow(l, c)
    requires issue ==> next == butterfly && Consecutive(l, butterfly, next')
    requires !issue ==> next' == next
    ensures Pending5(InttClock(p, dout0, dout1, zeta, butterfly, issue), next', c) <==>
      Pending5(p, next, c) && !(p.v5 && p.bf5 == c)
  {
    hide IsLow, MontMultiplier, MontResult, Wrap32, Wrap16;
  }

  lemma RetireIntt(z: Zetas, x: Poly, l: nat, c: nat)
    requires 1 <= l <= 7 && c < 256 && IsLow(l, c)
    ensures InttLayer(z, x, l)[c] == BarrettSum(SumAt(x, l, c))
    ensures InttLayer(z, x, l)[High(l, c)] == FqMul(DiffAt(x, l, c), BackZetaAt(z, l, c))
    ensures LowOf(l, c) == c && LowOf(l, High(l, c)) == c
  {
    hide BlockOf, Within, Span, Blocks, FqMul, Wrap16, BarrettSum;
    PairFacts(l, c);
  }

  lemma InttReads(z: Zetas, x: Poly, l: nat, p: Pipe, mem: Poly, c: nat)
    requires 1 <= l <= 7 && c < 256 && IsLow(l, c) && InttMemory(z, x, l, p, mem, c)
    ensures mem[c] == x[c] && mem[High(l, c)] == x[High(l, c)]
  {
    hide BlockOf, Within, Span, InttLayer;
    RetireIntt(z, x, l, c);
  }

  lemma InttLayerDone(z: Zetas, x: Poly, l: nat, p: Pipe, mem: Poly)
    requires 1 <= l <= 7 && InttMemory(z, x, l, p, mem, 256) && !p.v1 && !p.v2 && !p.v3 && !p.v4 && !p.v5
    ensures mem == InttLayer(z, x, l)
  {
    hide InttLayer, IsLow;
    forall a: nat | a < 256 ensures mem[a] == InttLayer(z, x, l)[a] { LowIsLow(l, a); }
  }

  lemma InttLayerBegins(z: Zetas, x: Poly, l: nat, p: Pipe, dout0: int, dout1: int)
    requires 1 <= l <= 7 && !p.v1 && !p.v2 && !p.v3 && !p.v4 && !p.v5
    ensures InttStages(z, x, l, p, dout0, dout1, 0) && InttMemory(z, x, l, p, x, 0)
    ensures IsLow(l, 0) && BlockOf(l - 1, 0) == 0 && Base(l - 1, 0) == 0
  {
    hide InttLayer;
  }

  // ---------------------------------------------------------------- base multiplication

  /** Eight-stage BaseMul pipeline; four products per pair and one more for the zeta path. */
  datatype MulPipe = MulPipe(
    a0: int, a1: int, b0: int, b1: int,
    prod11: int, prod00: int, prod01: int, prod10: int,
    prod11D1: int, prod00D1: int, prod01D1: int, prod10D1: int,
    mult11: int, mult00: int, mult01: int, mult10: int,
    p11: int, p00: int, p01: int, p10: int,
    p00D1: int, p00D2: int, p00D3: int, p01D1: int, p01D2: int, p01D3: int, p10D1: int, p10D2: int, p10D3: int,
    zprod: int, zprodD1: int, zmult: int, p11z: int,
    zeta: int, zetaD1: int, zetaD2: int,
    idx1: nat, idx2: nat, idx3: nat, idx4: nat, idx5: nat, idx6: nat, idx7: nat, idx8: nat,
    v1: bool, v2: bool, v3: bool, v4: bool, v5: bool, v6: bool, v7: bool, v8: bool)

  function MulClock(m: MulPipe, dout0: int, dout1: int, b0: int, b1: int, zeta: int, ptr: nat, issue: bool): MulPipe {
    MulPipe(
      dout0, dout1, b0, b1,
      Wrap32(m.a1 * m.b1), Wrap32(m.a0 * m.b0), Wrap32(m.a0 * m.b1), Wrap32(m.a1 * m.b0),
      m.prod11, m.prod00, m.prod01, m.prod10,
      MontMultiplier(m.prod11), MontMultiplier(m.prod00), MontMultiplier(m.prod01), MontMultiplier(m.prod10),
      MontResult(m.prod11D1, m.mult11), MontResult(m.prod00D1, m.mult00),
      MontResult(m.prod01D1, m.mult01), MontResult(m.prod10D1, m.mult10),
      m.p00, m.p00D1, m.p00D2, m.p01, m.p01D1, m.p01D2, m.p10, m.p10D1, m.p10D2,
      Wrap32(m.p11 * m.zetaD2), m.zprod, MontMultiplier(m.zprod), MontResult(m.zprodD1, m.zmult),
      zeta, m.zeta, m.zetaD1,
      ptr, m.idx1, m.idx2, m.idx3, m.idx4, m.idx5, m.idx6, m.idx7,
      issue, m.v1, m.v2, m.v3, m.v4, m.v5, m.v6, m.v7)
  }

  predicate MulQuiet(m: MulPipe) {
    !m.v1 && !m.v2 && !m.v3 && !m.v4 && !m.v5 && !m.v6 && !m.v7 && !m.v8
  }

  /** Stage k of clock t holds pair t - k, if that pair exists. */
  predicate Holds(v: bool, idx: nat, t: nat, k: nat) {
    v == (k <= t < k + 128) && (v ==> idx == t - k)
  }

  ghost predicate MulIndices(m: MulPipe, t: nat) {
    && Holds(m.v1, m.idx1, t, 1) && Holds(m.v2, m.idx2, t, 2) && Holds(m.v3, m.idx3, t, 3) && Holds(m.v4, m.idx4, t, 4)
    && Holds(m.v5, m.idx5, t, 5) && Holds(m.v6, m.idx6, t, 6) && Holds(m.v7, m.idx7, t, 7) && Holds(m.v8, m.idx8, t, 8)
  }

  function Prod(x: Poly, y: Poly, i: nat, j: nat): int
    requires i < 256 && j < 256
  {
    Wrap32(x[i] * y[j])
  }

  function Red(x: Poly, y: Poly, i: nat, j: nat): int
    requires i < 256 && j < 256
  {
    FqMul(x[i], y[j])
  }

  ghost predicate MulStages(z: Zetas, x: Poly, y: Poly, m: MulPipe, dout0: int, dout1: int, b0: int, b1: int, t: nat) {
    && MulIndices(m, t)
    && (m.v1 ==> var i := 2 * m.idx1; dout0 == x[i] && dout1 == x[i + 1] && b0 == y[i] && b1 == y[i + 1])
    && (m.v2 ==> var i := 2 * m.idx2; m.a0 == x[i] && m.a1 == x[i + 1] && m.b0 == y[i] && m.b1 == y[i + 1])
    && (m.v3 ==> var i := 2 * m.idx3;
          && m.prod11 == Prod(x, y, i + 1, i + 1) && m.prod00 == Prod(x, y, i, i)
          && m.prod01 == Prod(x, y, i, i + 1) && m.prod10 == Prod(x, y, i + 1, i)
          && m.zeta == PairZeta(z, m.idx3))
    && (m.v4 ==> var i := 2 * m.idx4;
          && m.prod11D1 == Prod(x, y, i + 1, i + 1) && m.prod00D1 == Prod(x, y, i, i)
          && m.prod01D1 == Prod(x, y, i, i + 1) && m.prod10D1 == Prod(x, y, i + 1, i)
          && m.mult11 == MontMultiplier(m.prod11D1) && m.mult00 == MontMultiplier(m.prod00D1)
          && m.mult01 == MontMultiplier(m.prod01D1) && m.mult10 == MontMultiplier(m.prod10D1)
          && m.zetaD1 == PairZeta(z, m.idx4))
    && (m.v5 ==> var i := 2 * m.idx5;
          && m.p11 == Red(x, y, i + 1, i + 1) && m.p00 == Red(x, y, i, i)
          && m.p01 == Red(x, y, i, i + 1) && m.p10 == Red(x, y, i + 1, i)
          && m.zetaD2 == PairZeta(z, m.idx5))
    && (m.v6 ==> var i := 2 * m.idx6;
          && m.zprod == Wrap32(Red(x, y, i + 1, i + 1) * PairZeta(z, m.idx6))
          && m.p00D1 == Red(x, y, i, i) && m.p01D1 == Red(x, y, i, i + 1) && m.p10D1 == Red(x, y, i + 1, i))
    && (m.v7 ==> var i := 2 * m.idx7;
          && m.zprodD1 == Wrap32(Red(x, y, i + 1, i + 1) * PairZeta(z, m.idx7)) && m.zmult == MontMultiplier(m.zprodD1)
          && m.p00D2 == Red(x, y, i, i) && m.p01D2 == Red(x, y, i, i + 1) && m.p10D2 == Red(x, y, i + 1, i))
    && (m.v8 ==> var i := 2 * m.idx8;
          && m.p11z == FqMul(Red(x, y, i + 1, i + 1), PairZeta(z, m.idx8))
          && m.p00D3 == Red(x, y, i, i) && m.p01D3 == Red(x, y, i, i + 1) && m.p10D3 == Red(x, y, i + 1, i))
  }

  /** Result memory at clock t: the pairs that have left the pipeline are written. */
  ghost predicate MulMemory(z: Zetas, x: Poly, y: Poly, r0: Poly, r: Poly, t: nat) {
    forall a: nat :: a < 256 ==> r[a] == if a / 2 + 8 < t then BaseMulWords(z, x, y)[a] else r0[a]
  }

  lemma MulStagesAdvance(z: Zetas, x: Poly, y: Poly, m: MulPipe, dout0: int, dout1: int, b0: int, b1: int, zeta: int,
                         ptr: nat, issue: bool, t: nat, dout0': int, dout1': int, b0': int, b1': int)
    requires MulStages(z, x, y, m, dout0, dout1, b0, b1, t)
    requires issue == (t < 128) && (issue ==> ptr == t)
    requires issue ==> dout0' == x[2 * ptr] && dout1' == x[2 * ptr + 1] && b0' == y[2 * ptr] && b1' == y[2 * ptr + 1]
    requires m.v2 ==> zeta == PairZeta(z, m.idx2)
    ensures MulStages(z, x, y, MulClock(m, dout0, dout1, b0, b1, zeta, ptr, issue), dout0', dout1', b0', b1', t + 1)
  {
    hide MontMultiplier, MontResult, Wrap32, PairZeta;
  }

  lemma MulMemoryAdvance(z: Zetas, x: Poly, y: Poly, m: MulPipe, dout0: int, dout1: int, b0: int, b1: int, t: nat,
                         r0: Poly, r: Poly)
    requires MulStages(z, x, y, m, dout0, dout1, b0, b1, t) && MulMemory(z, x, y, r0, r, t)
    ensures var r' := if m.v8 then r[2 * m.idx8 := Wrap16(m.p11z + m.p00D3)][2 * m.idx8 + 1 := Wrap16(m.p01D3 + m.p10D3)] else r;
      MulMemory(z, x, y, r0, r', t + 1)
  {
    hide FqMul, Wrap16, PairZeta, MontMultiplier, MontResult, Wrap32;
  }

  lemma MulShape(z: Zetas, x: Poly, y: Poly, m: MulPipe, dout0: int, dout1: int, b0: int, b1: int, t: nat)
    requires MulStages(z, x, y, m, dout0, dout1, b0, b1, t)
    ensures MulIndices(m, t)
  {
  }

  lemma MulClockShape(m: MulPipe, dout0: int, dout1: int, b0: int, b1: int, zeta: int, ptr: nat, issue: bool)
    ensures var q := MulClock(m, dout0, dout1, b0, b1, zeta, ptr, issue);
      && q.v1 == issue && q.v2 == m.v1 && q.v3 == m.v2 && q.v4 == m.v3 && q.v5 == m.v4 && q.v6 == m.v5 && q.v7 == m.v6 && q.v8 == m.v7
      && q.idx8 == m.idx7
  {
  }
}
