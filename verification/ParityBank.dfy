/** The coefficient memory split in two by address parity, and the order in which a layer visits it. */
module ParityBank {
  import opened ModQ
  import opened Ring

  type Bank = s: seq<int> | |s| == 128 witness seq(128, _ => 0)

  /** Exclusive-or of the address bits. */
  function Parity(a: nat): (p: nat)
    ensures p < 2
  {
    if a == 0 then 0 else (a % 2 + Parity(a / 2)) % 2
  }

  /** The 256 coefficients the two half-size banks stand for. */
  function View(even: Bank, odd: Bank): Poly {
    seq(256, a requires 0 <= a < 256 => if Parity(a) == 0 then even[a / 2] else odd[a / 2])
  }

  /** Two addresses share a bank word only if they are the same address. */
  lemma PlaceUnique(a: nat, b: nat)
    requires a < 256 && b < 256 && Parity(a) == Parity(b) && a / 2 == b / 2
    ensures a == b
  {
  }

  // ---------------------------------------------------------------- port routing

  /** Index presented to the even bank by a request pair; the first address's parity decides. */
  function EvenIndex(a: nat, b: nat): nat {
    if Parity(a) == 1 then b / 2 else a / 2
  }

  function OddIndex(a: nat, b: nat): nat {
    if Parity(a) == 1 then a / 2 else b / 2
  }

  lemma EvenIndexRange(a: nat, b: nat)
    requires a < 256 && b < 256
    ensures EvenIndex(a, b) < 128 && OddIndex(a, b) < 128
  {
  }

  /** The two words read, put back in request order. */
  lemma ReadPair(even: Bank, odd: Bank, a: nat, b: nat)
    requires a < 256 && b < 256
    ensures View(even, odd)[a] == if Parity(a) == 1 then odd[OddIndex(a, b)] else even[EvenIndex(a, b)]
    ensures Parity(a) != Parity(b) ==>
      View(even, odd)[b] == if Parity(a) == 1 then even[EvenIndex(a, b)] else odd[OddIndex(a, b)]
  {
  }

  function Written(bank: Bank, enable: bool, index: nat, word: int): Bank
    requires index < 128
  {
    if enable then bank[index := word] else bank
  }

  /** What one clock does to the even and the odd bank, given a pair of write requests. */
  function EvenAfter(bank: Bank, a: nat, b: nat, wa: bool, wb: bool, x: int, y: int): Bank
    requires a < 256 && b < 256
  {
    if Parity(a) == 1 then Written(bank, wb, EvenIndex(a, b), y) else Written(bank, wa, EvenIndex(a, b), x)
  }

  function OddAfter(bank: Bank, a: nat, b: nat, wa: bool, wb: bool, x: int, y: int): Bank
    requires a < 256 && b < 256
  {
    if Parity(a) == 1 then Written(bank, wa, OddIndex(a, b), x) else Written(bank, wb, OddIndex(a, b), y)
  }

  /** Routing is invisible: a pair of opposite parity is simply written, both words at once. */
  lemma WritePair(even: Bank, odd: Bank, a: nat, b: nat, wa: bool, wb: bool, x: int, y: int)
    requires a < 256 && b < 256 && (wb ==> Parity(a) != Parity(b))
    ensures View(EvenAfter(even, a, b, wa, wb, x, y), OddAfter(odd, a, b, wa, wb, x, y))
         == WritePort(WritePort(View(even, odd), wa, a, x), wb, b, y)
  {
    var v := View(EvenAfter(even, a, b, wa, wb, x, y), OddAfter(odd, a, b, wa, wb, x, y));
    forall c: nat | c < 256
      ensures v[c] == WritePort(WritePort(View(even, odd), wa, a, x), wb, b, y)[c]
    {
      if Parity(c) == Parity(a) && c / 2 == a / 2 { PlaceUnique(a, c); }
      if Parity(c) == Parity(b) && c / 2 == b / 2 { PlaceUnique(b, c); }
    }
  }

  function WritePort(f: Poly, enable: bool, a: nat, word: int): Poly
    requires a < 256
  {
    if enable then f[a := word] else f
  }

  // ---------------------------------------------------------------- the pairs of a layer

  /** a is the first address of a butterfly of layer l. */
  predicate IsLow(l: nat, a: nat)
    requires 1 <= l <= 7 && a < 256
  {
    Within(l - 1, a) < Span(l)
  }

  /** First address of the butterfly that touches a. */
  function LowOf(l: nat, a: nat): (c: nat)
    requires 1 <= l <= 7 && a < 256
  {
    LayerShape(l);
    if IsLow(l, a) then a else a - Span(l)
  }

  lemma LayerShape(l: nat)
    requires 1 <= l <= 7
    ensures Width(l - 1) == 2 * Span(l)
    ensures forall a: nat :: a < 256 && !IsLow(l, a) ==> a >= Span(l)
  {
    hide Base, BlockOf, Within;
    ChildBlocks(l, 0);
  }

  /** Every address is the low or the high word of exactly one butterfly; the two words lie in
      one block and in opposite banks. */
  lemma PairFacts(l: nat, a: nat)
    requires 1 <= l <= 7 && a < 256 && IsLow(l, a)
    ensures var m := Span(l);
      && a + m < 256 && !IsLow(l, a + m)
      && BlockOf(l - 1, a + m) == BlockOf(l - 1, a)
      && Parity(a + m) != Parity(a)
  {
    hide Base, BlockOf, Within, Span, Blocks;
    var b, w, m := BlockOf(l - 1, a), Within(l - 1, a), Span(l);
    ChildBlocks(l, b);
    AddressParts(l - 1, b, w + m);
    SpanPower(l, b);
    FlipBit(b, w, m);
  }

  lemma LowIsLow(l: nat, a: nat)
    requires 1 <= l <= 7 && a < 256
    ensures LowOf(l, a) <= a && IsLow(l, LowOf(l, a))
    ensures a == LowOf(l, a) || a == LowOf(l, a) + Span(l)
  {
    hide Base, BlockOf, Within, Span, Blocks;
    var b, w, m := BlockOf(l - 1, a), Within(l - 1, a), Span(l);
    ChildBlocks(l, b);
    if w >= m { AddressParts(l - 1, b, w - m); }
  }

  predicate Pow2(m: nat) { m == 1 || (m > 0 && m % 2 == 0 && Pow2(m / 2)) }

  lemma SpanPower(l: nat, b: nat)
    requires 1 <= l <= 7 && b < Blocks(l - 1)
    ensures Pow2(Span(l)) && Base(l - 1, b) == 2 * (Span(l) * b)
  {
    assert Pow2(2) && Pow2(4) && Pow2(8) && Pow2(16) && Pow2(32) && Pow2(64) && Pow2(128);
  }

  /** Setting a clear address bit changes the parity. */
  lemma {:induction false} FlipBit(b: nat, w: nat, m: nat)
    requires Pow2(m) && w < m
    ensures Parity(2 * (m * b) + w + m) != Parity(2 * (m * b) + w)
    decreases m
  {
    hide Parity;
    var a := 2 * (m * b) + w;
    if m == 1 {
      EvenOdd(b);
    } else {
      var h := m / 2;
      Doubled(m, h, b);
      FlipBit(b, w / 2, h);
      var p := h * b;
      Halved(a, m, h, p, w);
      ParityStep(a);
      ParityStep(a + m);
    }
  }

  lemma Doubled(m: nat, h: nat, b: nat)
    requires m == 2 * h
    ensures m * b == 2 * (h * b)
  {
  }

  lemma Halved(a: nat, m: nat, h: nat, p: nat, w: nat)
    requires m == 2 * h && a == 2 * (2 * p) + w
    ensures a / 2 == 2 * p + w / 2 && (a + m) / 2 == 2 * p + w / 2 + h && (a + m) % 2 == a % 2
  {
  }

  lemma ParityStep(a: nat)
    ensures Parity(a) == (a % 2 + Parity(a / 2)) % 2
  {
  }

  lemma EvenOdd(i: nat)
    ensures Parity(2 * i) != Parity(2 * i + 1)
  {
    assert (2 * i) / 2 == i && (2 * i + 1) / 2 == i;
  }

  /** The counters of the machine walk through the blocks: consecutive blocks are two spans apart. */
  lemma NextBlock(l: nat, b: nat)
    requires 1 <= l <= 7 && b < Blocks(l - 1)
    ensures Base(l - 1, b) + 2 * Span(l) == if b == Blocks(l - 1) - 1 then 256 else Base(l - 1, b + 1)
  {
  }
}
