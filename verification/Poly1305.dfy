/** The radix-2^26 datapath of the fixed 96-byte authenticator, clock by clock. */
module Poly1305 {
  import opened Bytes
  import opened Mac

  // ---------------------------------------------------------------- limbs

  type Limbs = l: seq<nat> | |l| == 5 witness [0, 0, 0, 0, 0]

  const B := 0x400_0000

  function Val(l: Limbs): nat {
    l[0] + 0x400_0000 * l[1] + 0x10_0000_0000_0000 * l[2] + 0x4000_0000_0000_0000_0000 * l[3]
    + 0x100_0000_0000_0000_0000_0000_0000 * l[4]
  }

  /** The five part-selects of a 128-bit word. */
  function Slices(x: nat): Limbs {
    [x % 0x400_0000, x / 0x400_0000 % 0x400_0000, x / 0x10_0000_0000_0000 % 0x400_0000,
     x / 0x4000_0000_0000_0000_0000 % 0x400_0000, x / 0x100_0000_0000_0000_0000_0000_0000]
  }

  lemma SlicesValue(x: nat)
    requires x < TWO128
    ensures Val(Slices(x)) == x && Slices(x)[4] < 0x100_0000
    ensures forall i :: 0 <= i < 4 ==> Slices(x)[i] < 0x400_0000
  {
    var q1 := x / 0x400_0000;
    var q2 := q1 / 0x400_0000;
    var q3 := q2 / 0x400_0000;
    assert x / 0x10_0000_0000_0000 == q2;
    assert x / 0x4000_0000_0000_0000_0000 == q3;
    assert x / 0x100_0000_0000_0000_0000_0000_0000 == q3 / 0x400_0000;
  }

  // ---------------------------------------------------------------- modulo 2^130 - 5

  predicate CongP(a: int, b: int) { (a - b) % P == 0 }

  lemma CongPWitness(a: int, b: int, k: int)
    requires a - b == P * k
    ensures CongP(a, b)
  {
  }

  lemma CongPTrans(a: int, b: int, c: int)
    requires CongP(a, b) && CongP(b, c)
    ensures CongP(a, c)
  {
  }

  lemma CongPAdd(a: int, b: int, c: int, d: int)
    requires CongP(a, b) && CongP(c, d)
    ensures CongP(a + c, b + d)
  {
  }

  lemma CongPScale(s: int, a: int, b: int)
    requires CongP(a, b)
    ensures CongP(s * a, s * b)
  {
    var k := (a - b) / P;
    assert a == b + P * k;
    ScaleWitness(s, b, k);
    CongPWitness(s * a, s * b, s * k);
  }

  lemma ScaleWitness(s: int, b: int, k: int)
    ensures s * (b + P * k) - s * b == P * (s * k)
  {
  }

  // ---------------------------------------------------------------- the 25 products

  /** The multiplier's second operand for output limb j and term i. */
  function Operand(r: Limbs, r5: Limbs, j: nat, i: nat): nat
    requires j < 5 && i < 5
  {
    if i <= j then r[j - i] else r5[j + 5 - i]
  }

  function TermSum(a: Limbs, r: Limbs, r5: Limbs, j: nat, n: nat): nat
    requires j < 5 && n <= 5
  {
    if n == 0 then 0 else TermSum(a, r, r5, j, n - 1) + a[n - 1] * Operand(r, r5, j, n - 1)
  }

  function Products(a: Limbs, r: Limbs, r5: Limbs): Limbs {
    seq(5, j requires 0 <= j < 5 => TermSum(a, r, r5, j, 5))
  }

  function Row(r: Limbs, r5: Limbs, i: nat): Limbs
    requires i < 5
  {
    seq(5, j requires 0 <= j < 5 => Operand(r, r5, j, i))
  }

  lemma RowTimes(s: nat, w: Limbs)
    ensures s * Val(w)
         == s * w[0] + 0x400_0000 * (s * w[1]) + 0x10_0000_0000_0000 * (s * w[2]) + 0x4000_0000_0000_0000_0000 * (s * w[3])
            + 0x100_0000_0000_0000_0000_0000_0000 * (s * w[4])
  {
  }

  /** Columns of the schoolbook product add up to its rows. */
  lemma RowsAndColumns(a: Limbs, r: Limbs, r5: Limbs)
    ensures Val(Products(a, r, r5))
         == a[0] * Val(Row(r, r5, 0)) + a[1] * Val(Row(r, r5, 1)) + a[2] * Val(Row(r, r5, 2))
            + a[3] * Val(Row(r, r5, 3)) + a[4] * Val(Row(r, r5, 4))
  {
    hide Operand;
    forall j: nat | j < 5
      ensures TermSum(a, r, r5, j, 5)
           == a[0] * Row(r, r5, 0)[j] + a[1] * Row(r, r5, 1)[j] + a[2] * Row(r, r5, 2)[j] + a[3] * Row(r, r5, 3)[j] + a[4] * Row(r, r5, 4)[j]
    {
      assert TermSum(a, r, r5, j, 1) == a[0] * Row(r, r5, 0)[j];
      assert TermSum(a, r, r5, j, 2) == a[0] * Row(r, r5, 0)[j] + a[1] * Row(r, r5, 1)[j];
      assert TermSum(a, r, r5, j, 4) == TermSum(a, r, r5, j, 2) + a[2] * Row(r, r5, 2)[j] + a[3] * Row(r, r5, 3)[j];
    }
    RowTimes(a[0], Row(r, r5, 0));
    RowTimes(a[1], Row(r, r5, 1));
    RowTimes(a[2], Row(r, r5, 2));
    RowTimes(a[3], Row(r, r5, 3));
    RowTimes(a[4], Row(r, r5, 4));
  }

  /** Shifting a row by one limb multiplies it by the radix, since 2^130 is 5. */
  lemma RowShift(r: Limbs, r5: Limbs, i: nat)
    requires i < 4 && forall k :: 0 <= k < 5 ==> r5[k] == 5 * r[k]
    ensures CongP(Val(Row(r, r5, i + 1)), 0x400_0000 * Val(Row(r, r5, i)))
  {
    CongPWitness(Val(Row(r, r5, i + 1)), 0x400_0000 * Val(Row(r, r5, i)), -(r[4 - i] as int));
  }

  function RadixPower(i: nat): nat { if i == 0 then 1 else 0x400_0000 * RadixPower(i - 1) }

  lemma {:induction false} RowPower(r: Limbs, r5: Limbs, i: nat)
    requires i < 5 && forall k :: 0 <= k < 5 ==> r5[k] == 5 * r[k]
    ensures CongP(Val(Row(r, r5, i)), RadixPower(i) * Val(r))
  {
    if i == 0 {
      assert Row(r, r5, 0) == r;
      CongPWitness(Val(r), 1 * Val(r), 0);
    } else {
      hide CongP, Val, Row;
      RowPower(r, r5, i - 1);
      RowShift(r, r5, i - 1);
      CongPScale(0x400_0000, Val(Row(r, r5, i - 1)), RadixPower(i - 1) * Val(r));
      Regroup(RadixPower(i - 1), Val(r));
      CongPTrans(Val(Row(r, r5, i)), 0x400_0000 * Val(Row(r, r5, i - 1)), RadixPower(i) * Val(r));
    }
  }

  lemma Regroup(p: nat, v: nat)
    ensures 0x400_0000 * (p * v) == (0x400_0000 * p) * v
  {
  }

  lemma RowScaled(s: nat, r: Limbs, r5: Limbs, i: nat)
    requires i < 5 && forall k :: 0 <= k < 5 ==> r5[k] == 5 * r[k]
    ensures CongP(s * Val(Row(r, r5, i)), (RadixPower(i) * s) * Val(r))
  {
    hide CongP, Val, Row, RadixPower;
    RowPower(r, r5, i);
    CongPScale(s, Val(Row(r, r5, i)), RadixPower(i) * Val(r));
    Reorder(s, RadixPower(i), Val(r));
  }

  lemma Reorder(s: nat, p: nat, v: nat)
    ensures s * (p * v) == (p * s) * v
  {
  }

  /** The shared multiplier's 25 products are a * r modulo 2^130 - 5. */
  lemma ProductValue(a: Limbs, r: Limbs, r5: Limbs)
    requires forall k :: 0 <= k < 5 ==> r5[k] == 5 * r[k]
    ensures CongP(Val(Products(a, r, r5)), Val(a) * Val(r))
  {
    hide CongP, Row, Products;
    RowsAndColumns(a, r, r5);
    var v := Val(r);
    forall i: nat | i < 5 ensures CongP(a[i] * Val(Row(r, r5, i)), (RadixPower(i) * a[i]) * v) { RowScaled(a[i], r, r5, i); }
    Powers();
    hide Val;
    CongPAdd(a[0] * Val(Row(r, r5, 0)), (RadixPower(0) * a[0]) * v, a[1] * Val(Row(r, r5, 1)), (RadixPower(1) * a[1]) * v);
    CongPAdd(a[0] * Val(Row(r, r5, 0)) + a[1] * Val(Row(r, r5, 1)), (RadixPower(0) * a[0]) * v + (RadixPower(1) * a[1]) * v,
             a[2] * Val(Row(r, r5, 2)), (RadixPower(2) * a[2]) * v);
    CongPAdd(a[0] * Val(Row(r, r5, 0)) + a[1] * Val(Row(r, r5, 1)) + a[2] * Val(Row(r, r5, 2)),
             (RadixPower(0) * a[0]) * v + (RadixPower(1) * a[1]) * v + (RadixPower(2) * a[2]) * v,
             a[3] * Val(Row(r, r5, 3)), (RadixPower(3) * a[3]) * v);
    CongPAdd(a[0] * Val(Row(r, r5, 0)) + a[1] * Val(Row(r, r5, 1)) + a[2] * Val(Row(r, r5, 2)) + a[3] * Val(Row(r, r5, 3)),
             (RadixPower(0) * a[0]) * v + (RadixPower(1) * a[1]) * v + (RadixPower(2) * a[2]) * v + (RadixPower(3) * a[3]) * v,
             a[4] * Val(Row(r, r5, 4)), (RadixPower(4) * a[4]) * v);
    SumTimes(a, v);
  }

  lemma Powers()
    ensures RadixPower(0) == 1 && RadixPower(1) == 0x400_0000 && RadixPower(2) == 0x10_0000_0000_0000
    ensures RadixPower(3) == 0x4000_0000_0000_0000_0000 && RadixPower(4) == 0x100_0000_0000_0000_0000_0000_0000
  {
  }

  lemma SumTimes(a: Limbs, v: nat)
    ensures (RadixPower(0) * a[0]) * v + (RadixPower(1) * a[1]) * v + (RadixPower(2) * a[2]) * v + (RadixPower(3) * a[3]) * v
            + (RadixPower(4) * a[4]) * v == Val(a) * v
  {
    Powers();
    hide RadixPower;
  }

  // ---------------------------------------------------------------- bounds

  /** After every block only limb 1 can reach the radix. */
  ghost predicate Settled(h: Limbs) {
    h[0] < B && h[1] < B + 64 && h[2] < B && h[3] < B && h[4] < B
  }

  /** An accumulator plus a message block. */
  ghost predicate Loaded(a: Limbs) { forall i :: 0 <= i < 5 ==> a[i] < 2 * B + 64 }

  ghost predicate KeyFits(r: Limbs, r5: Limbs) {
    forall i :: 0 <= i < 5 ==> r[i] < B && r5[i] == 5 * r[i]
  }

  /** The largest product fits its 57-bit register. */
  const TERM := 0xA0_0005_0000_0000

  lemma TermFits(a: Limbs, r: Limbs, r5: Limbs, j: nat, i: nat)
    requires j < 5 && i < 5 && Loaded(a) && KeyFits(r, r5)
    ensures a[i] * Operand(r, r5, j, i) <= TERM < 0x200_0000_0000_0000
    ensures i <= j ==> 5 * (a[i] * Operand(r, r5, j, i)) <= TERM
  {
    var x, y := a[i], Operand(r, r5, j, i);
    assert y <= 5 * B;
    Below(x, y, 2 * B + 64, if i <= j then B else 5 * B);
  }

  lemma Below(x: nat, y: nat, a: nat, b: nat)
    requires x <= a && y <= b
    ensures x * y <= a * b
  {
    assert x * y <= x * b by { assert x * (b - y) >= 0; }
    assert x * b <= a * b by { assert (a - x) * b >= 0; }
  }

  lemma {:induction false} SumFits(a: Limbs, r: Limbs, r5: Limbs, j: nat, n: nat)
    requires j < 5 && n <= 5 && Loaded(a) && KeyFits(r, r5)
    ensures TermSum(a, r, r5, j, n) <= n * TERM < 0x1_0000_0000_0000_0000
    ensures j == 4 ==> 5 * TermSum(a, r, r5, j, n) <= n * TERM
  {
    if n > 0 {
      SumFits(a, r, r5, j, n - 1);
      TermFits(a, r, r5, j, n - 1);
    }
  }

  // ---------------------------------------------------------------- carries

  const LIMB_MASK := 0x3ff_ffff

  lemma LowLimb(x: nat)
    ensures And(x, LIMB_MASK) == x % B
  {
    PowersOfTwo();
    AndOnes(26, x);
  }

  /** One carry per clock; the last one wraps around with weight five. */
  function Carried(d: Limbs, k: nat): Limbs
    requires k < 5
  {
    if k < 4 then d[k := And(d[k], LIMB_MASK)][k + 1 := (d[k + 1] + d[k] / B) % 0x1_0000_0000_0000_0000]
    else d[4 := And(d[4], LIMB_MASK)][0 := (d[0] + d[4] / B * 5) % 0x1_0000_0000_0000_0000]
  }

  /** Carry k is about to be taken: the limbs before it are done, limb 4 stays small. */
  ghost predicate Carrying(d: Limbs, k: nat)
    requires k <= 5
  {
    && (forall i :: 0 <= i < 5 && i < k ==> i != 0 || k < 5 ==> d[i] < B)
    && (forall i :: 0 <= i < 4 && i > k ==> d[i] <= 5 * TERM)
    && (k < 4 ==> d[k] <= 5 * TERM + 0x1_0000_0000 && d[4] <= TERM)
    && (k == 4 ==> d[4] <= TERM + 0x1_0000_0000)
    && (k == 5 ==> d[0] < B + 0xc800_0800)
  }

  lemma CarryStep(d: Limbs, k: nat)
    requires k < 5 && Carrying(d, k)
    ensures Carrying(Carried(d, k), k + 1)
    ensures CongP(Val(Carried(d, k)), Val(d))
  {
    hide And, CongP, Val;
    LowLimb(d[k]);
    if k < 4 { CarryValue(d, k, d[k] / B); } else { WrapValue(d, d[4] / B); }
  }

  lemma CarryValue(d: Limbs, k: nat, c: nat)
    requires k < 4 && B * c <= d[k]
    ensures CongP(Val(d[k := d[k] - B * c][k + 1 := d[k + 1] + c]), Val(d))
  {
    CongPWitness(Val(d[k := d[k] - B * c][k + 1 := d[k + 1] + c]), Val(d), 0);
  }

  lemma WrapValue(d: Limbs, c: nat)
    requires B * c <= d[4]
    ensures CongP(Val(d[4 := d[4] - B * c][0 := d[0] + c * 5]), Val(d))
  {
    CongPWitness(Val(d[4 := d[4] - B * c][0 := d[0] + c * 5]), Val(d), -(c as int));
  }

  /** The sixth carry step, into the 27-bit limb registers. */
  function Stored(d: Limbs): Limbs {
    [d[0] % B, (d[1] + d[0] / B) % 0x800_0000, d[2] % 0x800_0000, d[3] % 0x800_0000, d[4] % 0x800_0000]
  }

  lemma StoredStep(d: Limbs)
    requires Carrying(d, 5)
    ensures Settled(Stored(d)) && Val(Stored(d)) == Val(d)
  {
  }

  // ---------------------------------------------------------------- packing

  /** Bit 26 and the 26 bits below it. */
  function Carry(x: nat): nat { x / 0x400_0000 % 2 }
  function Low(x: nat): nat { x % 0x400_0000 }

  /** Carry ripple and concatenation of the five limbs. */
  function Packed(h: Limbs): nat {
    var p2 := (h[2] + Carry(h[1])) % 0x800_0000;
    var p3 := (h[3] + Carry(p2)) % 0x800_0000;
    var p4 := (h[4] + Carry(p3)) % 0x800_0000;
    Val([Low(h[0]), Low(h[1]), Low(p2), Low(p3), p4])
  }

  function Reduced(v: nat): nat { if v >= P then v - P else v }

  lemma CarryLow(x: nat)
    requires x < 0x800_0000
    ensures x == 0x400_0000 * Carry(x) + Low(x) && Carry(x) <= 1
    ensures x < 0x400_0000 ==> Low(x) == x
    ensures x % 0x800_0000 == x
  {
  }

  lemma RippleValue(h: Limbs, c1: nat, c2: nat, c3: nat)
    requires 0x400_0000 * c1 <= h[1] && 0x400_0000 * c2 <= h[2] + c1 && 0x400_0000 * c3 <= h[3] + c2
    ensures Val([h[0], h[1] - 0x400_0000 * c1, h[2] + c1 - 0x400_0000 * c2, h[3] + c2 - 0x400_0000 * c3, h[4] + c3]) == Val(h)
  {
  }

  lemma PackedValue(h: Limbs)
    requires Settled(h)
    ensures Packed(h) == Val(h)
  {
    hide Carry, Low, Val;
    CarryLow(h[0]);
    CarryLow(h[1]);
    CarryLow(h[2] + Carry(h[1]));
    CarryLow(h[3] + Carry(h[2] + Carry(h[1])));
    CarryLow(h[4] + Carry(h[3] + Carry(h[2] + Carry(h[1]))));
    RippleValue(h, Carry(h[1]), Carry(h[2] + Carry(h[1])), Carry(h[3] + Carry(h[2] + Carry(h[1]))));
  }

  lemma SettledBelow(h: Limbs)
    requires Settled(h)
    ensures Val(h) < 2 * P
  {
  }

  /** Packing loses nothing and stays below 2p, so one conditional subtraction is canonical. */
  lemma PackedIsCanonical(h: Limbs, m: nat)
    requires Settled(h) && CongP(Val(h), m) && m < P
    ensures Packed(h) == Val(h) < 2 * P
    ensures Reduced(Packed(h)) == m
  {
    hide Packed, Val, CongP, Settled, Reduced;
    PackedValue(h);
    SettledBelow(h);
    ReducedUnique(Val(h), m);
  }

  lemma ReducedUnique(v: nat, m: nat)
    requires v < 2 * P && CongP(v, m) && m < P
    ensures Reduced(v) == m
  {
  }

  // ---------------------------------------------------------------- registers

  datatype State = Idle | LoadBlock | Select | Multiply | Accumulate | Norm(k: nat) | Pack | Reduce | Final

  type Message = m: seq<Byte> | |m| == 96 witness seq(96, _ => 0)

  /** Key limbs, their multiples by five, and the addend. */
  datatype KeyRegs = KeyRegs(r: Limbs, r5: Limbs, s: nat)

  /** The multiply-accumulate loop. */
  datatype MacRegs = MacRegs(a: Limbs, acc: nat, mulA: nat, mulB: nat, product: nat, output: nat, term: nat)

  datatype Regs = Regs(
    state: State, key: KeyRegs, message: Message, h: Limbs, mac: MacRegs, d: Limbs,
    hValue: nat, canonical: nat, block: nat, busy: bool, done: bool, tag: nat)

  function KeyEdge(key: Key): KeyRegs {
    var l := Slices(And(Le(key[..16]), R_CLAMP_MASK));
    KeyRegs(l, seq(5, i requires 0 <= i < 5 => l[i] * 5 % 0x2000_0000), Le(key[16..]))
  }

  /** The current block's limbs; the mandatory one sits above the top part-select. */
  function MessageLimbs(message: Message, block: nat): Limbs
    requires block < 6
  {
    var l := Slices(Le(message[16 * block..16 * block + 16]));
    l[4 := 0x100_0000 + l[4]]
  }

  function MacEdge(x: Regs): Regs
    requires x.mac.output < 5 && x.mac.term < 5
  {
    var m := x.mac;
    match x.state
    case Select =>
      x.(mac := m.(mulA := m.a[m.term], mulB := Operand(x.key.r, x.key.r5, m.output, m.term)), state := Multiply)
    case Multiply => x.(mac := m.(product := m.mulA * m.mulB % 0x200_0000_0000_0000), state := Accumulate)
    case _ =>
      var sum := (m.acc + m.product) % 0x1_0000_0000_0000_0000;
      if m.term == 4 then
        var y := x.(d := x.d[m.output := sum]);
        if m.output == 4 then y.(mac := m.(acc := 0, term := 0), state := Norm(0))
        else y.(mac := m.(acc := 0, term := 0, output := m.output + 1), state := Select)
      else x.(mac := m.(acc := sum, term := m.term + 1), state := Select)
  }

  function Added(h: Limbs, m: Limbs): Limbs {
    seq(5, i requires 0 <= i < 5 => (h[i] + m[i]) % 0x1000_0000)
  }

  function LoadEdge(x: Regs): Regs
    requires x.block < 6
  {
    var m := MessageLimbs(x.message, x.block);
    x.(mac := x.mac.(a := Added(x.h, m), acc := 0, output := 0, term := 0),
       state := Select)
  }

  function NormEdge(x: Regs): Regs
    requires x.state.Norm? && x.state.k <= 5
  {
    if x.state.k < 5 then x.(d := Carried(x.d, x.state.k), state := Norm(x.state.k + 1))
    else
      var y := x.(h := Stored(x.d));
      if x.block == 5 then y.(state := Pack) else y.(block := x.block + 1, state := LoadBlock)
  }

  predicate InRange(x: Regs) {
    x.block < 6 && x.mac.output < 5 && x.mac.term < 5 && (x.state.Norm? ==> x.state.k <= 5)
  }

  /** Next value of every register. */
  function Edge(x: Regs, start: bool, key: Key, message: Message): Regs
    requires InRange(x)
  {
    var x := x.(done := false);
    match x.state
    case Idle =>
      if start then x.(key := KeyEdge(key), h := [0, 0, 0, 0, 0], message := message, block := 0, busy := true, state := LoadBlock)
      else x
    case LoadBlock => LoadEdge(x)
    case Norm(_) => NormEdge(x)
    case Pack => x.(hValue := Packed(x.h), state := Reduce)
    case Reduce => x.(canonical := Reduced(x.hValue), state := Final)
    case Final => x.(tag := (x.canonical % TWO128 + x.key.s) % TWO128, busy := false, done := true, state := Idle)
    case _ => MacEdge(x)
  }

  // ---------------------------------------------------------------- what every register means

  /** The key and the message of the running command. */
  datatype Job = Job(key: Key, message: Message)

  ghost function Rk(j: Job): nat { Le(Clamped(j.key)) }

  ghost function Acc(j: Job, k: nat): nat
    requires k <= 6
  {
    Accumulated(Rk(j), j.message, k)
  }

  ghost predicate Keyed(k: KeyRegs, j: Job) {
    KeyFits(k.r, k.r5) && Val(k.r) == Rk(j) && k.s == Le(j.key[16..])
  }

  /** The products below the current one are accumulated, and the whole loop will be worth the
      next accumulator. */
  ghost predicate Working(x: Regs, j: Job)
    requires x.mac.output < 5 && x.mac.term < 5 && x.block < 6
  {
    var m := x.mac;
    && Loaded(m.a) && CongP(Val(m.a) * Rk(j), Acc(j, x.block + 1))
    && m.acc == TermSum(m.a, x.key.r, x.key.r5, m.output, m.term)
    && forall i :: 0 <= i < m.output ==> x.d[i] == TermSum(m.a, x.key.r, x.key.r5, i, 5)
  }

  ghost predicate Inv(x: Regs, j: Job) {
    && InRange(x) && x.busy == !x.state.Idle?
    && (!x.state.Idle? ==> Keyed(x.key, j) && x.message == j.message && !x.done)
    && match x.state
       case Idle => true
       case LoadBlock => Settled(x.h) && CongP(Val(x.h), Acc(j, x.block))
       case Select => Working(x, j)
       case Multiply =>
         Working(x, j) && x.mac.mulA == x.mac.a[x.mac.term] && x.mac.mulB == Operand(x.key.r, x.key.r5, x.mac.output, x.mac.term)
       case Accumulate =>
         Working(x, j) && x.mac.product == x.mac.a[x.mac.term] * Operand(x.key.r, x.key.r5, x.mac.output, x.mac.term)
       case Norm(k) => Carrying(x.d, k) && CongP(Val(x.d), Acc(j, x.block + 1))
       case Pack => x.block == 5 && Settled(x.h) && CongP(Val(x.h), Acc(j, 6))
       case Reduce => x.block == 5 && Reduced(x.hValue) == Acc(j, 6)
       case Final => x.block == 5 && x.canonical == Acc(j, 6)
  }

  /** Clocks left before the done pulse. */
  function Left(x: Regs): int {
    if x.state.Idle? then 0
    else
      82 * (5 - x.block) +
      match x.state
      case LoadBlock => 85
      case Select => 84 - 3 * (5 * x.mac.output + x.mac.term)
      case Multiply => 83 - 3 * (5 * x.mac.output + x.mac.term)
      case Accumulate => 82 - 3 * (5 * x.mac.output + x.mac.term)
      case Norm(k) => 9 - k
      case Pack => 3
      case Reduce => 2
      case _ => 1
  }

  // ---------------------------------------------------------------- steps

  lemma KeyStep(j: Job)
    ensures Keyed(KeyEdge(j.key), j)
  {
    hide And, R_CLAMP_MASK, Val;
    MaskClamps(j.key);
    LeBelow(Clamped(j.key));
    Pow16();
    hide Slices, Le;
    SlicesValue(Rk(j));
  }

  /** Block limbs: no addition leaves its 28-bit register. */
  lemma LimbsAdd(h: Limbs, m: Limbs)
    requires Settled(h) && forall i :: 0 <= i < 5 ==> m[i] < B
    ensures var a := Added(h, m); Loaded(a) && Val(a) == Val(h) + Val(m)
  {
    var a := Added(h, m);
    forall i: nat | i < 5 ensures a[i] == h[i] + m[i] < 2 * B + 64 { NoWrap(h[i] + m[i]); }
    hide Added;
  }

  lemma NoWrap(x: nat)
    requires x < 2 * B + 64
    ensures x % 0x1000_0000 == x
  {
  }

  lemma BlockLimbs(message: Message, block: nat)
    requires block < 6
    ensures var m := MessageLimbs(message, block);
      Val(m) == Le(Block(message, block)) && forall i :: 0 <= i < 5 ==> m[i] < B
  {
    hide Le, Slices;
    BlockValue(message, block);
    SlicesValue(Le(message[16 * block..16 * block + 16]));
  }

  lemma BlockLoads(x: Regs, j: Job)
    requires Inv(x, j) && x.state == LoadBlock
    ensures Inv(LoadEdge(x), j) && Left(LoadEdge(x)) == Left(x) - 1 && !LoadEdge(x).done
  {
    hide Le, MessageLimbs, Accumulated, CongP, Added, Val, Rk, Settled, Loaded;
    var m := MessageLimbs(x.message, x.block);
    BlockLimbs(x.message, x.block);
    LimbsAdd(x.h, m);
    NextAcc(j, x.block, Val(x.h), Val(Added(x.h, m)));
  }

  lemma NextAcc(j: Job, k: nat, h: nat, a: nat)
    requires k < 6 && CongP(h, Acc(j, k)) && a == h + Le(Block(j.message, k))
    ensures CongP(a * Rk(j), Acc(j, k + 1))
  {
    hide Le, Clamped;
    var b := Acc(j, k) + Le(Block(j.message, k));
    assert CongP(a, b);
    CongPScale(Rk(j), a, b);
    CongPOfMod(b * Rk(j));
    CongPTrans(a * Rk(j), b * Rk(j), Acc(j, k + 1));
  }

  lemma CongPOfMod(a: int)
    ensures CongP(a, a % P)
  {
  }

  lemma MacStep(x: Regs, j: Job)
    requires Inv(x, j) && x.state in {Select, Multiply, Accumulate}
    ensures Inv(MacEdge(x), j) && Left(MacEdge(x)) == Left(x) - 1 && !MacEdge(x).done && MacEdge(x).state != Idle
  {
    hide Le, Accumulated, CongP, Val, Rk, Operand, Clamped;
    var m := x.mac;
    TermFits(m.a, x.key.r, x.key.r5, m.output, m.term);
    SumFits(m.a, x.key.r, x.key.r5, m.output, m.term + 1);
    if x.state == Accumulate && m.term == 4 && m.output == 4 {
      var y := MacEdge(x);
      assert y.d == Products(m.a, x.key.r, x.key.r5);
      ProductValue(m.a, x.key.r, x.key.r5);
      CongPTrans(Val(y.d), Val(m.a) * Val(x.key.r), Acc(j, x.block + 1));
      ProductsFit(m.a, x.key.r, x.key.r5);
    }
  }

  lemma ProductsFit(a: Limbs, r: Limbs, r5: Limbs)
    requires Loaded(a) && KeyFits(r, r5)
    ensures Carrying(Products(a, r, r5), 0)
  {
    hide TermSum;
    forall j: nat | j < 5
      ensures TermSum(a, r, r5, j, 5) <= 5 * TERM && (j == 4 ==> TermSum(a, r, r5, j, 5) <= TERM)
    {
      SumFits(a, r, r5, j, 5);
    }
  }

  lemma NormStep(x: Regs, j: Job)
    requires Inv(x, j) && x.state.Norm?
    ensures Inv(NormEdge(x), j) && Left(NormEdge(x)) == Left(x) - 1 && !NormEdge(x).done && NormEdge(x).state != Idle
  {
    hide Le, Accumulated, CongP, Val, Carried, Stored;
    if x.state.k < 5 {
      CarryStep(x.d, x.state.k);
      CongPTrans(Val(Carried(x.d, x.state.k)), Val(x.d), Acc(j, x.block + 1));
    } else {
      StoredStep(x.d);
    }
  }

  /** The whole edge: registers keep their meaning, the clock counts, and the tag is exact. */
  lemma EdgeKeeps(x: Regs, start: bool, key: Key, message: Message, j: Job)
    requires Inv(x, j)
    requires x.state == Idle && start ==> j == Job(key, message)
    ensures var y := Edge(x, start, key, message);
      && Inv(y, j)
      && (!x.state.Idle? ==> Left(y) == Left(x) - 1)
      && (y.done <==> !x.state.Idle? && Left(y) == 0)
      && (y.done ==> y.tag == Tag(j.key, j.message))
  {
    hide Le, CongP, Val, Working, KeyEdge, LoadEdge, NormEdge, MacEdge, Packed, Reduced, Carrying, Settled, Accumulated, Keyed;
    var y := Edge(x, start, key, message);
    match x.state {
    case Idle => if start { KeyStep(j); ZeroAcc(j); }
    case LoadBlock => BlockLoads(x.(done := false), j);
    case Norm(_) => NormStep(x.(done := false), j);
    case Pack => AccumulatedBelow(Rk(j), j.message, 6); PackedIsCanonical(x.h, Acc(j, 6));
    case Reduce =>
    case Final => FinalTag(x, j);
    case _ => MacStep(x.(done := false), j);
    }
    LeftCounts(y, j);
  }

  lemma LeftCounts(x: Regs, j: Job)
    requires Inv(x, j)
    ensures if x.state.Idle? then Left(x) == 0 else 0 < Left(x) <= 495
  {
    hide Keyed, Working, Carrying, CongP, Settled, Accumulated;
  }

  lemma ZeroAcc(j: Job)
    ensures Settled([0, 0, 0, 0, 0]) && CongP(Val([0, 0, 0, 0, 0]), Acc(j, 0))
  {
  }

  lemma FinalTag(x: Regs, j: Job)
    requires x.canonical == Acc(j, 6) && Keyed(x.key, j)
    ensures (x.canonical % TWO128 + x.key.s) % TWO128 == Tag(j.key, j.message)
  {
    hide Le, Accumulated, KeyFits, Val;
  }

  // ---------------------------------------------------------------- the machine

  class Poly1305Fixed96 {
    var x: Regs
    ghost var job: Job

    ghost predicate Valid()
      reads this
    {
      Inv(x, job)
    }

    constructor ()
      ensures Valid() && x.state == Idle && !x.done
    {
      var zero := [0, 0, 0, 0, 0];
      x := Regs(Idle, KeyRegs(zero, zero, 0), seq(96, _ => 0), zero, MacRegs(zero, 0, 0, 0, 0, 0, 0), zero, 0, 0, 0, false, false, 0);
    }

    /** One rising edge.  A start in the idle state takes 495 more clocks; at the done pulse, and
        only then, the tag register holds the authenticator of the message under the key. */
    method Clock(start: bool, key: Key, message: Message)
      requires Valid()
      modifies this
      ensures Valid() && (x.busy <==> Left(x) > 0)
      ensures old(x.state) == Idle && start ==> Left(x) == 495 && job == Job(key, message) && !x.done
      ensures old(x.state) == Idle && !start ==> x == old(x).(done := false)
      ensures old(x.state) != Idle ==> Left(x) == old(Left(x)) - 1 && job == old(job) && (x.done <==> Left(x) == 0)
      ensures x.done ==> x.tag == Tag(job.key, job.message)
    {
      hide Keyed, Working, Tag, KeyEdge, LoadEdge, NormEdge, MacEdge, Carrying, CongP, Settled, Accumulated;
      if x.state == Idle && start { job := Job(key, message); }
      EdgeKeeps(x, start, key, message, job);
      x := Edge(x, start, key, message);
      LeftCounts(x, job);
    }

    /** A whole command: 495 clocks after its start the tag is exact. */
    method Authenticate(key: Key, message: Message) returns (tag: nat)
      requires Valid() && x.state == Idle
      modifies this
      ensures Valid() && x.state == Idle && x.done
      ensures tag == x.tag == Tag(key, message)
    {
      hide Inv, Tag, Left;
      Clock(true, key, message);
      IdleWhenDone(x, job);
      while !x.done
        invariant Valid() && job == Job(key, message)
        invariant if x.done then x.state == Idle && x.tag == Tag(key, message) else x.state != Idle && Left(x) > 0
        decreases Left(x)
      {
        Clock(false, key, message);
        IdleWhenDone(x, job);
      }
      tag := x.tag;
    }
  }

  lemma IdleWhenDone(x: Regs, j: Job)
    requires Inv(x, j)
    ensures x.done ==> x.state == Idle
    ensures x.busy <==> x.state != Idle
  {
    hide Keyed, Working, Carrying, CongP, Settled, Accumulated;
  }
}
