/** Rejection sampling and the centred binomial distribution (FIPS 203, section 4.2.2). */
module Sampling {
  import opened Bytes
  import opened Codec
  import opened Mac

  // ---------------------------------------------------------------- the standard, rejection

  /** The acceptable 12-bit values of the first t byte triples, in order. */
  function Accepted(z: seq<Byte>, t: nat): (a: seq<nat>)
    requires 3 * t <= |z|
    ensures forall v :: v in a ==> v < 3329
  {
    if t == 0 then []
    else
      var k := 3 * (t - 1);
      Accepted(z, t - 1) + Kept(Decode12(z[k], z[k + 1], z[k + 2], 0)) + Kept(Decode12(z[k], z[k + 1], z[k + 2], 1))
  }

  function Kept(v: nat): seq<nat> { if v < 3329 then [v] else [] }

  lemma AcceptedGrows(z: seq<Byte>, s: nat, t: nat)
    requires s <= t && 3 * t <= |z|
    ensures Accepted(z, s) <= Accepted(z, t)
  {
  }

  // ---------------------------------------------------------------- the standard, binomial

  /** Bit k of a number, and of a byte string read least significant bit first. */
  function Bit(x: nat, k: nat): nat { if k == 0 then x % 2 else Bit(x / 2, k - 1) }

  function StreamBit(z: seq<Byte>, k: nat): nat
    requires k < 8 * |z|
  {
    Bit(z[k / 8], k % 8)
  }

  function BitSum(z: seq<Byte>, k: nat, n: nat): nat
    requires k + n <= 8 * |z|
  {
    if n == 0 then 0 else BitSum(z, k, n - 1) + StreamBit(z, k + n - 1)
  }

  /** Coefficient i: the difference of two sums of eta bits. */
  function Binomial(z: seq<Byte>, eta: nat, i: nat): int
    requires 2 * eta * i + 2 * eta <= 8 * |z|
  {
    BitSum(z, 2 * eta * i, eta) - BitSum(z, 2 * eta * i + eta, eta)
  }

  // ---------------------------------------------------------------- the circuits

  function Shift(x: nat, k: nat): nat { if k == 0 then x else Shift(x / 2, k - 1) }

  const PAIRS := 0x5555_5555
  const TRIPLES := 0x24_9249

  /** Eight coefficients of a 32-bit group: neighbouring bits added in two-bit fields. */
  function Cbd2(w: nat, i: nat): int {
    var d := PairSums(w, PAIRS);
    Shift(d, 4 * i) % 4 - Shift(d, 4 * i + 2) % 4
  }

  function PairSums(w: nat, mask: nat): nat { And(w, mask) + And(w / 2, mask) }

  function TripleSums(w: nat, mask: nat): nat { And(w, mask) + And(w / 2, mask) + And(w / 4, mask) }

  /** Four coefficients of a 24-bit group, in three-bit fields. */
  function Cbd3(w: nat, i: nat): int {
    var d := TripleSums(w, TRIPLES);
    Shift(d, 6 * i) % 8 - Shift(d, 6 * i + 3) % 8
  }

  // ---------------------------------------------------------------- field arithmetic

  function PairMask(n: nat): nat { if n == 0 then 0 else 1 + 4 * PairMask(n - 1) }

  function TripleMask(n: nat): nat { if n == 0 then 0 else 1 + 8 * TripleMask(n - 1) }

  lemma Masks()
    ensures PairMask(16) == PAIRS && TripleMask(8) == TRIPLES
  {
    assert PairMask(4) == 0x55;
    assert PairMask(8) == 0x5555;
    assert PairMask(12) == 0x55_5555;
    assert TripleMask(4) == 0x249;
  }

  lemma AndTwo(x: nat, m: nat)
    ensures And(x, 1 + 4 * m) == x % 2 + 4 * And(x / 4, m)
    ensures And(x, 1 + 8 * m) == x % 2 + 8 * And(x / 8, m)
  {
    assert And(x / 2, 2 * m) == 2 * And(x / 4, m);
    assert And(x / 2, 4 * m) == 2 * And(x / 4, 2 * m);
    assert And(x / 4, 2 * m) == 2 * And(x / 8, m);
  }

  lemma PairSplit(w: nat, m: nat)
    ensures PairSums(w, 1 + 4 * m) == w % 2 + w / 2 % 2 + 4 * PairSums(w / 4, m)
  {
    AndTwo(w, m);
    AndTwo(w / 2, m);
    hide And;
    assert w / 2 / 4 == w / 4 / 2;
  }

  lemma TripleSplit(w: nat, m: nat)
    ensures TripleSums(w, 1 + 8 * m) == w % 2 + w / 2 % 2 + w / 4 % 2 + 8 * TripleSums(w / 8, m)
  {
    AndTwo(w, m);
    AndTwo(w / 2, m);
    AndTwo(w / 4, m);
    hide And;
    assert w / 2 / 8 == w / 8 / 2;
    assert w / 4 / 8 == w / 8 / 4;
  }

  lemma LowBits(w: nat)
    ensures Bit(w, 0) == w % 2 && Bit(w, 1) == w / 2 % 2 && Bit(w, 2) == w / 4 % 2
  {
    assert Bit(w, 1) == Bit(w / 2, 0);
    TwoBits(w, 2);
  }

  /** Two-bit field k of the sum counts bits 2k and 2k + 1. */
  lemma {:induction false} PairField(w: nat, n: nat, k: nat)
    requires k < n
    ensures Shift(PairSums(w, PairMask(n)), 2 * k) % 4 == Bit(w, 2 * k) + Bit(w, 2 * k + 1)
  {
    var d := PairSums(w, PairMask(n));
    hide PairSums, Bit, Shift;
    PairSplit(w, PairMask(n - 1));
    LowBits(w);
    if k == 0 {
      NoShift(d);
    } else {
      PairField(w / 4, n - 1, k - 1);
      FieldAfter(d, w % 2 + w / 2 % 2, PairSums(w / 4, PairMask(n - 1)));
      TwoShifts(d, 2 * k);
      TwoBits(w, 2 * k);
      TwoBits(w, 2 * k + 1);
    }
  }

  lemma NoShift(d: nat)
    ensures Shift(d, 0) == d
  {
  }

  lemma FieldAfter(d: nat, low: nat, rest: nat)
    ensures low < 4 && d == low + 4 * rest ==> d / 2 / 2 == rest
    ensures low < 8 && d == low + 8 * rest ==> d / 8 == rest
  {
  }

  lemma TwoShifts(d: nat, k: nat)
    requires k >= 2
    ensures Shift(d, k) == Shift(d / 2 / 2, k - 2)
  {
    assert Shift(d, k) == Shift(d / 2, k - 1);
  }

  lemma TwoBits(w: nat, k: nat)
    requires k >= 2
    ensures Bit(w, k) == Bit(w / 4, k - 2)
  {
    assert Bit(w, k) == Bit(w / 2, k - 1);
    assert w / 2 / 2 == w / 4;
  }

  /** Three-bit field k of the sum counts bits 3k to 3k + 2. */
  lemma {:induction false} TripleField(w: nat, n: nat, k: nat)
    requires k < n
    ensures Shift(TripleSums(w, TripleMask(n)), 3 * k) % 8 == Bit(w, 3 * k) + Bit(w, 3 * k + 1) + Bit(w, 3 * k + 2)
  {
    var d := TripleSums(w, TripleMask(n));
    hide TripleSums, Bit, Shift;
    TripleSplit(w, TripleMask(n - 1));
    LowBits(w);
    if k == 0 {
      NoShift(d);
    } else {
      TripleField(w / 8, n - 1, k - 1);
      FieldAfter(d, w % 2 + w / 2 % 2 + w / 4 % 2, TripleSums(w / 8, TripleMask(n - 1)));
      ThreeShifts(d, TripleSums(w / 8, TripleMask(n - 1)), 3 * k);
      ThreeBits(w, 3 * k);
      ThreeBits(w, 3 * k + 1);
      ThreeBits(w, 3 * k + 2);
    }
  }

  lemma ThreeShifts(d: nat, rest: nat, k: nat)
    requires k >= 3 && d / 8 == rest
    ensures Shift(d, k) == Shift(rest, k - 3)
  {
    TwoShifts(d, k);
    assert d / 2 / 2 / 2 == rest;
  }

  lemma ThreeBits(w: nat, k: nat)
    requires k >= 3
    ensures Bit(w, k) == Bit(w / 8, k - 3)
  {
    TwoBits(w, k);
    assert Bit(w / 4, k - 2) == Bit(w / 4 / 2, k - 3);
    assert w / 4 / 2 == w / 8;
  }

  // ---------------------------------------------------------------- bits of a group

  lemma EightBits(lo: nat, hi: nat, k: nat)
    requires lo < 256
    ensures Bit(lo + 256 * hi, k) == if k < 8 then Bit(lo, k) else Bit(hi, k - 8)
  {
    BitsOf(lo, hi, k, 8, 256);
  }

  lemma {:induction false} BitsOf(lo: nat, hi: nat, k: nat, n: nat, p: nat)
    requires lo < p && p == Pow2(n)
    ensures Bit(lo + p * hi, k) == if k < n then Bit(lo, k) else Bit(hi, k - n)
    decreases n
  {
    if n == 0 {
      assert p * hi == hi;
    } else {
      var q := Pow2(n - 1);
      Twice(q, hi);
      assert (lo + p * hi) / 2 == lo / 2 + q * hi && (lo + p * hi) % 2 == lo % 2;
      if k > 0 { BitsOf(lo / 2, hi, k - 1, n - 1, q); }
    }
  }

  /** Bits of the little-endian number of a slice are the stream's bits. */
  lemma {:induction false} GroupBit(z: seq<Byte>, k: nat)
    requires k < 8 * |z|
    ensures Bit(Le(z), k) == StreamBit(z, k)
    decreases |z|
  {
    EightBits(z[0], Le(z[1..]), k);
    if k >= 8 { GroupBit(z[1..], k - 8); }
  }

  lemma SliceBit(z: seq<Byte>, a: nat, b: nat, k: nat)
    requires a <= b <= |z| && k < 8 * (b - a)
    ensures Bit(Le(z[a..b]), k) == StreamBit(z, 8 * a + k)
  {
    GroupBit(z[a..b], k);
    assert (8 * a + k) / 8 == a + k / 8 && (8 * a + k) % 8 == k % 8;
  }

  /** The eta-2 circuit computes the standard's coefficients, eight to four bytes. */
  lemma Cbd2IsBinomial(z: seq<Byte>, g: nat, i: nat)
    requires 4 * g + 4 <= |z| && i < 8
    ensures Cbd2(Le(z[4 * g..4 * g + 4]), i) == Binomial(z, 2, 8 * g + i)
  {
    hide And, Le, PairSums, Bit, Shift, PairMask, StreamBit;
    var w := Le(z[4 * g..4 * g + 4]);
    Masks();
    PairField(w, 16, 2 * i);
    PairField(w, 16, 2 * i + 1);
    var k := 4 * (8 * g + i);
    SliceBit(z, 4 * g, 4 * g + 4, 4 * i);
    SliceBit(z, 4 * g, 4 * g + 4, 4 * i + 1);
    SliceBit(z, 4 * g, 4 * g + 4, 4 * i + 2);
    SliceBit(z, 4 * g, 4 * g + 4, 4 * i + 3);
    TwoSum(z, k);
    TwoSum(z, k + 2);
    hide BitSum;
  }

  lemma TwoSum(z: seq<Byte>, k: nat)
    requires k + 2 <= 8 * |z|
    ensures BitSum(z, k, 2) == StreamBit(z, k) + StreamBit(z, k + 1)
  {
    hide StreamBit;
    assert BitSum(z, k, 1) == BitSum(z, k, 0) + StreamBit(z, k);
  }

  lemma ThreeSum(z: seq<Byte>, k: nat)
    requires k + 3 <= 8 * |z|
    ensures BitSum(z, k, 3) == StreamBit(z, k) + StreamBit(z, k + 1) + StreamBit(z, k + 2)
  {
    hide StreamBit;
    TwoSum(z, k);
  }

  /** The eta-3 circuit computes the standard's coefficients, four to three bytes. */
  lemma Cbd3IsBinomial(z: seq<Byte>, g: nat, i: nat)
    requires 3 * g + 3 <= |z| && i < 4
    ensures Cbd3(Le(z[3 * g..3 * g + 3]), i) == Binomial(z, 3, 4 * g + i)
  {
    hide And, Le, TripleSums, Bit, Shift, TripleMask, StreamBit;
    var w := Le(z[3 * g..3 * g + 3]);
    Masks();
    TripleField(w, 8, 2 * i);
    TripleField(w, 8, 2 * i + 1);
    var k := 6 * (4 * g + i);
    SliceBit(z, 3 * g, 3 * g + 3, 6 * i);
    SliceBit(z, 3 * g, 3 * g + 3, 6 * i + 1);
    SliceBit(z, 3 * g, 3 * g + 3, 6 * i + 2);
    SliceBit(z, 3 * g, 3 * g + 3, 6 * i + 3);
    SliceBit(z, 3 * g, 3 * g + 3, 6 * i + 4);
    SliceBit(z, 3 * g, 3 * g + 3, 6 * i + 5);
    ThreeSum(z, k);
    ThreeSum(z, k + 3);
    hide BitSum;
  }

  lemma BitSumRange(z: seq<Byte>, k: nat, n: nat)
    requires k + n <= 8 * |z|
    ensures BitSum(z, k, n) <= n
  {
    if n > 0 {
      BitSumRange(z, k, n - 1);
      BitRange(z[(k + n - 1) / 8], (k + n - 1) % 8);
    }
  }

  lemma BitRange(x: nat, k: nat)
    ensures Bit(x, k) <= 1
  {
  }

  lemma BinomialRange(z: seq<Byte>, eta: nat, i: nat)
    requires 2 * eta * i + 2 * eta <= 8 * |z|
    ensures -(eta as int) <= Binomial(z, eta, i) <= eta
  {
    BitSumRange(z, 2 * eta * i, eta);
    BitSumRange(z, 2 * eta * i + eta, eta);
  }
}
