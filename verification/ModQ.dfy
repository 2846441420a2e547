/** Arithmetic modulo the ML-KEM prime and the two word-level reductions of the datapath.

  Everything the polynomial kernel stores is an integer inside a two's-complement
  register; `Wrap16` and `Wrap32` say what such a register keeps of a wider value. */
module ModQ {

  const Q := 3329

  /** Montgomery radix 2^16 and its inverse modulo Q. */
  const R := 65536
  const RINV := 169

  // ---------------------------------------------------------------- congruence

  predicate Cong(a: int, b: int) {
    (a - b) % 3329 == 0
  }

  lemma CongWitness(a: int, b: int, k: int)
    requires a - b == 3329 * k
    ensures Cong(a, b)
  {
  }

  lemma CongTrans(a: int, b: int, c: int)
    requires Cong(a, b) && Cong(b, c)
    ensures Cong(a, c)
  {
  }

  lemma CongAdd(a: int, b: int, c: int, d: int)
    requires Cong(a, b) && Cong(c, d)
    ensures Cong(a + c, b + d)
  {
  }

  lemma CongSub(a: int, b: int, c: int, d: int)
    requires Cong(a, b) && Cong(c, d)
    ensures Cong(a - c, b - d)
  {
  }

  lemma CongMul(a: int, b: int, c: int, d: int)
    requires Cong(a, b) && Cong(c, d)
    ensures Cong(a * c, b * d)
  {
    var k := (a - b) / 3329;
    var l := (c - d) / 3329;
    assert a == b + 3329 * k && c == d + 3329 * l;
    assert a * c - b * d == 3329 * (k * d + b * l + 3329 * (k * l)) by {
      assert (b + 3329 * k) * (d + 3329 * l) == b * d + 3329 * (k * d) + 3329 * (b * l) + 3329 * (3329 * (k * l));
    }
    CongWitness(a * c, b * d, k * d + b * l + 3329 * (k * l));
  }

  lemma CanonicalIsMod(a: int, b: int)
    requires 0 <= a < Q && Cong(a, b)
    ensures a == b % Q
  {
  }

  /** Multiplying by the radix loses nothing: 2^16 is invertible modulo Q. */
  lemma CancelR(a: int, b: int)
    requires Cong(R * a, R * b)
    ensures Cong(a, b)
  {
    CongMul(R * a, R * b, RINV, RINV);
    assert R * RINV == 1 + 3329 * 3327;
    assert RINV * (R * a) - RINV * (R * b) == (a - b) + 3329 * (3327 * (a - b));
  }

  // ---------------------------------------------------------------- registers

  predicate Is16(x: int) { -32768 <= x < 32768 }

  function Wrap16(x: int): (r: int)
    ensures Is16(r) && (x - r) % 65536 == 0
    ensures Is16(x) ==> r == x
  {
    (x + 32768) % 65536 - 32768
  }

  function Wrap32(x: int): (r: int)
    ensures -0x8000_0000 <= r < 0x8000_0000 && (x - r) % 0x1_0000_0000 == 0
    ensures -0x8000_0000 <= x < 0x8000_0000 ==> r == x
  {
    (x + 0x8000_0000) % 0x1_0000_0000 - 0x8000_0000
  }

  // ---------------------------------------------------------------- Montgomery

  /** First reduction stage: the low half times -(-Q)^-1, kept in 16 bits. */
  function MontMultiplier(product: int): int {
    Wrap16((product % 65536) * 62209)
  }

  /** Second reduction stage: subtract the multiple of Q and drop the low half. */
  function MontResult(product: int, multiplier: int): int {
    Wrap16(Wrap32(product - multiplier * 3329) / 65536)
  }

  function Montgomery(product: int): int {
    MontResult(product, MontMultiplier(product))
  }

  /** The reduction is exact, and congruent to the product over the radix, for every product that
      leaves the 32-bit subtraction room; below 2^15 * Q the result is below Q. */
  lemma MontgomeryExact(p: int)
    requires -2038398976 < p < 2038398976
    ensures Montgomery(p) * 65536 == p - MontMultiplier(p) * 3329
    ensures -109084672 < p < 109084672 ==> -3329 < Montgomery(p) < 3329
    ensures Cong(Montgomery(p), p * RINV)
  {
    var m := MontMultiplier(p);
    var lo := p % 65536;
    assert (lo * 62209 - m) % 65536 == 0;
    var k := (lo * 62209 - m) / 65536;
    var h := p / 65536;
    assert p - m * 3329 == 65536 * (h - 3160 * lo + 3329 * k);
    var t := h - 3160 * lo + 3329 * k;
    assert Montgomery(p) == t;
    assert p == 65536 * t + 3329 * m;
    assert t - p * RINV == 3329 * (-3327 * t - 169 * m);
    CongWitness(t, p * RINV, -3327 * t - 169 * m);
  }

  /** The kernel's coefficient-by-constant multiply. */
  function FqMul(a: int, b: int): int {
    Montgomery(Wrap32(a * b))
  }

  lemma ProductBound(a: int, b: int, A: int, B: int)
    requires -A <= a <= A && -B <= b <= B
    ensures -(A * B) <= a * b <= A * B
  {
    if 0 <= a { MulMono(a, A, b, B); } else { MulMono(-a, A, b, B); assert (-a) * b == -(a * b); }
  }

  lemma MulMono(a: nat, A: int, b: int, B: int)
    requires a <= A && -B <= b <= B
    ensures -(A * B) <= a * b <= A * B
  {
    assert a * b <= a * B && a * B <= A * B by { assert a * (B - b) >= 0; assert (A - a) * B >= 0; }
    assert a * b >= -(a * B) by { assert a * (B + b) >= 0; }
  }

  /** Meaning and range of one multiply, for operands with separate bounds. */
  lemma FqMulBounded(a: int, A: int, b: int, B: int, x: int)
    requires -A <= a <= A && -B <= b <= B && A * B < 2038398976
    requires Cong(a, x)
    ensures A * B < 109084672 ==> -3329 < FqMul(a, b) < 3329
    ensures -(A * B + 109084672) <= 65536 * FqMul(a, b) <= A * B + 109084672
    ensures Cong(FqMul(a, b), (b * RINV) * x)
  {
    hide Montgomery, Cong;
    ProductBound(a, b, A, B);
    var p, w := a * b, b * RINV;
    MontgomeryExact(p);
    CongWitness(w, w, 0);
    CongMul(w, w, a, x);
    RadixMoved(a, b);
    CongTrans(FqMul(a, b), w * a, w * x);
  }

  lemma RadixMoved(a: int, b: int)
    ensures (a * b) * RINV == (b * RINV) * a
  {
  }

  // ---------------------------------------------------------------- Barrett

  /** Rounded quotient by Q of the inverse butterfly and of the add/sub unit. */
  function BarrettQuotient(x: int): int {
    (20159 * x + 33554432) / 67108864
  }

  /** The Barrett remainder is the residue nearest zero, for every 18-bit operand. */
  lemma BarrettExact(x: int)
    requires -131072 <= x < 131072
    ensures -1665 <= x - BarrettQuotient(x) * 3329 <= 1665
    ensures -40 <= BarrettQuotient(x) <= 40
  {
    var t := BarrettQuotient(x);
    assert 67108864 * t <= 20159 * x + 33554432 < 67108864 * (t + 1);
  }
}
