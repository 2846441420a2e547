/** The one-time authenticator of RFC 8439, section 2.5, on byte strings. */
module Mac {
  import opened Bytes

  const P := 0x3_ffffffff_ffffffff_ffffffff_fffffffb
  const TWO128 := 0x1_00000000_00000000_00000000_00000000

  /** The top four bits of bytes 3, 7, 11 and 15 and the bottom two of bytes 4, 8 and 12 are cleared. */
  function ClampByte(i: nat, b: Byte): Byte {
    if i % 4 == 3 then b % 16 else if i % 4 == 0 && i > 0 then b - b % 4 else b
  }

  type Key = k: seq<Byte> | |k| == 32 witness seq(32, _ => 0)

  function Clamped(key: Key): seq<Byte> {
    seq(16, i requires 0 <= i < 16 => ClampByte(i, key[i]))
  }

  /** A 16-byte block with its mandatory one byte. */
  function Block(message: seq<Byte>, k: nat): seq<Byte>
    requires 16 * k + 16 <= |message|
  {
    message[16 * k..16 * k + 16] + [1]
  }

  /** Accumulator after the first k blocks. */
  function Accumulated(r: nat, message: seq<Byte>, k: nat): nat
    requires 16 * k <= |message|
  {
    if k == 0 then 0 else ((Accumulated(r, message, k - 1) + Le(Block(message, k - 1))) * r) % P
  }

  /** Tag of a message of whole blocks. */
  function Tag(key: Key, message: seq<Byte>): nat
    requires |message| % 16 == 0
  {
    (Accumulated(Le(Clamped(key)), message, |message| / 16) + Le(key[16..])) % TWO128
  }

  lemma AccumulatedBelow(r: nat, message: seq<Byte>, k: nat)
    requires 16 * k <= |message|
    ensures Accumulated(r, message, k) < P
  {
  }

  lemma Pow16()
    ensures Pow256(16) == TWO128
  {
    assert Pow256(4) == 0x1_00000000;
    assert Pow256(8) == 0x1_00000000_00000000;
    assert Pow256(12) == 0x1_00000000_00000000_00000000;
  }

  lemma BlockValue(message: seq<Byte>, k: nat)
    requires 16 * k + 16 <= |message|
    ensures Le(Block(message, k)) == Le(message[16 * k..16 * k + 16]) + TWO128
    ensures Le(message[16 * k..16 * k + 16]) < TWO128
  {
    Pow16();
    LeBelow(message[16 * k..16 * k + 16]);
    LeAppend(message[16 * k..16 * k + 16], [1]);
    assert Le([1]) == 1 by { assert Le([]) == 0; }
  }

  // ---------------------------------------------------------------- the mask

  /** Bitwise and of two naturals. */
  function And(x: nat, m: nat): nat {
    if x == 0 || m == 0 then 0 else (x % 2) * (m % 2) + 2 * And(x / 2, m / 2)
  }

  function Pow2(n: nat): (p: nat)
    ensures p > 0
  {
    if n == 0 then 1 else 2 * Pow2(n - 1)
  }

  /** Low and high parts are masked separately. */
  lemma {:induction false} AndSplit(n: nat, lo: nat, hi: nat, mlo: nat, mhi: nat, x: nat, m: nat)
    requires lo < Pow2(n) && mlo < Pow2(n)
    requires x == lo + Pow2(n) * hi && m == mlo + Pow2(n) * mhi
    ensures And(x, m) == And(lo, mlo) + Pow2(n) * And(hi, mhi)
  {
    hide And;
    if n == 0 {
      AndNone(mlo);
      Once(hi);
      Once(mhi);
      Once(And(hi, mhi));
    } else {
      var p := Pow2(n - 1);
      Twice(p, hi);
      Twice(p, mhi);
      Twice(p, And(hi, mhi));
      AndSplit(n - 1, lo / 2, hi, mlo / 2, mhi, lo / 2 + p * hi, mlo / 2 + p * mhi);
      AndHalves(lo, x, mlo, m, p * hi, p * mhi);
    }
  }

  lemma AndNone(m: nat)
    ensures And(0, m) == 0
  {
  }

  lemma Once(x: nat)
    ensures Pow2(0) * x == x
  {
  }

  lemma Twice(p: nat, x: nat)
    ensures (2 * p) * x == 2 * (p * x)
  {
  }

  lemma AndHalves(lo: nat, x: nat, mlo: nat, m: nat, hi: nat, mhi: nat)
    requires x == lo + 2 * hi && m == mlo + 2 * mhi
    ensures And(x, m) == (lo % 2) * (mlo % 2) + 2 * And(lo / 2 + hi, mlo / 2 + mhi)
    ensures And(lo, mlo) == (lo % 2) * (mlo % 2) + 2 * And(lo / 2, mlo / 2)
  {
    assert x / 2 == lo / 2 + hi && m / 2 == mlo / 2 + mhi;
  }

  lemma {:induction false} AndOnes(n: nat, x: nat)
    ensures And(x, Pow2(n) - 1) == x % Pow2(n)
  {
    if n == 0 {
      AndNoMask(x);
    } else {
      hide And;
      AndOnes(n - 1, x / 2);
      OnesDoubled(x, Pow2(n - 1), Pow2(n));
    }
  }

  lemma OnesDoubled(x: nat, p: nat, q: nat)
    requires p > 0 && q == 2 * p && And(x / 2, p - 1) == (x / 2) % p
    ensures And(x, q - 1) == x % q
  {
    hide And;
    AndOdd(x, p);
    ModHalves(x, p);
  }

  lemma AndOdd(x: nat, p: nat)
    requires p > 0
    ensures And(x, 2 * p - 1) == x % 2 + 2 * And(x / 2, p - 1)
  {
    assert (2 * p - 1) / 2 == p - 1 && (2 * p - 1) % 2 == 1;
  }

  lemma ModHalves(x: nat, p: nat)
    requires p > 0
    ensures x % (2 * p) == x % 2 + 2 * ((x / 2) % p)
  {
    var q := (x / 2) / p;
    var y := x % 2 + 2 * ((x / 2) % p);
    assert x / 2 == q * p + (x / 2) % p;
    assert x == q * (2 * p) + y by { assert 2 * (q * p) == q * (2 * p); }
    DivModUnique(x, 2 * p, q, y);
  }

  lemma DivModUnique(x: nat, m: nat, q: nat, y: nat)
    requires m > 0 && y < m && x == q * m + y
    ensures x % m == y
  {
    var d := x / m - q;
    assert x == (x / m) * m + x % m;
    assert x % m == y - d * m by { Minus(x / m, q, m); }
    if d > 0 { AtLeast(d, m); } else if d < 0 { AtLeast(-d, m); Minus(0, d, m); }
  }

  lemma Minus(a: int, b: int, m: int)
    ensures (a - b) * m == a * m - b * m
  {
  }

  lemma AtLeast(d: int, m: nat)
    requires d >= 1
    ensures d * m >= m
  {
  }

  lemma PowersOfTwo()
    ensures Pow2(2) == 4 && Pow2(4) == 16 && Pow2(6) == 64 && Pow2(8) == 256 && Pow2(26) == 0x4000000
  {
    assert Pow2(12) == 4096;
    assert Pow2(16) == 65536;
    assert Pow2(20) == 1048576;
    assert Pow2(24) == 16777216;
  }

  lemma AndAtMost(x: nat, m: nat)
    ensures And(x, m) <= m
  {
  }

  lemma {:induction false} AndByBytes(x: seq<Byte>, m: seq<Byte>)
    requires |x| == |m|
    ensures And(Le(x), Le(m)) == Le(Masked(x, m))
  {
    hide And;
    if x == [] {
      AndNone(0);
    } else {
      AndByBytes(x[1..], m[1..]);
      PowersOfTwo();
      AndSplit(8, x[0], Le(x[1..]), m[0], Le(m[1..]), Le(x), Le(m));
      assert Masked(x, m)[1..] == Masked(x[1..], m[1..]);
    }
  }

  function MaskedByte(x: Byte, m: Byte): Byte {
    AndAtMost(x, m);
    And(x, m)
  }

  function Masked(x: seq<Byte>, m: seq<Byte>): seq<Byte>
    requires |x| == |m|
  {
    seq(|x|, i requires 0 <= i < |x| => MaskedByte(x[i], m[i]))
  }

  const R_CLAMP_MASK := 0x0ffffffc_0ffffffc_0ffffffc_0fffffff

  function MaskByte(i: nat): Byte {
    if i % 4 == 3 then 15 else if i % 4 == 0 && i > 0 then 252 else 255
  }

  /** Masking with the constant clears exactly the bits the RFC clears byte by byte. */
  lemma MaskClamps(key: Key)
    ensures And(Le(key[..16]), R_CLAMP_MASK) == Le(Clamped(key))
  {
    hide And;
    var m := seq(16, i requires 0 <= i < 16 => MaskByte(i));
    MaskValue(m);
    AndByBytes(key[..16], m);
    forall i: nat | i < 16 ensures And(key[i], MaskByte(i)) == ClampByte(i, key[i]) { ClampIsAnd(i, key[i]); }
    assert Masked(key[..16], m) == Clamped(key);
  }

  lemma ClampIsAnd(i: nat, b: Byte)
    ensures And(b, MaskByte(i)) == ClampByte(i, b)
  {
    hide And;
    PowersOfTwo();
    AndOnes(4, b);
    AndOnes(8, b);
    AndOnes(6, b / 4);
    AndOnes(2, 0);
    AndSplit(2, b % 4, b / 4, 0, 63, b, 252);
    AndNoMask(b % 4);
  }

  lemma AndNoMask(x: nat)
    ensures And(x, 0) == 0
  {
  }

  lemma MaskValue(m: seq<Byte>)
    requires |m| == 16 && forall i :: 0 <= i < 16 ==> m[i] == MaskByte(i)
    ensures Le(m) == R_CLAMP_MASK
  {
    hide Le;
    var x: seq<Byte>, y: seq<Byte> := [255, 255, 255, 15], [252, 255, 255, 15];
    assert m == x + (y + (y + y));
    FourBytes(x, y + (y + y));
    FourBytes(y, y + y);
    FourBytes(y, y);
    LeFour(y);
  }

  lemma FourBytes(a: seq<Byte>, b: seq<Byte>)
    requires |a| == 4
    ensures Le(a + b) == Four(a) + 0x1_00000000 * Le(b)
  {
    hide Le, Four;
    LeAppend(a, b);
    assert Pow256(4) == 0x1_00000000;
    LeFour(a);
  }

  function Four(a: seq<Byte>): int
    requires |a| == 4
  {
    (a[0] as int) + 256 * (a[1] as int) + 65536 * (a[2] as int) + 16777216 * (a[3] as int)
  }

  lemma LeFour(a: seq<Byte>)
    requires |a| == 4
    ensures Le(a) == Four(a)
  {
    assert a[3..][1..] == [] && a[2..][1..] == a[3..] && a[1..][1..] == a[2..];
    assert Le([]) == 0;
    assert Le(a[3..]) == a[3];
    assert Le(a[2..]) == (a[2] as int) + 256 * Le(a[3..]);
    assert Le(a[1..]) == (a[1] as int) + 256 * Le(a[2..]);
  }
}
