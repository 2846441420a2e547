/** Byte strings and the little-endian numbers they spell. */
module Bytes {

  type Byte = n: nat | n < 256

  /** Little-endian number of a byte string. */
  function Le(b: seq<Byte>): nat {
    if b == [] then 0 else b[0] + 256 * Le(b[1..])
  }

  function Pow256(n: nat): nat { if n == 0 then 1 else 256 * Pow256(n - 1) }

  lemma {:induction false} LeBelow(b: seq<Byte>)
    ensures Le(b) < Pow256(|b|)
  {
    if b != [] { LeBelow(b[1..]); }
  }

  lemma {:induction false} LeAppend(a: seq<Byte>, b: seq<Byte>)
    ensures Le(a + b) == Le(a) + Pow256(|a|) * Le(b)
  {
    if a == [] {
      assert a + b == b;
    } else {
      assert (a + b)[1..] == a[1..] + b;
      LeAppend(a[1..], b);
      Distribute(Pow256(|a| - 1), Le(b));
    }
  }

  lemma Distribute(p: nat, x: nat)
    ensures 256 * (p * x) == (256 * p) * x
  {
  }

  /** Bitwise exclusive or. */
  function Xor(x: nat, y: nat): nat {
    if x == 0 && y == 0 then 0 else (x + y) % 2 + 2 * Xor(x / 2, y / 2)
  }

  lemma XorZero(x: nat)
    ensures Xor(x, 0) == x
  {
  }

  lemma XorStep(x: nat, y: nat)
    ensures Xor(x, y) == (x + y) % 2 + 2 * Xor(x / 2, y / 2)
  {
    if x == 0 && y == 0 { assert Xor(0, 0) == 0; }
  }

  lemma XorHalves(x: nat, y: nat)
    ensures Xor(x, y) % 2 == (x + y) % 2 && Xor(x, y) / 2 == Xor(x / 2, y / 2)
  {
    XorStep(x, y);
    hide Xor;
  }

  lemma {:induction false} XorAssociates(x: nat, y: nat, z: nat)
    ensures Xor(Xor(x, y), z) == Xor(x, Xor(y, z))
    decreases x + y + z
  {
    if x + y + z == 0 {
      assert Xor(0, 0) == 0;
    } else {
      hide Xor;
      XorAssociates(x / 2, y / 2, z / 2);
      XorHalves(x, y);
      XorHalves(y, z);
      XorStep(Xor(x, y), z);
      XorStep(x, Xor(y, z));
      ThreeParities(x, y, z, Xor(x, y), Xor(y, z));
    }
  }

  lemma ThreeParities(x: nat, y: nat, z: nat, u: nat, w: nat)
    requires u % 2 == (x + y) % 2 && w % 2 == (y + z) % 2
    ensures (u + z) % 2 == (x + w) % 2
  {
  }

  function XorByte(x: Byte, y: Byte): (z: Byte)
    ensures z == Xor(x, y)
  {
    XorBelow(x, y, 8);
    Xor(x, y)
  }

  function Doubled(n: nat): nat { if n == 0 then 1 else 2 * Doubled(n - 1) }

  lemma XorBelow(x: nat, y: nat, n: nat)
    requires x < Doubled(n) && y < Doubled(n)
    ensures Xor(x, y) < Doubled(n)
    ensures n == 8 ==> Doubled(n) == 256
  {
    if n > 0 { XorBelow(x / 2, y / 2, n - 1); }
  }
}
