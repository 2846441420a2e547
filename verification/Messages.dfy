/** What the message and public-key controllers compute. */
module Messages {
  import opened ModQ
  import opened Bytes
  import opened Codec
  import opened Ring
  import opened PolyRam
  import opened Layout

  /** A 256-bit message register. */
  type Message = m: seq<bool> | |m| == 256 witness seq(256, _ => false)

  // ---------------------------------------------------------------- one bit per coefficient

  /** Bit 31 of the 32-bit product. */
  function TopBit(x: nat): bool { (x * 1290168 + 0x4000_0000) % 0x1_0000_0000 >= 0x8000_0000 }

  /** The product wraps exactly so that the bit is set on the middle half of the canonical range. */
  lemma TopBitRange(x: nat)
    requires x < 3329
    ensures TopBit(x) <==> 833 <= x <= 2496
    ensures TopBit(x) <==> Compress(x, 2) == 1
  {
  }

  function BitPoly(b: bool): nat { if b then 1665 else 0 }

  /** The errors a bit tolerates, among errors of canonical size: one more on either side of a clear
      bit and on the lower side of a set one than on the upper side of a set one. */
  predicate Tolerates(b: bool, e: int) { -832 <= e <= if b then 831 else 832 }

  /** A bit is read back exactly when its error is tolerated. */
  lemma BitExact(x: nat, b: bool, e: int)
    requires x < 3329 && Cong(x, BitPoly(b) + e) && -1664 <= e <= 1664
    ensures TopBit(x) == b <==> Tolerates(b, e)
  {
    TopBitRange(x);
    var k := (BitPoly(b) + e - x) / 3329;
    assert x == BitPoly(b) + e - 3329 * k;
    assert -1 <= k <= 1;
  }

  /** 831 is the largest magnitude every bit tolerates: 832 turns a set bit into a clear one. */
  lemma BitLost()
    ensures Cong(2497, BitPoly(true) + 832) && !TopBit(2497)
    ensures forall b, e :: -831 <= e <= 831 ==> Tolerates(b, e)
  {
    TopBitRange(2497);
  }

  function FromMessage(m: Message): Poly {
    seq(256, i requires 0 <= i < 256 => BitPoly(m[i]))
  }

  function ToMessage(p: Poly): Message {
    seq(256, i requires 0 <= i < 256 => TopBit(U16(p[i])))
  }

  // ---------------------------------------------------------------- the embedded public key

  /** Polynomial s of the public key inside the secret key: twelve bits a coefficient, unchecked. */
  function PublicPoly(sk: SecretKey, s: nat): Poly
    requires s < 2
  {
    seq(256, i requires 0 <= i < 256 => PublicCoeff(sk, 256 * s + i))
  }

  function PublicCoeff(sk: SecretKey, a: nat): nat
    requires a < 512
  {
    var g := a / 2;
    Decode12(sk[768 + 3 * g], sk[769 + 3 * g], sk[770 + 3 * g], a % 2)
  }

  lemma PublicRange(sk: SecretKey, s: nat, i: Index)
    requires s < 2
    ensures 0 <= PublicPoly(sk, s)[i] <= 4095
  {
    assert PublicPoly(sk, s)[i] == PublicCoeff(sk, 256 * s + i);
  }

  function Published(sk: SecretKey, was: Slots): Slots {
    was[0 := PublicPoly(sk, 0)][1 := PublicPoly(sk, 1)]
  }

  /** Flat addresses below n hold the public key. */
  ghost predicate PublicPrefix(slots: Slots, was: Slots, sk: SecretKey, n: nat) {
    forall s: Slot, i: Index ::
      slots[s][i] == if Address(s, i) < n && s < 2 then PublicCoeff(sk, Address(s, i)) else was[s][i]
  }

  lemma PublicStep(ram: Ram, was: Slots, sk: SecretKey, n: nat)
    requires n < 512 && PublicPrefix(ram.slots, was, sk, n)
    ensures PublicPrefix(RamEdge(ram, true, n, PublicCoeff(sk, n)).slots, was, sk, n + 1)
  {
    hide PublicCoeff;
    var slots := RamEdge(ram, true, n, PublicCoeff(sk, n)).slots;
    forall s: Slot, i: Index
      ensures slots[s][i] == if Address(s, i) < n + 1 && s < 2 then PublicCoeff(sk, Address(s, i)) else was[s][i]
    {
      assert Address(s, i) == n <==> s == n / 256 && i == n % 256;
    }
  }

  lemma PublicDone(slots: Slots, was: Slots, sk: SecretKey)
    requires PublicPrefix(slots, was, sk, 512)
    ensures slots == Published(sk, was)
  {
    hide PublicCoeff;
    forall s: Slot ensures slots[s] == Published(sk, was)[s] {
      assert |slots[s]| == |Published(sk, was)[s]|;
      forall i: Index ensures slots[s][i] == Published(sk, was)[s][i] { }
    }
  }

  lemma GroupWords(sk: SecretKey, group: seq<Byte>, g: nat)
    requires g < 256 && group == sk[768 + 3 * g..771 + 3 * g]
    ensures Decode12(group[0], group[1], group[2], 0) == PublicCoeff(sk, 2 * g)
    ensures Decode12(group[0], group[1], group[2], 1) == PublicCoeff(sk, 2 * g + 1)
  {
    hide Decode12;
  }
}
