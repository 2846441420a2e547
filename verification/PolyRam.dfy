/** The shared polynomial memory: twelve slots of 256 words behind one registered port. */
module PolyRam {
  import opened ModQ
  import opened Ring

  type Slot = n: nat | n < 12

  /** A coefficient address. */
  type Index = n: nat | n < 256

  type Slots = s: seq<Poly> | |s| == 12 witness seq(12, _ => ZeroPoly())

  function ZeroPoly(): Poly { seq(256, _ => 0) }

  /** Slot contents and the word read at the last edge. */
  datatype Ram = Ram(slots: Slots, q: int)

  function Address(slot: Slot, index: Index): nat { slot * 256 + index }

  /** One edge: the old word is read, then the new one written. */
  function RamEdge(m: Ram, we: bool, addr: nat, data: int): Ram
    requires addr < 3072
  {
    var s, i := addr / 256, addr % 256;
    Ram(if we then m.slots[s := m.slots[s][i := data]] else m.slots, m.slots[s][i])
  }

  lemma RamEdgeAt(m: Ram, we: bool, slot: Slot, index: Index, data: int)
    ensures Address(slot, index) < 3072
    ensures RamEdge(m, we, Address(slot, index), data)
         == Ram(if we then m.slots[slot := m.slots[slot][index := data]] else m.slots, m.slots[slot][index])
  {
  }

  lemma RamUntouched(ram: Ram, addr: nat, word: int)
    requires addr < 3072
    ensures RamEdge(ram, false, addr, word).slots == ram.slots
  {
  }

  // ---------------------------------------------------------------- a slot rewritten word by word

  /** The first n words new, the others old. */
  function Mixed(old': Poly, new': Poly, n: nat): Poly {
    seq(256, i requires 0 <= i < 256 => if i < n then new'[i] else old'[i])
  }

  lemma MixedNone(was: Slots, slot: Slot, res: Poly)
    ensures was[slot := Mixed(was[slot], res, 0)] == was
  {
    assert Mixed(was[slot], res, 0) == was[slot];
  }

  /** Writing word n of the new contents advances by one; the last write completes the slot. */
  lemma MixedWrite(was: Slots, slot: Slot, res: Poly, n: Index, word: int)
    requires word == res[n]
    ensures var slots := was[slot := Mixed(was[slot], res, n)];
      slots[slot := slots[slot][n := word]] == was[slot := Mixed(was[slot], res, n + 1)]
    ensures n == 255 ==> Mixed(was[slot], res, n + 1) == res
  {
    var old' := was[slot];
    assert Mixed(old', res, n)[n := word] == Mixed(old', res, n + 1);
    assert was[slot := Mixed(old', res, n)][slot := Mixed(old', res, n + 1)] == was[slot := Mixed(old', res, n + 1)];
  }
}
