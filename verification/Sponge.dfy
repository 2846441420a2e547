/** The byte-serial SHA-3 sponge over an arbitrary permutation (FIPS 202, sections 4, 6 and B.2). */
module Sponge {
  import opened Bytes

  type Lanes = s: seq<Byte> | |s| == 200 witness seq(200, _ => 0)

  /** Keccak-f[1600] as an uninterpreted function of the 200 state bytes. */
  type Permutation = Lanes -> Lanes

  type Mode = m: nat | m < 4

  // ---------------------------------------------------------------- the standard

  /** SHA3-256, SHA3-512, SHAKE128, SHAKE256. */
  function Rate(mode: Mode): BlockSize {
    if mode == 1 then 72 else if mode == 2 then 168 else 136
  }

  /** Domain bits with the first padding bit. */
  function Suffix(mode: Mode): Byte { if mode < 2 then 0x06 else 0x1f }

  function Zeros(): (s: Lanes)
    ensures forall i :: 0 <= i < 200 ==> s[i] == 0
  {
    seq(200, _ => 0)
  }

  function XorBlock(s: Lanes, p: seq<Byte>): Lanes
    requires |p| <= 200
  {
    seq(200, i requires 0 <= i < 200 => if i < |p| then XorByte(s[i], p[i]) else s[i])
  }

  type BlockSize = r: nat | r == 72 || r == 136 || r == 168 witness 72

  function Mod(n: nat, r: BlockSize): (k: nat)
    ensures k < r && k <= n
  {
    if r == 72 then n % 72 else if r == 136 then n % 136 else n % 168
  }

  function Div(n: nat, r: BlockSize): nat {
    if r == 72 then n / 72 else if r == 136 then n / 136 else n / 168
  }

  /** Every block is added to the rate part and the permutation applied. */
  function Absorb(f: Permutation, r: BlockSize, p: seq<Byte>): Lanes
    requires Mod(|p|, r) == 0
    decreases |p|
  {
    if p == [] then Zeros()
    else
      LastBlock(|p|, r);
      f(XorBlock(Absorb(f, r, p[..|p| - r]), p[|p| - r..]))
  }

  lemma LastBlock(n: nat, r: BlockSize)
    requires n > 0 && Mod(n, r) == 0
    ensures n >= r && Mod(n - r, r) == 0
  {
  }

  function Squeeze(f: Permutation, r: BlockSize, s: Lanes, d: nat): (z: seq<Byte>)
    ensures |z| == d
    decreases d
  {
    if d <= r then s[..d] else s[..r] + Squeeze(f, r, f(s), d - r)
  }

  /** Byte-aligned padding: suffix byte, zeros, and the final bit; one byte when only one fits. */
  function Padding(q: nat, suffix: Byte): (p: seq<Byte>)
    requires q > 0
    ensures |p| == q
  {
    if q == 1 then [XorByte(suffix, 0x80)] else [suffix] + seq(q - 2, _ => 0) + [0x80]
  }

  function Padded(m: seq<Byte>, r: BlockSize, suffix: Byte): seq<Byte> {
    m + Padding(r - Mod(|m|, r), suffix)
  }

  lemma PaddedLength(m: seq<Byte>, r: BlockSize, suffix: Byte)
    ensures Mod(|Padded(m, r, suffix)|, r) == 0
  {
    RoundedUp(|m|, r);
  }

  lemma RoundedUp(n: nat, r: BlockSize)
    ensures Mod(n + r - Mod(n, r), r) == 0
  {
  }

  /** State after the padded message. */
  function Seed(f: Permutation, mode: Mode, m: seq<Byte>): Lanes {
    PaddedLength(m, Rate(mode), Suffix(mode));
    Absorb(f, Rate(mode), Padded(m, Rate(mode), Suffix(mode)))
  }

  function Hash(f: Permutation, mode: Mode, m: seq<Byte>, d: nat): (z: seq<Byte>)
    ensures |z| == d
  {
    Squeeze(f, Rate(mode), Seed(f, mode, m), d)
  }

  // ---------------------------------------------------------------- one byte at a time

  function XorAt(s: Lanes, i: nat, b: Byte): Lanes
    requires i < 200
  {
    s[i := XorByte(s[i], b)]
  }

  /** State after feeding m byte by byte, permuting as soon as a block is full. */
  function Fed(f: Permutation, r: BlockSize, m: seq<Byte>): Lanes
    decreases |m|
  {
    if m == [] then Zeros()
    else
      var n := |m| - 1;
      var s := XorAt(Fed(f, r, m[..n]), Mod(n, r), m[n]);
      if Mod(n, r) == r - 1 then f(s) else s
  }

  /** Length of the blocks of m already permuted. */
  function Whole(n: nat, r: BlockSize): (k: nat)
    ensures k <= n && Mod(k, r) == 0
  {
    n - Mod(n, r)
  }

  lemma NextMod(n: nat, r: BlockSize)
    ensures Mod(n + 1, r) == (if Mod(n, r) == r - 1 then 0 else Mod(n, r) + 1)
    ensures Div(n + 1, r) == Div(n, r) + (if Mod(n, r) == r - 1 then 1 else 0)
  {
    if r == 72 { Next72(n); } else if r == 136 { Next136(n); } else { Next168(n); }
  }

  lemma Next72(n: nat)
    ensures (n + 1) % 72 == (if n % 72 == 71 then 0 else n % 72 + 1)
    ensures (n + 1) / 72 == n / 72 + (if n % 72 == 71 then 1 else 0)
  {
  }

  lemma Next136(n: nat)
    ensures (n + 1) % 136 == (if n % 136 == 135 then 0 else n % 136 + 1)
    ensures (n + 1) / 136 == n / 136 + (if n % 136 == 135 then 1 else 0)
  {
  }

  lemma Next168(n: nat)
    ensures (n + 1) % 168 == (if n % 168 == 167 then 0 else n % 168 + 1)
    ensures (n + 1) / 168 == n / 168 + (if n % 168 == 167 then 1 else 0)
  {
  }

  lemma XorBlockStep(s: Lanes, p: seq<Byte>, b: Byte)
    requires |p| < 200
    ensures XorAt(XorBlock(s, p), |p|, b) == XorBlock(s, p + [b])
  {
  }

  lemma XorBlockEmpty(s: Lanes)
    ensures XorBlock(s, []) == s
  {
  }

  /** Feeding bytes is absorbing the whole blocks and adding the rest. */
  lemma {:induction false} FedMeaning(f: Permutation, r: BlockSize, m: seq<Byte>)
    ensures var k := Whole(|m|, r);
      Fed(f, r, m) == XorBlock(Absorb(f, r, m[..k]), m[k..])
    decreases |m|
  {
    hide XorAt, XorBlock, Mod, Div;
    if m == [] {
      XorBlockEmpty(Zeros());
    } else {
      var n := |m| - 1;
      FedMeaning(f, r, m[..n]);
      NextMod(n, r);
      FedStep(f, r, m, n);
    }
  }

  lemma FedStep(f: Permutation, r: BlockSize, m: seq<Byte>, n: nat)
    requires |m| == n + 1
    requires Fed(f, r, m[..n]) == XorBlock(Absorb(f, r, m[..n][..Whole(n, r)]), m[..n][Whole(n, r)..])
    requires Whole(n + 1, r) == if Mod(n, r) == r - 1 then n + 1 else Whole(n, r)
    ensures Fed(f, r, m) == XorBlock(Absorb(f, r, m[..Whole(n + 1, r)]), m[Whole(n + 1, r)..])
  {
    hide XorAt, XorBlock, Mod;
    var j := Whole(n, r);
    assert m[..n][..j] == m[..j] && m[..n][j..] + [m[n]] == m[j..];
    XorBlockStep(Absorb(f, r, m[..j]), m[..n][j..], m[n]);
    if Mod(n, r) == r - 1 {
      assert m[..n + 1] == m && m[n + 1..] == [];
      XorBlockEmpty(f(XorBlock(Absorb(f, r, m[..j]), m[j..])));
    }
  }

  /** Suffix and final bit on top of the fed bytes, then one permutation: the padded message. */
  lemma FinishMeaning(f: Permutation, r: BlockSize, m: seq<Byte>, suffix: Byte)
    ensures Mod(|Padded(m, r, suffix)|, r) == 0
    ensures f(XorAt(XorAt(Fed(f, r, m), Mod(|m|, r), suffix), r - 1, 0x80)) == Absorb(f, r, Padded(m, r, suffix))
  {
    hide XorAt, XorBlock, Mod, Fed, Padding;
    PaddedLength(m, r, suffix);
    FedMeaning(f, r, m);
    var k := Whole(|m|, r);
    var p := Padded(m, r, suffix);
    var s := Absorb(f, r, m[..k]);
    var pad := Padding(r - Mod(|m|, r), suffix);
    assert |p| == k + r;
    assert p[..k] == m[..k] && p[k..] == m[k..] + pad;
    PadsAsXor(s, m[k..], pad, r, suffix);
  }

  lemma PadsAsXor(s: Lanes, rest: seq<Byte>, pad: seq<Byte>, r: BlockSize, suffix: Byte)
    requires |rest| < r && pad == Padding(r - |rest|, suffix)
    ensures XorAt(XorAt(XorBlock(s, rest), |rest|, suffix), r - 1, 0x80) == XorBlock(s, rest + pad)
  {
    hide Xor;
    var n := |rest|;
    forall i: nat | i < 200
      ensures XorAt(XorAt(XorBlock(s, rest), n, suffix), r - 1, 0x80)[i] == XorBlock(s, rest + pad)[i]
    {
      XorZero(s[i]);
      XorAssociates(s[i], suffix, 0x80);
    }
  }

  // ---------------------------------------------------------------- squeezing by index

  function Iterate(f: Permutation, s: Lanes, k: nat): Lanes {
    if k == 0 then s else f(Iterate(f, s, k - 1))
  }

  lemma {:induction false} IterateFirst(f: Permutation, s: Lanes, k: nat)
    ensures Iterate(f, f(s), k) == Iterate(f, s, k + 1)
  {
    if k > 0 { IterateFirst(f, s, k - 1); }
  }

  /** Output byte i comes from the state after i / r further permutations. */
  lemma {:induction false} SqueezeAt(f: Permutation, r: BlockSize, s: Lanes, d: nat, i: nat)
    requires i < d
    ensures Squeeze(f, r, s, d)[i] == Iterate(f, s, Div(i, r))[Mod(i, r)]
    decreases d
  {
    LaterBlock(i, r);
    if i >= r {
      SqueezeAt(f, r, f(s), d - r, i - r);
      IterateFirst(f, s, Div(i - r, r));
    }
  }

  lemma LaterBlock(i: nat, r: BlockSize)
    ensures i < r ==> Div(i, r) == 0 && Mod(i, r) == i
    ensures i >= r ==> Div(i, r) == Div(i - r, r) + 1 && Mod(i, r) == Mod(i - r, r)
  {
  }

  // ---------------------------------------------------------------- registers

  datatype Control = Idle | Absorbing | PadFinal | PermAbsorb | PermFinal | Squeezing | PermSqueeze

  /** `perm` counts the clocks the permutation unit still needs; its delay is arbitrary each time. */
  datatype Regs = Regs(control: Control, s: Lanes, absorbPosition: nat, squeezePosition: nat, outputLength: nat, outputCount: nat,
                       rate: BlockSize, suffix: Byte, done: bool, perm: nat)

  datatype In = In(start: bool, mode: Mode, outputLength: nat, byte: Byte, valid: bool, finalize: bool, ready: bool, delay: nat)
  {
    predicate Ok() { outputLength < 65536 }
  }

  predicate InRange(x: Regs) {
    x.absorbPosition < x.rate && x.squeezePosition < x.rate && x.outputCount < 65536
  }

  function OutputByte(x: Regs): Byte
    requires InRange(x)
  {
    x.s[x.squeezePosition]
  }

  /** The single byte-wide update path. */
  function Xored(x: Regs, i: In): Lanes
    requires InRange(x)
  {
    if x.control == PadFinal then XorAt(x.s, x.rate - 1, 0x80)
    else XorAt(x.s, x.absorbPosition, if i.valid then i.byte else x.suffix)
  }

  function Edge(f: Permutation, x: Regs, i: In): Regs
    requires InRange(x)
  {
    var n := x.(done := false);
    match x.control
    case Idle =>
      if i.start then
        n.(s := Zeros(), absorbPosition := 0, squeezePosition := 0, outputCount := 0, outputLength := i.outputLength,
           rate := Rate(i.mode), suffix := Suffix(i.mode), control := Absorbing)
      else n
    case Absorbing =>
      if i.valid then
        if x.absorbPosition == x.rate - 1 then n.(s := Xored(x, i), absorbPosition := 0, control := PermAbsorb, perm := i.delay)
        else n.(s := Xored(x, i), absorbPosition := x.absorbPosition + 1)
      else if i.finalize then n.(s := Xored(x, i), control := PadFinal)
      else n
    case PadFinal => n.(s := Xored(x, i), control := PermFinal, perm := i.delay)
    case PermAbsorb => if x.perm == 0 then n.(s := f(x.s), control := Absorbing) else n.(perm := x.perm - 1)
    case PermFinal =>
      if x.perm == 0 then
        var y := n.(s := f(x.s), squeezePosition := 0, outputCount := 0);
        if x.outputLength == 0 then y.(done := true, control := Idle) else y.(control := Squeezing)
      else n.(perm := x.perm - 1)
    case Squeezing =>
      if i.ready then
        if (x.outputCount + 1) % 65536 == x.outputLength then n.(done := true, control := Idle)
        else if x.squeezePosition == x.rate - 1 then
          n.(squeezePosition := 0, outputCount := (x.outputCount + 1) % 65536, control := PermSqueeze, perm := i.delay)
        else n.(squeezePosition := x.squeezePosition + 1, outputCount := (x.outputCount + 1) % 65536)
      else n
    case PermSqueeze => if x.perm == 0 then n.(s := f(x.s), control := Squeezing) else n.(perm := x.perm - 1)
  }

  // ---------------------------------------------------------------- what every register means

  /** The command being run: its message and output so far. */
  datatype Job = Job(mode: Mode, length: nat, absorbed: seq<Byte>, emitted: seq<Byte>)

  ghost function NextJob(x: Regs, i: In, j: Job): Job
    requires InRange(x)
  {
    match x.control
    case Idle => if i.start then Job(i.mode, i.outputLength, [], []) else j
    case Absorbing => if i.valid then j.(absorbed := j.absorbed + [i.byte]) else j
    case Squeezing => if i.ready then j.(emitted := j.emitted + [OutputByte(x)]) else j
    case _ => j
  }

  ghost predicate Emitting(f: Permutation, x: Regs, j: Job) {
    && x.outputCount < x.outputLength == j.length
    && x.squeezePosition == Mod(x.outputCount, x.rate)
    && j.emitted == Squeeze(f, x.rate, Seed(f, j.mode, j.absorbed), j.length)[..x.outputCount]
  }

  ghost predicate Inv(f: Permutation, x: Regs, j: Job) {
    && InRange(x)
    && (x.control != Idle ==>
          && x.rate == Rate(j.mode) && x.suffix == Suffix(j.mode) && x.outputLength == j.length < 65536 && !x.done
          && (x.control in {Absorbing, PadFinal, PermAbsorb} ==> x.absorbPosition == Mod(|j.absorbed|, x.rate))
          && (x.control !in {Squeezing, PermSqueeze} ==> j.emitted == []))
    && match x.control
       case Idle => x.done ==> j.emitted == Hash(f, j.mode, j.absorbed, j.length)
       case Absorbing => x.s == Fed(f, x.rate, j.absorbed)
       case PadFinal => x.s == XorAt(Fed(f, x.rate, j.absorbed), x.absorbPosition, x.suffix)
       case PermAbsorb => x.absorbPosition == 0 && f(x.s) == Fed(f, x.rate, j.absorbed)
       case PermFinal => f(x.s) == Seed(f, j.mode, j.absorbed)
       case Squeezing => Emitting(f, x, j) && x.s == Iterate(f, Seed(f, j.mode, j.absorbed), Div(x.outputCount, x.rate))
       case PermSqueeze => Emitting(f, x, j) && f(x.s) == Iterate(f, Seed(f, j.mode, j.absorbed), Div(x.outputCount, x.rate))
  }

  // ---------------------------------------------------------------- steps

  lemma AbsorbStep(f: Permutation, x: Regs, i: In, j: Job)
    requires Inv(f, x, j) && x.control == Absorbing
    ensures Inv(f, Edge(f, x, i), NextJob(x, i, j))
  {
    hide XorAt, Mod, Hash, Seed;
    NextMod(|j.absorbed|, x.rate);
    if i.valid {
      var m := j.absorbed + [i.byte];
      assert m[..|j.absorbed|] == j.absorbed;
    }
  }

  lemma FinishStep(f: Permutation, x: Regs, i: In, j: Job)
    requires Inv(f, x, j) && (x.control == PadFinal || x.control == PermFinal)
    ensures Inv(f, Edge(f, x, i), NextJob(x, i, j))
  {
    hide XorAt, Fed, Padded;
    FinishMeaning(f, x.rate, j.absorbed, x.suffix);
  }

  lemma SqueezeStep(f: Permutation, x: Regs, i: In, j: Job)
    requires Inv(f, x, j) && x.control == Squeezing
    ensures Inv(f, Edge(f, x, i), NextJob(x, i, j))
  {
    hide Mod, Div, Squeeze, Seed, Fed, XorAt;
    var z := Squeeze(f, x.rate, Seed(f, j.mode, j.absorbed), j.length);
    SqueezeAt(f, x.rate, Seed(f, j.mode, j.absorbed), j.length, x.outputCount);
    NextMod(x.outputCount, x.rate);
    assert z[..x.outputCount + 1] == z[..x.outputCount] + [z[x.outputCount]];
    if x.outputCount + 1 == j.length { assert z[..j.length] == z; }
  }

  /** One edge, whatever the inputs: the absorbed bytes and the emitted bytes stay those of the
      standard's sponge, and at the done pulse the output is complete. */
  lemma EdgeKeeps(f: Permutation, x: Regs, i: In, j: Job)
    requires Inv(f, x, j) && i.Ok()
    ensures Inv(f, Edge(f, x, i), NextJob(x, i, j))
  {
    hide Mod, Div, Hash, Seed, Fed, XorAt, Squeeze;
    match x.control {
    case Absorbing => AbsorbStep(f, x, i, j);
    case PadFinal => FinishStep(f, x, i, j);
    case PermFinal => FinishStep(f, x, i, j);
    case Squeezing => SqueezeStep(f, x, i, j);
    case Idle => FedNothing(f, Rate(i.mode));
    case PermAbsorb =>
    case PermSqueeze =>
    }
  }

  lemma FedNothing(f: Permutation, r: BlockSize)
    ensures Fed(f, r, []) == Zeros() && Mod(0, r) == 0
  {
  }

  // ---------------------------------------------------------------- the machine

  class Sha3ShakeStream {
    const f: Permutation
    var x: Regs
    ghost var job: Job

    ghost predicate Valid()
      reads this
    {
      Inv(f, x, job)
    }

    constructor (permutation: Permutation)
      ensures Valid() && f == permutation && x.control == Idle && !x.done
    {
      f := permutation;
      x := Regs(Idle, Zeros(), 0, 0, 0, 0, 136, 6, false, 0);
      job := Job(0, 0, [], []);
    }

    /** One rising edge under arbitrary inputs, stalls and permutation delays.  Input is taken only
        in the absorb state, and a finalize is heard only there and only without a valid byte; the
        bytes taken and given are recorded in the job, and at the done pulse the bytes given are
        exactly the hash of the bytes taken. */
    method Clock(i: In) returns (ready: bool, valid: bool, byte: Byte)
      requires Valid() && i.Ok()
      modifies this
      ensures Valid()
      ensures ready == (old(x.control) == Absorbing) && valid == (old(x.control) == Squeezing)
      ensures old(x.control) == Idle && i.start ==> job == Job(i.mode, i.outputLength, [], [])
      ensures old(x.control) != Idle ==>
        && job.mode == old(job.mode) && job.length == old(job.length)
        && job.absorbed == old(job.absorbed) + (if ready && i.valid then [i.byte] else [])
        && job.emitted == old(job.emitted) + (if valid && i.ready then [byte] else [])
      ensures x.done ==> job.emitted == Hash(f, job.mode, job.absorbed, job.length)
      ensures old(x.control) == Absorbing ==> (x.control == PadFinal <==> i.finalize && !i.valid)
    {
      hide Fed, Hash, Seed, Absorb, XorAt, Mod, Div;
      EdgeKeeps(f, x, i, job);
      ready, valid, byte := x.control == Absorbing, x.control == Squeezing, OutputByte(x);
      job := NextJob(x, i, job);
      x := Edge(f, x, i);
    }
  }
}
