/** The sampling jobs K-PKE.Encrypt gives the shared hash engine, against the standard's matrix
  expansion and noise sampling (FIPS 203, sections 4.2.2 and 5.2). */
module SampleJobs {
  import opened Bytes
  import opened Ring
  import opened Kernel
  import opened PolyRam
  import opened Layout
  import HashEngine
  import HashFeeder
  import Sampling
  import Sponge

  type Seed = HashFeeder.Value

  // ---------------------------------------------------------------- the standard

  /** Acceptable values for entry (i, j) of the matrix: those of SHAKE128(rho || j || i), of which
      the engine looks at 1024 bytes. */
  function Entries(f: Sponge.Permutation, rho: Seed, i: Byte, j: Byte): (a: seq<nat>)
    ensures forall v :: v in a ==> v < 3329
  {
    Sampling.Accepted(Sponge.Hash(f, 2, rho + [j, i], 1024), 341)
  }

  /** Entry (i, j) of the matrix, in transformed form; zeros where the stream was too short. */
  function MatrixEntry(f: Sponge.Permutation, rho: Seed, i: Byte, j: Byte): Poly {
    var a := Entries(f, rho, i, j);
    seq(256, k requires 0 <= k < 256 => if k < |a| then a[k] else 0)
  }

  /** Centred binomial polynomial number n of SHAKE256(coins || n). */
  function NoisePoly(f: Sponge.Permutation, coins: Seed, n: Byte, eta: nat): Poly
    requires 2 <= eta <= 3
  {
    seq(256, k requires 0 <= k < 256 =>
      (HashEngine.NoiseIndex(eta, k, 256); Sampling.Binomial(Sponge.Hash(f, 3, coins + [n], 64 * eta), eta, k)))
  }

  lemma EntryRange(f: Sponge.Permutation, rho: Seed, i: Byte, j: Byte)
    ensures Bounded(MatrixEntry(f, rho, i, j), 3328)
  {
    hide Sampling.Accepted;
    var a := Entries(f, rho, i, j);
    forall k: nat | k < 256 ensures 0 <= MatrixEntry(f, rho, i, j)[k] <= 3328 {
      if k < |a| { assert a[k] in a; }
    }
  }

  lemma NoiseRange(f: Sponge.Permutation, coins: Seed, n: Byte, eta: nat)
    requires 2 <= eta <= 3
    ensures Bounded(NoisePoly(f, coins, n, eta), 3)
  {
    hide Sampling.Binomial;
    forall k: nat | k < 256 ensures -3 <= NoisePoly(f, coins, n, eta)[k] <= 3 {
      HashEngine.NoiseIndex(eta, k, 256);
      Sampling.BinomialRange(Sponge.Hash(f, 3, coins + [n], 64 * eta), eta, k);
    }
  }

  // ---------------------------------------------------------------- jobs

  function Unused(): Seed { seq(32, _ => 0) }

  function MatrixJob(rho: Seed, x: Byte, y: Byte, slot: Slot): HashFeeder.Operands {
    HashFeeder.Operands(HashFeeder.MATRIX, rho, Unused(), [0, 0, 0, 0], x, y, 0, false, slot)
  }

  function NoiseJob(coins: Seed, nonce: Byte, eta3: bool, slot: Slot): HashFeeder.Operands {
    HashFeeder.Operands(HashFeeder.NOISE, coins, Unused(), [0, 0, 0, 0], 0, 0, nonce, eta3, slot)
  }

  predicate IsSampling(o: HashFeeder.Operands) { o.cmd == HashFeeder.MATRIX || o.cmd == HashFeeder.NOISE }

  /** What a job leaves in its slot, and when it raises the error flag. */
  function Outcome(f: Sponge.Permutation, o: HashFeeder.Operands, was: Poly): Poly
    requires IsSampling(o)
  {
    if o.cmd == HashFeeder.MATRIX then HashEngine.Placed(was, HashEngine.Ints(Entries(f, o.d0, o.y, o.x)))
    else NoisePoly(f, o.d0, o.nonce, if o.eta3 then 3 else 2)
  }

  predicate Fails(f: Sponge.Permutation, o: HashFeeder.Operands) {
    o.cmd == HashFeeder.MATRIX && |Entries(f, o.d0, o.y, o.x)| < 256
  }

  /** The contract of a whole hash command, read as the outcome of a sampling job. */
  lemma MatrixOutcome(f: Sponge.Permutation, o: HashFeeder.Operands, sk: SecretKey, ct: Ciphertext)
    requires o.cmd == HashFeeder.MATRIX
    ensures Sampling.Accepted(HashEngine.Stream(f, o, sk, ct), 341) == Entries(f, o.d0, o.y, o.x)
  {
    hide Sampling.Accepted, Sponge.Hash;
  }

  lemma NoiseOutcome(f: Sponge.Permutation, o: HashFeeder.Operands, sk: SecretKey, ct: Ciphertext, was: Poly)
    requires o.cmd == HashFeeder.NOISE
    ensures HashEngine.Placed(was, HashEngine.Noise(HashEngine.Stream(f, o, sk, ct), HashEngine.Eta(o), 256)) == Outcome(f, o, was)
  {
    hide Sampling.Binomial, Sponge.Hash;
    var z := Sponge.Hash(f, 3, o.d0 + [o.nonce], 64 * HashEngine.Eta(o));
    assert HashEngine.Stream(f, o, sk, ct) == z;
    forall k: nat | k < 256
      ensures HashEngine.Placed(was, HashEngine.Noise(z, HashEngine.Eta(o), 256))[k] == Outcome(f, o, was)[k]
    {
      HashEngine.NoiseIndex(HashEngine.Eta(o), k, 256);
    }
  }

  /** Whatever the job, the slot holds 16-bit words afterwards. */
  lemma OutcomeWords(f: Sponge.Permutation, o: HashFeeder.Operands, was: Poly)
    requires IsSampling(o) && Words(was)
    ensures Words(Outcome(f, o, was))
  {
    if o.cmd == HashFeeder.MATRIX {
      hide Sampling.Accepted;
      var a := Entries(f, o.d0, o.y, o.x);
      forall k: nat | k < 256 ensures -32768 <= Outcome(f, o, was)[k] < 32768 {
        if k < |a| { assert a[k] in a; }
      }
    } else {
      hide NoisePoly;
      NoiseRange(f, o.d0, o.nonce, if o.eta3 then 3 else 2);
    }
  }

  /** A matrix job that does not fail leaves the standard's entry: the first coordinate byte is the
      column, the second the row. */
  lemma OutcomeIsEntry(f: Sponge.Permutation, rho: Seed, x: Byte, y: Byte, slot: Slot, was: Poly)
    requires !Fails(f, MatrixJob(rho, x, y, slot))
    ensures Outcome(f, MatrixJob(rho, x, y, slot), was) == MatrixEntry(f, rho, y, x)
  {
    hide Sampling.Accepted;
  }
}
