# Verified model of the ML-KEM-512 secure-channel hardware

The repository implements a post-quantum secure channel: ML-KEM-512 decapsulation and
ChaCha20-Poly1305 packets in clocked hardware, a small C scheduler in front of it, and a
two-board demonstration that hands vehicles over from one board to the other. The fast forms in
it (pipelined, overlapped, byte-serial, lazily reduced) stand for simple specifications. This
project models the fast forms register by register and proves them against the simple ones.

Run `dafny verify dfyconfig.toml` with Dafny 4.11.

## How the models are built

A clocked unit is a class. Its registers are grouped in datatypes; a next-value function gives
every register its new value from the old ones, with the widths of the source written out as
wrap-arounds; `Clock` performs one rising edge of the unit and the memories it owns a port of. What
each register means while a command is in flight is a predicate on values, and one lemma per unit
says that an edge keeps it. `Run`, where present, drives a whole command and states its result
against a specification function. Loops over arrays (the C scheduler) are methods over arrays.

| layer | files |
|---|---|
| ring arithmetic modulo 3329, its transforms and the standard's roots | `ModQ`, `Ring`, `Unity`, `ZetaRom` |
| polynomial kernel: sequential words, pipelines, clocked machine | `Kernel`, `ParityBank`, `Pipeline`, `Accelerator` |
| polynomial memory and the overlapping bridge | `PolyRam`, `Bridge` |
| add/sub, codecs, unpacking, comparison, messages | `AddSub`, `Codec`, `Layout`, `Encoding`, `Decoding`, `Unpack`, `PackCompare`, `Messages`, `ReadMsg`, `WriteMsg`, `PublicKey` |
| K-PKE schedules and their clocked engines | `Decrypt`, `SampleJobs`, `Reencrypt`, `Kpke`, `Sequencer`, `DecryptEngine`, `ReencryptEngine` |
| one-time authenticator | `Bytes`, `Mac`, `Poly1305` |
| sponge, feeder, samplers | `Sponge`, `Fips202`, `Sampling`, `HashFeeder`, `HashEngine` |
| state over whole runs | `Session`, `Scheduler`, `Handover`, `Orphans`, `Reuse` |

The main results are `Kernel.KernelMultiplies` and `Unity.NttIsStandard` with `ZetaRom.RomRoots`,
`Accelerator.PolyAccelerator.Clock`, `Bridge.PolyBridge.Run`,
`DecryptEngine.KpkeDecryptEngine.Clock` with `Kpke.DecodedIsStandard` and `Kpke.StandardDecryptsExactly`,
`ReencryptEngine.KpkeReencryptEngine.Clock` with `Kpke.ExpectedIsStandard`,
`Poly1305.Poly1305Fixed96.Authenticate`, `Sponge.Sha3ShakeStream.Clock` with `Fips202.HashIsStandard`,
`HashEngine.SharedHashEngine.Run` with `HashEngine.CommandHashes`, `Session.InstalledServes` and
`Session.NoncesCollide` with `Session.SessionManager.Serve`, `Scheduler.ServedWithin64` and
`Scheduler.RequestsConserved`, `Handover.EveryRunIsSafe` and `Orphans.AccountedExactly`.

## What the proofs bring to light

- Overlap is not free. A bridge command that reads its immediate predecessor's destination works
  on the stale slot and in general leaves another memory (`Bridge.HazardReadsStale`,
  `Bridge.OverlapDecides`, `Bridge.OverlapMatters`); at distance two overlap is invisible
  (`Bridge.OverlapInvisible`). Both engine schedules respect the rule.
- Forward transforms are never reduced; they reach 8 * 3328, and the products they enter still fit.
- 831 is the largest error every message bit survives; the exact range is one wider on three of its four
  ends (`Messages.BitExact`, `Messages.BitLost`).
- Nonces are unique within one installation of a session. Installing the same record again starts its
  counters over and repeats them (`Session.NoncesCollide`, `Session.ReinstallRepeats`).
- The comparison of the matrix command's coefficient counter with 256 always succeeds, because the
  counter has eight bits; the error flag is right all the same, since a full slot leaves the state
  that could raise it (`HashEngine.MatrixEnd`).
- Open slots get lost: open on a board, held by nobody, never told to leave. That happens exactly when
  a board refuses a leave, on the way out or after a switch, or when an open that is not a switch (a
  retry) succeeds for a vehicle that has a place (`Orphans.AccountedExactly`, with one run for each in
  `Orphans.RetryLoses`, `Orphans.RefusalLoses` and `Orphans.SwitchLoses`). A lost slot stays lost
  (`Orphans.LostForever`). Exclusive use of slots is not affected.
- On a road of 64 vehicles the first respawned vehicle gets number 64, one past the numbers the
  vehicles start with; later numbers are taken modulo 64 (`Handover.FreshIsUnused`).

## Model

| member | source | states |
|---|---|---|
| ModQ.MontgomeryExact | outputs/rtl_aead/rtl/mlkem_poly_accelerator.sv:357-361 | the two-stage Montgomery reduction on 16- and 32-bit registers is exact (result times 2^16 is the product minus a multiple of 3329), congruent to the product over 2^16, and below 3329 in magnitude for products below 2^15 * 3329 |
| ModQ.FqMulBounded | outputs/rtl_aead/rtl/mlkem_poly_accelerator.sv:356-361 | one coefficient multiply with operands bounded by A and B: range of the result and its residue, for every A * B that leaves the subtraction room |
| ModQ.BarrettExact | outputs/rtl_aead/rtl/mlkem_poly_accelerator.sv:423-432 | the Barrett quotient is the rounded one for every 18-bit operand, so the remainder is the residue nearest zero |
| ModQ.CancelR | outputs/rtl_aead/rtl/mlkem_poly_accelerator.sv:357-361 | the Montgomery radix is invertible modulo 3329, so a common factor cancels |
| ZetaRom.EveryEntryOk | outputs/rtl_aead/rtl/mlkem_poly_accelerator.sv:129-162 | each of the 127 used ROM entries is a lower entry times the power of 17 its top bit stands for, squares to its tree node's constant, and is minus the inverse of the entry the inverse transform pairs it with |
| ZetaRom.RomPower | outputs/rtl_aead/rtl/mlkem_poly_accelerator.sv:129-162 | ROM entry k is 17 to the power BitRev7(k), in Montgomery form, for all 128 entries |
| ZetaRom.RomRoots | outputs/rtl_aead/rtl/mlkem_poly_accelerator.sv:129-162 | the ROM taken out of Montgomery form is the table of zetas of FIPS 203, appendix A |
| ZetaRom.RomGood | outputs/rtl_aead/rtl/mlkem_poly_accelerator.sv:129-162 | the ROM has every property the transforms rest on: range, the standard's values, squares and pairing |
| Ring.WindowSplit | outputs/rtl_aead/rtl/mlkem_poly_accelerator.sv:354-383 | reducing a product modulo X^2m - c to X^m - r with r^2 = c gives the product of the reductions, coefficient by coefficient |
| Ring.ForwardProducts | outputs/rtl_aead/rtl/mlkem_poly_accelerator.sv:354-383 | after every forward layer, the blocks of the transformed product are the products of the transformed blocks |
| Ring.NttMultiplicative | outputs/rtl_aead/rtl/mlkem_poly_accelerator.sv:354-383 | the forward transform turns multiplication in Z_q[X]/(X^256 + 1) into 128 products of degree-one residues |
| Ring.MergeSplit | outputs/rtl_aead/rtl/mlkem_poly_accelerator.sv:419-451 | one inverse layer undoes one forward layer up to the factor two, because the descending zeta order pairs each constant with minus its inverse |
| Ring.BackwardForward | outputs/rtl_aead/rtl/mlkem_poly_accelerator.sv:419-451 | layer by layer, the way back undoes the way forth and doubles once per layer |
| Ring.InvNttNtt | outputs/rtl_aead/rtl/mlkem_poly_accelerator.sv:391-451 | the inverse transform with the factor 128^-1 inverts the forward one |
| Ring.InvNttCong | outputs/rtl_aead/rtl/mlkem_poly_accelerator.sv:391-451 | the inverse transform carries a common factor through all seven layers |
| Ring.NttInvNtt | outputs/rtl_aead/rtl/mlkem_poly_accelerator.sv:354-451 | the forward transform inverts the inverse one as well, so it is the two-sided inverse |
| Unity.LayerResidue | outputs/rtl_aead/rtl/mlkem_poly_accelerator.sv:354-383 | after every forward layer a block holds the input modulo X^n minus the constant of its tree node, as a sum of powers |
| Unity.LeafModulus | outputs/rtl_aead/rtl/mlkem_poly_accelerator.sv:466-470 | the 128 moduli of the last layer, which BaseMul uses, are X^2 - 17^(2 BitRev7(i) + 1), in this order |
| Unity.NttIsStandard | outputs/rtl_aead/rtl/mlkem_poly_accelerator.sv:354-383 | words 2i and 2i + 1 of the transform are the input modulo X^2 - 17^(2 BitRev7(i) + 1), the definition of FIPS 203, section 4.3 |
| Unity.InvNttRoots | outputs/rtl_aead/rtl/mlkem_poly_accelerator.sv:391-451 | congruent roots give congruent inverse transforms, so the ROM may be replaced by the standard's table |
| Kernel.NttMeaning | outputs/rtl_aead/rtl/mlkem_poly_accelerator.sv:354-383 | after forward layer l every word is within (l + 1) * 3328, so no register wraps, and the words are congruent to the l-fold reduction of the input |
| Kernel.BarrettSumMeaning | outputs/rtl_aead/rtl/mlkem_poly_accelerator.sv:420-432 | the Barrett branch of the inverse butterfly maps any 16-bit sum to its residue nearest zero |
| Kernel.InttLayersMeaning | outputs/rtl_aead/rtl/mlkem_poly_accelerator.sv:391-451 | from any 16-bit memory, every inverse layer stays below 3329 in magnitude and is the ring's layer times the scale factor |
| Kernel.InttMeaning | outputs/rtl_aead/rtl/mlkem_poly_accelerator.sv:391-451 | the inverse command computes 2^16 times the inverse transform, for all 16-bit inputs |
| Kernel.BaseMulMeaning | outputs/rtl_aead/rtl/mlkem_poly_accelerator.sv:459-495 | BaseMul is 2^-16 times the pairwise products for operand bounds up to 26624 each, and is within 2 * 3328 when one operand is an unchecked 12-bit value and the other an unreduced transform |
| Kernel.ForwardInverse | outputs/rtl_aead/rtl/mlkem_poly_accelerator.sv:354-451 | inverse after forward gives 2^16 times every coefficient, for every polynomial within 3328 |
| Kernel.KernelMultiplies | outputs/rtl_aead/rtl/mlkem_poly_accelerator.sv:354-506 | forward, forward, BaseMul, inverse is the product in Z_3329[X]/(X^256 + 1): all Montgomery factors cancel |
| Kernel.InverseOfProduct | outputs/rtl_aead/rtl/mlkem_poly_accelerator.sv:391-506 | the inverse command applied to 2^-16 times residues is exactly their inverse transform |
| ParityBank.PairFacts | outputs/rtl_aead/rtl/mlkem_poly_accelerator.sv:40-45 | the two addresses of a butterfly lie in the same block and always in opposite parity banks |
| ParityBank.FlipBit | outputs/rtl_aead/rtl/mlkem_poly_accelerator.sv:40-45 | setting one clear address bit flips the parity |
| ParityBank.ReadPair | outputs/rtl_aead/rtl/mlkem_poly_accelerator.sv:170-180 | two routed reads return the two requested words in request order |
| ParityBank.WritePair | outputs/rtl_aead/rtl/mlkem_poly_accelerator.sv:170-180 | two routed writes of opposite parity write exactly the two requested addresses of the logical memory |
| Pipeline.NextLow | outputs/rtl_aead/rtl/mlkem_poly_accelerator.sv:369-377 | the block, span and butterfly counters visit exactly the first addresses of a layer in increasing order, and end after the last block |
| Pipeline.NttStagesAdvance | outputs/rtl_aead/rtl/mlkem_poly_accelerator.sv:355-367 | one clock of the forward pipeline: every stage again holds the partial result of the butterfly its index register names |
| Pipeline.NttMemoryAdvance | outputs/rtl_aead/rtl/mlkem_poly_accelerator.sv:280-284 | one forward clock retires exactly one butterfly; every other word is still old or already the whole new layer's, and the two writes never meet in one bank |
| Pipeline.NttReads | outputs/rtl_aead/rtl/mlkem_poly_accelerator.sv:262-264 | a butterfly being issued still finds its two old words: no read touches an address in flight |
| Pipeline.NttLayerDone | outputs/rtl_aead/rtl/mlkem_poly_accelerator.sv:378-382 | once everything is retired the memory is the sequential layer |
| Pipeline.ScaleAdvance | outputs/rtl_aead/rtl/mlkem_poly_accelerator.sv:391-400 | one clock of the scale pass keeps stages and memory in step |
| Pipeline.ScaleDone | outputs/rtl_aead/rtl/mlkem_poly_accelerator.sv:404-412 | after its drain the scale pass has left the sequential scale pass's memory |
| Pipeline.InttStagesAdvance | outputs/rtl_aead/rtl/mlkem_poly_accelerator.sv:420-437 | one clock of the five-stage inverse pipeline, including the delayed sum and zeta copies |
| Pipeline.InttMemoryAdvance | outputs/rtl_aead/rtl/mlkem_poly_accelerator.sv:285-289 | one inverse clock retires exactly one butterfly, without a bank conflict |
| Pipeline.InttReads | outputs/rtl_aead/rtl/mlkem_poly_accelerator.sv:262-264 | an inverse butterfly being issued finds its two old words |
| Pipeline.InttLayerDone | outputs/rtl_aead/rtl/mlkem_poly_accelerator.sv:446-450 | the four-clock drain leaves the sequential inverse layer |
| Pipeline.MulStagesAdvance | outputs/rtl_aead/rtl/mlkem_poly_accelerator.sv:459-499 | one clock of the eight-stage BaseMul pipeline, four products and the zeta path aligned |
| Pipeline.MulMemoryAdvance | outputs/rtl_aead/rtl/mlkem_poly_accelerator.sv:292-296 | the pair leaving the BaseMul pipeline is written; all earlier pairs are final and later ones old |
| Accelerator.MemEdgeMeaning | outputs/rtl_aead/rtl/mlkem_poly_accelerator.sv:164-249 | one clock of both memory halves: the computing half sees its routed pair accesses, the other half serves the host, with registered reads |
| Accelerator.NttEdge | outputs/rtl_aead/rtl/mlkem_poly_accelerator.sv:354-383 | one forward clock of all registers keeps the invariant and brings the done pulse one clock closer |
| Accelerator.ScaleEdge | outputs/rtl_aead/rtl/mlkem_poly_accelerator.sv:391-413 | one clock of the scale pass, including the cleared valid bits on the way to the inverse layers |
| Accelerator.InttEdge | outputs/rtl_aead/rtl/mlkem_poly_accelerator.sv:419-451 | one inverse clock, including the next layer's span and zeta index |
| Accelerator.MulEdge | outputs/rtl_aead/rtl/mlkem_poly_accelerator.sv:458-506 | one BaseMul clock |
| Accelerator.PolyAccelerator.constructor | outputs/rtl_aead/rtl/mlkem_poly_accelerator.sv:305-331 | reset leaves an idle kernel whatever the memories hold |
| Accelerator.PolyAccelerator.Clock | outputs/rtl_aead/rtl/mlkem_poly_accelerator.sv:305-510 | one rising edge of the whole kernel: the host is served every clock, and a command reaches done after exactly 924, 1191 or 136 clocks with the memory of the sequential loop nest |
| PolyRam.RamEdgeAt | outputs/rtl_aead/rtl/mlkem_decaps_memory.sv:50-53 | one edge of the polynomial memory in terms of slot and index: registered read of the old word, then the write |
| PolyRam.MixedWrite | outputs/rtl_aead/rtl/mlkem_decaps_memory.sv:50-53 | writing the next word of a result extends the part of the slot that is already new |
| Bridge.OverlapInvisible | outputs/rtl_aead/rtl/mlkem_poly_bridge_controller.sv:56-60 | if no command reads its immediate predecessor's destination, loading early is invisible: the overlapped order equals one command at a time |
| Bridge.HazardReadsStale | outputs/rtl_aead/rtl/mlkem_poly_bridge_controller.sv:79-90 | with such a read, through either operand, the second command works on the stale slot; both results are given |
| Bridge.OverlapDecides | outputs/rtl_aead/rtl/mlkem_poly_bridge_controller.sv:79-117 | two commands give the same memory overlapped and one at a time exactly when the second one's result is the same from the old and from the new operands |
| Bridge.OverlapMatters | outputs/rtl_aead/rtl/mlkem_poly_bridge_controller.sv:79-117 | two transforms in a row and concrete slots at which the two memories differ, so the distance-two rule is needed |
| Bridge.AfterStep | outputs/rtl_aead/rtl/mlkem_poly_bridge_controller.sv:104-107 | storing command k turns the memory after k results into the memory after k + 1 |
| Bridge.FlagsKept | outputs/rtl_aead/rtl/mlkem_poly_bridge_controller.sv:69-119 | every edge keeps the flags each controller state relies on |
| Bridge.PositionsKept | outputs/rtl_aead/rtl/mlkem_poly_bridge_controller.sv:69-119 | every edge keeps the queued, loaded, running and waiting commands at consecutive positions of the accepted sequence, none lost or doubled |
| Bridge.KernelKept | outputs/rtl_aead/rtl/mlkem_poly_bridge_controller.sv:91-99 | the kernel always runs the operands of the command the registers name, and its result stays in place until stored |
| Bridge.LoadKept | outputs/rtl_aead/rtl/mlkem_poly_bridge_controller.sv:75-90 | operands arrive word by word from the memory with every result but the predecessor's |
| Bridge.StoreKept | outputs/rtl_aead/rtl/mlkem_poly_bridge_controller.sv:99-117 | results leave word by word into their destination slot, and nothing else in the memory changes |
| Bridge.InvKept | outputs/rtl_aead/rtl/mlkem_poly_bridge_controller.sv:40-121 | all of the above together through one edge of bridge, kernel and memory |
| Bridge.WorkDown | outputs/rtl_aead/rtl/mlkem_poly_bridge_controller.sv:69-121 | every clock without a new command brings the idle state nearer, so everything accepted is finished |
| Bridge.ReadyLasts | outputs/rtl_aead/rtl/mlkem_poly_bridge_controller.sv:56-61 | a caller polling ready first sees it on the launch clock, and it still holds one clock later when the start arrives |
| Bridge.DoneMeans | outputs/rtl_aead/rtl/mlkem_poly_bridge_controller.sv:62-62 | at the done pulse nothing is queued, loaded, running or unstored, and the memory is that of the overlapped order |
| Bridge.PolyBridge.constructor | outputs/rtl_aead/rtl/mlkem_poly_bridge_controller.sv:65-68 | reset rests with an idle kernel |
| Bridge.PolyBridge.Clock | outputs/rtl_aead/rtl/mlkem_poly_bridge_controller.sv:64-121 | one rising edge of controller, kernel and polynomial memory under an arbitrary start input |
| Bridge.PolyBridge.Issue | outputs/rtl_aead/rtl/mlkem_poly_bridge_controller.sv:70-71 | a start that meets ready appends its command to the accepted sequence |
| Bridge.PolyBridge.AwaitReady | outputs/rtl_aead/rtl/mlkem_poly_bridge_controller.sv:56-61 | waiting for ready terminates and changes nothing accepted |
| Bridge.PolyBridge.AwaitDone | outputs/rtl_aead/rtl/mlkem_poly_bridge_controller.sv:62-62 | waiting for done terminates with every accepted result stored |
| Bridge.PolyBridge.Run | outputs/rtl_aead/rtl/mlkem_poly_bridge_controller.sv:40-121 | any nonempty command sequence issued through ready leaves the overlapped memory, and the serial one when no command reads its predecessor's destination |
| Mac.MaskClamps | outputs/rtl_aead/rtl/poly1305_fixed96.sv:14-15 | the 128-bit mask clears exactly the bits the RFC clears byte by byte |
| Mac.BlockValue | outputs/rtl_aead/rtl/poly1305_fixed96.sv:75-83 | a block is its 16 little-endian bytes plus 2^128 |
| Poly1305.ProductValue | outputs/rtl_aead/rtl/poly1305_fixed96.sv:85-101 | the 25 shared products with the fivefold wrap-around terms are a * r modulo 2^130 - 5 |
| Poly1305.TermFits | outputs/rtl_aead/rtl/poly1305_fixed96.sv:45-51 | no product leaves its 57-bit register for any accumulator that can occur |
| Poly1305.SumFits | outputs/rtl_aead/rtl/poly1305_fixed96.sv:184-199 | no sum of five products leaves the 64-bit accumulator |
| Poly1305.LimbsAdd | outputs/rtl_aead/rtl/poly1305_fixed96.sv:158-161 | adding a block to the accumulator never leaves the 28-bit limbs |
| Poly1305.CarryStep | outputs/rtl_aead/rtl/poly1305_fixed96.sv:203-231 | each carry clock keeps the value modulo 2^130 - 5 and the bounds the next one needs |
| Poly1305.StoredStep | outputs/rtl_aead/rtl/poly1305_fixed96.sv:233-239 | after the sixth step only limb 1 can reach 2^26, and no bit is cut off |
| Poly1305.PackedIsCanonical | outputs/rtl_aead/rtl/poly1305_fixed96.sv:103-113 | packing loses nothing and stays below 2p, so one conditional subtraction is the canonical residue |
| Poly1305.EdgeKeeps | outputs/rtl_aead/rtl/poly1305_fixed96.sv:139-275 | one edge in any state keeps every register's meaning; at done the tag is exact |
| Poly1305.Poly1305Fixed96.constructor | outputs/rtl_aead/rtl/poly1305_fixed96.sv:116-137 | reset leaves an idle machine |
| Poly1305.Poly1305Fixed96.Clock | outputs/rtl_aead/rtl/poly1305_fixed96.sv:115-275 | a start takes 495 more clocks, and at the done pulse the tag register is the tag of section 2.5 of RFC 8439 |
| Poly1305.Poly1305Fixed96.Authenticate | outputs/rtl_aead/rtl/poly1305_fixed96.sv:115-275 | for every key and every 96-byte message a whole command ends with that tag |
| AddSub.ReductionExact | outputs/rtl_aead/rtl/mlkem512_sampling_primitives.sv:28-43 | the three-stage reduction with its 18-, 8- and 20-bit registers gives the canonical residue of every sum or difference of 16-bit words |
| AddSub.StillOriginal | outputs/rtl_aead/rtl/mlkem_poly_addsub_controller.sv:28-46 | the write always trails the reads, so a word still to be read is the original even when the destination is a source |
| AddSub.InvKept | outputs/rtl_aead/rtl/mlkem_poly_addsub_controller.sv:28-90 | every edge keeps pipeline stages, pending write and memory aligned |
| AddSub.AddSubController.Clock | outputs/rtl_aead/rtl/mlkem_poly_addsub_controller.sv:28-90 | one rising edge; at done the destination holds the canonical sums and every other slot is unchanged, 772 clocks after the start |
| AddSub.AddSubController.Run | outputs/rtl_aead/rtl/mlkem_poly_addsub_controller.sv:28-90 | a whole command, for all 16-bit slot contents, aliased or not |
| Codec.Comp10IsCompress | outputs/rtl_aead/rtl/mlkem512_codec_primitives.sv:30-33 | the 22-bit constant multiply is Compress with d = 10 for every canonical coefficient |
| Codec.Comp4IsCompress | outputs/rtl_aead/rtl/mlkem512_codec_primitives.sv:57-61 | the 9-bit constant multiply is Compress with d = 4 for every canonical coefficient |
| Codec.DecompressionMeaning | outputs/rtl_aead/rtl/mlkem512_codec_primitives.sv:10-50 | both expansions are Decompress and canonical |
| Codec.CompressDecompress | outputs/rtl_aead/rtl/mlkem512_codec_primitives.sv:44-63 | compressing an expanded field gives the field back, for d = 10 and d = 4 |
| Codec.FieldsMeaning | outputs/rtl_aead/rtl/mlkem512_codec_primitives.sv:15-21 | the four ten-bit fields are the base-1024 digits of the five bytes |
| Codec.BytesOfFields | outputs/rtl_aead/rtl/mlkem512_codec_primitives.sv:34-41 | packing the fields of five bytes gives the bytes |
| Codec.FieldsOfBytes | outputs/rtl_aead/rtl/mlkem512_codec_primitives.sv:34-41 | the fields of packed bytes are the fields packed |
| Codec.PackUnpack10 | outputs/rtl_aead/rtl/mlkem512_codec_primitives.sv:4-42 | unpacking five bytes and packing the coefficients is the identity |
| Codec.PackUnpack4 | outputs/rtl_aead/rtl/mlkem512_codec_primitives.sv:44-63 | unpacking one byte and packing its two coefficients is the identity |
| Codec.PackIsStandard | outputs/rtl_aead/rtl/mlkem512_codec_primitives.sv:24-63 | packing one group of canonical coefficients gives the fields of Compress |
| Codec.TwelveBits | outputs/rtl_aead/rtl/mlkem512_codec_primitives.sv:65-71 | three bytes, read least significant first, are the two 12-bit fields in base 4096: the key decoder and the rejection sampler |
| Layout.SelectedByte | outputs/rtl_aead/rtl/mlkem512_unpack_controller.sv:22-28 | the word requested one clock ago holds the selected byte |
| Layout.CoeffRange | outputs/rtl_aead/rtl/mlkem512_unpack_controller.sv:29-39 | expanded ciphertext coefficients are canonical, secret-key coefficients only below 4096 |
| Layout.EncodedUnpacked | outputs/rtl_aead/rtl/mlkem512_unpack_controller.sv:42-77 | encoding the expanded u or v polynomials gives back the ciphertext bytes, so three comparison passes over an unpacked ciphertext report nothing |
| Encoding.EncodedIsStandard | outputs/rtl_aead/rtl/mlkem512_decaps_aux_controllers.sv:85-98 | encoding a whole canonical polynomial with the circuits is the standard's ByteEncode of Compress, written bit by bit |
| Encoding.ExpandedIsStandard | outputs/rtl_aead/rtl/mlkem512_unpack_controller.sv:29-39 | the expanded u and v are Decompress of the fields whose ByteEncode is the received bytes |
| Decoding.DecodeEncode | outputs/rtl_aead/rtl/mlkem512_codec_primitives.sv:4-71 | ByteDecode, written bit by bit, undoes ByteEncode for 4, 10 and 12 bits |
| Decoding.KeyIsDecoded | outputs/rtl_aead/rtl/mlkem512_unpack_controller.sv:29-39 | the two secret-key polynomials are ByteDecode of the first two times 384 key bytes, and ByteEncode gives the bytes back |
| Decoding.PublicIsDecoded | outputs/rtl_aead/rtl/mlkem512_decaps_aux_controllers.sv:16-26 | the two public-key polynomials are ByteDecode of the embedded public key, and ByteEncode gives its bytes back |
| Decoding.CiphertextIsDecoded | outputs/rtl_aead/rtl/mlkem512_unpack_controller.sv:29-39 | u and v are Decompress of ByteDecode of their parts of the ciphertext |
| Unpack.FieldIsCoeff | outputs/rtl_aead/rtl/mlkem512_unpack_controller.sv:31-39 | what is written is the coefficient of its own flat address, in all three phases |
| Unpack.InvKept | outputs/rtl_aead/rtl/mlkem512_unpack_controller.sv:42-77 | every edge keeps the expanded prefix, and leaves all other words alone |
| Unpack.UnpackController.Clock | outputs/rtl_aead/rtl/mlkem512_unpack_controller.sv:42-77 | one rising edge of the controller, both byte memories and the polynomial memory |
| Unpack.UnpackController.Run | outputs/rtl_aead/rtl/mlkem512_unpack_controller.sv:42-77 | a whole command expands u, v and the secret key into slots 0 to 4 and changes no other slot |
| PackCompare.GeneratedIsEncoded | outputs/rtl_aead/rtl/mlkem512_decaps_aux_controllers.sv:87-97 | the generated byte is the encoding's byte at the compared position |
| PackCompare.InvKept | outputs/rtl_aead/rtl/mlkem512_decaps_aux_controllers.sv:102-125 | both rails stay complementary and tell whether one of the bytes so far differs |
| PackCompare.PackCompareController.constructor | outputs/rtl_aead/rtl/mlkem512_decaps_aux_controllers.sv:103-104 | reset reports no mismatch |
| PackCompare.PackCompareController.Clock | outputs/rtl_aead/rtl/mlkem512_decaps_aux_controllers.sv:77-126 | one rising edge of the controller and its two memories |
| PackCompare.PackCompareController.Run | outputs/rtl_aead/rtl/mlkem512_decaps_aux_controllers.sv:77-126 | a pass reports a mismatch exactly when an uncleared earlier pass did or a byte of the range differs from the encoding, and changes no slot |
| Messages.TopBitRange | outputs/rtl_aead/rtl/mlkem_poly_addsub_controller.sv:100-105 | bit 31 of the wrapping product is set exactly on 833..2496, which is Compress with d = 1 |
| Messages.BitExact | outputs/rtl_aead/rtl/mlkem_poly_addsub_controller.sv:100-105 | a message bit is read back exactly when its error, of canonical size, lies in -832..831 for a set bit and -832..832 for a clear one |
| Messages.BitLost | outputs/rtl_aead/rtl/mlkem_poly_addsub_controller.sv:100-105 | 831 is the largest magnitude every bit tolerates: a concrete error of 832 turns a set bit into a clear one |
| ReadMsg.InvKept | outputs/rtl_aead/rtl/mlkem_poly_addsub_controller.sv:108-123 | every edge keeps the bits read so far those of the polynomial |
| ReadMsg.ReadMsgController.Clock | outputs/rtl_aead/rtl/mlkem_poly_addsub_controller.sv:92-124 | one rising edge of the message reader: 513 clocks to done, and the message register then holds one decoded bit per coefficient |
| ReadMsg.ReadMsgController.Run | outputs/rtl_aead/rtl/mlkem_poly_addsub_controller.sv:92-124 | a whole command reads the message of any slot and changes no slot |
| WriteMsg.InvKept | outputs/rtl_aead/rtl/mlkem512_decaps_aux_controllers.sv:67-73 | every edge keeps the words below the index those of the message polynomial |
| WriteMsg.WriteMsgController.Clock | outputs/rtl_aead/rtl/mlkem512_decaps_aux_controllers.sv:58-75 | one rising edge of the message writer: 257 clocks to done, and the slot then holds 1665 for a set bit and 0 for a clear one |
| WriteMsg.WriteMsgController.Run | outputs/rtl_aead/rtl/mlkem512_decaps_aux_controllers.sv:58-75 | a whole command writes the message polynomial and changes no other slot |
| Messages.PublicRange | outputs/rtl_aead/rtl/mlkem512_decaps_aux_controllers.sv:16-26 | public-key coefficients are unchecked 12-bit values |
| PublicKey.InvKept | outputs/rtl_aead/rtl/mlkem512_decaps_aux_controllers.sv:28-52 | every edge of the byte walk keeps the key words written, the bytes collected and the three values captured so far |
| PublicKey.PublicKeyController.Clock | outputs/rtl_aead/rtl/mlkem512_decaps_aux_controllers.sv:4-54 | one rising edge of the public-key unpacker and its two memories: 2337 clocks to done |
| PublicKey.PublicKeyController.Run | outputs/rtl_aead/rtl/mlkem512_decaps_aux_controllers.sv:4-54 | a whole command leaves the embedded public key in slots 0 and 1 and the three 32-byte values behind it in their registers |
| Decrypt.InnerWordsMeaning | outputs/rtl_aead/rtl/mlkem512_kpke_decrypt_engine.sv:38-47 | two products with an unchecked 12-bit operand and an unreduced transform, their reduced sum and the inverse command: no register overflows and all factors cancel |
| Decrypt.ProductSlots | outputs/rtl_aead/rtl/mlkem512_kpke_decrypt_engine.sv:39-42 | the four overlapped commands have distance-two dependencies only, and leave the two products in slots 7 and 8 |
| Decrypt.ScheduledSlots | outputs/rtl_aead/rtl/mlkem512_kpke_decrypt_engine.sv:64-81 | slots 2, 7, 8 and 10 through the whole schedule |
| Decrypt.SlotElevenMeaning | outputs/rtl_aead/rtl/mlkem512_kpke_decrypt_engine.sv:43-45 | slot 11 ends as the canonical v - NTT^-1(s . NTT(u)), despite unreduced intermediates |
| Decrypt.DecryptsExactly | outputs/rtl_aead/rtl/mlkem512_kpke_decrypt_engine.sv:58-82 | with the difference written as the message polynomial plus an error of canonical size, the message is returned exactly when every coefficient's error is one its bit tolerates |
| Decrypt.DecryptsWithinNoise | outputs/rtl_aead/rtl/mlkem512_kpke_decrypt_engine.sv:58-82 | whenever that difference is the message polynomial plus an error of magnitude at most 831 on every coefficient, the message is returned |
| Decrypt.ScheduleDecodes | outputs/rtl_aead/rtl/mlkem512_kpke_decrypt_engine.sv:64-81 | both add/sub steps find 16-bit words, and reading slot 11 gives the standard's decryption |
| Kpke.StandardTransform | outputs/rtl_aead/rtl/mlkem_poly_accelerator.sv:354-495 | with the table of the standard the transform is the 128 remainders, multiplicative, and inverted on both sides |
| Kpke.CommandIsStandard | outputs/rtl_aead/rtl/mlkem_poly_accelerator.sv:354-383 | the forward command leaves the standard's transform of every polynomial within 3328 |
| Kpke.DecodedIsStandard | outputs/rtl_aead/rtl/mlkem512_kpke_decrypt_engine.sv:34-82 | what the schedule decodes is K-PKE.Decrypt of FIPS 203, from ciphertext and key bytes to message bits, with the standard's roots, decoders and compressions |
| Kpke.StandardDecryptsExactly | outputs/rtl_aead/rtl/mlkem512_kpke_decrypt_engine.sv:58-82 | that decryption returns the message exactly when every coefficient's error is one its bit tolerates |
| DecryptEngine.QueuedAt | outputs/rtl_aead/rtl/mlkem512_kpke_decrypt_engine.sv:67-77 | between two pairs a command is queued exactly behind a kernel command that was not the last of its run, and the next pair is then a kernel command too |
| DecryptEngine.LatePoints | outputs/rtl_aead/rtl/mlkem512_kpke_decrypt_engine.sv:64-81 | what the memory holds between the pairs, with four kernel commands overlapping, is what the commands leave one at a time |
| DecryptEngine.CountsKept | outputs/rtl_aead/rtl/mlkem512_kpke_decrypt_engine.sv:58-65 | the command counters show at every state how many pairs of their kind have begun |
| DecryptEngine.FaultExactly | outputs/rtl_aead/rtl/mlkem512_kpke_decrypt_engine.sv:55-56 | the fault output is up, and the message masked, exactly until the last of the five kernel commands has been started |
| DecryptEngine.KpkeDecryptEngine.constructor | outputs/rtl_aead/rtl/mlkem512_kpke_decrypt_engine.sv:59-59 | reset leaves an idle engine that signals a fault |
| DecryptEngine.KpkeDecryptEngine.ClockUnits | outputs/rtl_aead/rtl/mlkem512_kpke_decrypt_engine.sv:19-54 | all four controllers are clocked, the memory port goes to the one whose pair it is, and the flag the state waits for means that its step is complete |
| DecryptEngine.KpkeDecryptEngine.Clock | outputs/rtl_aead/rtl/mlkem512_kpke_decrypt_engine.sv:34-82 | one rising edge of the engine: state register, counters, controllers and memories; every edge comes closer to done, and at done no fault is raised and the message output is K-PKE.Decrypt of the standard |
| DecryptEngine.KpkeDecryptEngine.Decrypt | outputs/rtl_aead/rtl/mlkem512_kpke_decrypt_engine.sv:34-82 | from start to done, for every ciphertext, secret key and slot contents |
| SampleJobs.EntryRange | outputs/rtl_aead/rtl/mlkem_shared_hash_engine.sv:137-140 | a matrix entry is canonical |
| SampleJobs.NoiseRange | outputs/rtl_aead/rtl/mlkem512_sampling_primitives.sv:3-18 | a noise polynomial is within 3 |
| SampleJobs.MatrixOutcome | outputs/rtl_aead/rtl/mlkem_shared_hash_engine.sv:70-70 | the matrix command samples the stream of rho, first coordinate, second coordinate |
| SampleJobs.NoiseOutcome | outputs/rtl_aead/rtl/mlkem_shared_hash_engine.sv:71-71 | the noise command leaves the centred binomial polynomial of coins and nonce, whatever the slot held |
| SampleJobs.OutcomeIsEntry | outputs/rtl_aead/rtl/mlkem512_kpke_reencrypt_shared_engine.sv:45-48 | a matrix job that does not fail leaves entry (y, x) of the standard's matrix, so the jobs walk the transposed matrix |
| Reencrypt.RowInSlots | outputs/rtl_aead/rtl/mlkem512_kpke_reencrypt_shared_engine.sv:52-64 | one row of the schedule on the shared slots: what slot 10 holds, with slots 0 to 7 untouched |
| Reencrypt.MessageInSlots | outputs/rtl_aead/rtl/mlkem512_kpke_reencrypt_shared_engine.sv:57-64 | the message row on the shared slots |
| Reencrypt.RowMeaning | outputs/rtl_aead/rtl/mlkem512_kpke_reencrypt_shared_engine.sv:52-64 | the words of a row are NTT^-1(a . NTT(y)) + e, canonically reduced |
| Reencrypt.MessageMeaning | outputs/rtl_aead/rtl/mlkem512_kpke_reencrypt_shared_engine.sv:57-64 | the words of the message row are NTT^-1(t . NTT(y)) + e2 + the message polynomial |
| Reencrypt.Prepares | outputs/rtl_aead/rtl/mlkem512_kpke_reencrypt_shared_engine.sv:40-53 | message, five noise polynomials and the two in-place transforms |
| Reencrypt.StandardRanges | outputs/rtl_aead/rtl/mlkem512_kpke_reencrypt_shared_engine.sv:40-48 | the nine samples are in the ranges the arithmetic needs, for every seed |
| Reencrypt.SampledRowMeaning | outputs/rtl_aead/rtl/mlkem512_kpke_reencrypt_shared_engine.sv:45-48 | two successful matrix jobs give the row of the transposed matrix the standard asks for |
| Reencrypt.RowsAreStandard | outputs/rtl_aead/rtl/mlkem512_kpke_reencrypt_shared_engine.sv:49-64 | the three compared polynomials are those of K-PKE.Encrypt |
| Reencrypt.RowsEncode | outputs/rtl_aead/rtl/mlkem512_kpke_reencrypt_shared_engine.sv:65-68 | the three encodings of the rows, end to end, are the standard's ciphertext bytes |
| Reencrypt.ThreeComparisons | outputs/rtl_aead/rtl/mlkem512_kpke_reencrypt_shared_engine.sv:65-68 | the three compared ranges make up the whole 768-byte ciphertext |
| Reencrypt.ComparisonDecides | outputs/rtl_aead/rtl/mlkem512_kpke_reencrypt_shared_engine.sv:65-68 | the three passes agree with the ciphertext exactly when it is the whole encryption |
| Reencrypt.OverlappedWords | outputs/rtl_aead/rtl/mlkem512_kpke_reencrypt_shared_engine.sv:49-58 | whatever kernel commands overlap, every slot still holds 16-bit words |
| Kpke.MessageIsDecompressed | outputs/rtl_aead/rtl/mlkem512_decaps_aux_controllers.sv:66-66 | the message polynomial is Decompress, with d = 1, of the message bits |
| Kpke.ReencryptedRoots | outputs/rtl_aead/rtl/mlkem512_kpke_reencrypt_shared_engine.sv:34-98 | the encryption depends on the roots and the public key modulo 3329 only |
| Kpke.ExpectedIsStandard | outputs/rtl_aead/rtl/mlkem512_kpke_reencrypt_shared_engine.sv:34-98 | for an unpacked public key and its seed, the ciphertext compared with is K-PKE.Encrypt of FIPS 203 under the embedded 800-byte key |
| ReencryptEngine.QueuedAt | outputs/rtl_aead/rtl/mlkem512_kpke_reencrypt_shared_engine.sv:86-98 | between two pairs a command is queued exactly behind NT0 or VP0, and the next pair is then a kernel command |
| ReencryptEngine.WordsAt | outputs/rtl_aead/rtl/mlkem512_kpke_reencrypt_shared_engine.sv:59-64 | every add/sub pair finds 16-bit words, whatever the hash engine sampled |
| ReencryptEngine.RowMarks | outputs/rtl_aead/rtl/mlkem512_kpke_reencrypt_shared_engine.sv:87-95 | the eight pairs of a row, from the first matrix job to the comparison: slots, fail register and sticky flag |
| ReencryptEngine.ClosingMarks | outputs/rtl_aead/rtl/mlkem512_kpke_reencrypt_shared_engine.sv:95-98 | the seven pairs of the message row, two of them overlapped |
| ReencryptEngine.Verdict | outputs/rtl_aead/rtl/mlkem512_kpke_reencrypt_shared_engine.sv:65-98 | after all 31 pairs the fail register or the sticky flag is set exactly when a matrix stream was too short or one of the three ranges differs from the slots' encoding |
| ReencryptEngine.RejectedExactly | outputs/rtl_aead/rtl/mlkem512_kpke_reencrypt_shared_engine.sv:34-98 | ... exactly when a matrix stream was too short or the ciphertext is not the encryption of the message under those coins |
| ReencryptEngine.JobDone | outputs/rtl_aead/rtl/mlkem512_kpke_reencrypt_shared_engine.sv:36-48 | what a completed hash command means for the slot and the error flag of a sampling job |
| ReencryptEngine.KpkeReencryptEngine.constructor | outputs/rtl_aead/rtl/mlkem512_kpke_reencrypt_shared_engine.sv:80-80 | reset leaves an idle engine |
| ReencryptEngine.KpkeReencryptEngine.ClockHash | outputs/rtl_aead/rtl/mlkem512_kpke_reencrypt_shared_engine.sv:36-48 | the shared hash engine under the operands the state selects; its error counts in its done state only |
| ReencryptEngine.KpkeReencryptEngine.ClockKernel | outputs/rtl_aead/rtl/mlkem512_kpke_reencrypt_shared_engine.sv:49-58 | the bridge under the command the state selects, with commands queued from pair to pair |
| ReencryptEngine.KpkeReencryptEngine.ClockUnits | outputs/rtl_aead/rtl/mlkem512_kpke_reencrypt_shared_engine.sv:28-76 | all five units are clocked, the memory port goes to the one whose pair it is, and the flag the state waits for means that its step is complete |
| ReencryptEngine.KpkeReencryptEngine.Clock | outputs/rtl_aead/rtl/mlkem512_kpke_reencrypt_shared_engine.sv:34-102 | one rising edge of the engine under any permutation delay: every edge comes closer to done, and at done a mismatch is reported exactly when a matrix stream was too short or the ciphertext is not the encryption |
| ReencryptEngine.KpkeReencryptEngine.Run | outputs/rtl_aead/rtl/mlkem512_kpke_reencrypt_shared_engine.sv:34-102 | from start to done: for every message, rho, coins and ciphertext, mismatch is reported exactly when a matrix stream was too short or the ciphertext is not the encryption of the message under those coins |
| Sponge.FedMeaning | outputs/rtl_aead/rtl/sha3_shake_stream.sv:57-68 | xoring byte by byte and permuting on a full block is absorbing whole blocks and adding the rest |
| Sponge.FinishMeaning | outputs/rtl_aead/rtl/sha3_shake_stream.sv:122-133 | suffix byte and final bit through the same path make the padded message, also when both meet in one byte |
| Fips202.PaddedIsStandard | outputs/rtl_aead/rtl/sha3_shake_stream.sv:43-49 | for each mode the absorbed bytes, bit by bit, are the message, the domain bits 01 or 1111, and pad10*1 to the rate, and the rate is 1600 minus 512, 1024, 256 or 512 |
| Fips202.HashIsStandard | outputs/rtl_aead/rtl/sha3_shake_stream.sv:43-49 | the four modes are SHA3-256, SHA3-512, SHAKE128 and SHAKE256: their hash is the sponge over the one byte string that spells the standard's padded message |
| Fips202.BlockBits | outputs/rtl_aead/rtl/sha3_shake_stream.sv:57-68 | adding a block adds its bits to the first bits of the state and leaves the rest |
| Sponge.SqueezeAt | outputs/rtl_aead/rtl/sha3_shake_stream.sv:152-170 | output byte i comes from byte i mod rate of the state after i / rate further permutations |
| Sponge.EdgeKeeps | outputs/rtl_aead/rtl/sha3_shake_stream.sv:99-173 | one edge under any inputs, stalls and permutation delays keeps the bytes taken and given those of the standard's sponge |
| Sponge.Sha3ShakeStream.constructor | outputs/rtl_aead/rtl/sha3_shake_stream.sv:84-95 | reset leaves an idle machine |
| Sponge.Sha3ShakeStream.Clock | outputs/rtl_aead/rtl/sha3_shake_stream.sv:43-175 | bytes are taken and given only in the absorb and squeeze states, finalize is heard only without a valid byte, and at done the bytes given are the hash of the bytes taken for the requested length |
| Sampling.Accepted | outputs/rtl_aead/rtl/mlkem512_sampling_primitives.sv:20-26 | accepted values are below 3329 |
| Sampling.AcceptedGrows | outputs/rtl_aead/rtl/mlkem_shared_hash_engine.sv:137-140 | more triples only append values |
| Sampling.PairField | outputs/rtl_aead/rtl/mlkem512_sampling_primitives.sv:6-8 | each two-bit field of the masked sum counts its two bits |
| Sampling.TripleField | outputs/rtl_aead/rtl/mlkem512_sampling_primitives.sv:14-17 | each three-bit field of the masked sums counts its three bits |
| Sampling.Cbd2IsBinomial | outputs/rtl_aead/rtl/mlkem512_sampling_primitives.sv:3-9 | the eta-2 circuit gives the standard's centred binomial coefficients of the bit stream |
| Sampling.Cbd3IsBinomial | outputs/rtl_aead/rtl/mlkem512_sampling_primitives.sv:11-18 | the eta-3 circuit gives the standard's centred binomial coefficients of the bit stream |
| Sampling.BinomialRange | outputs/rtl_aead/rtl/mlkem512_sampling_primitives.sv:3-18 | coefficients lie within eta |
| HashFeeder.InputSize | outputs/rtl_aead/rtl/mlkem_shared_hash_engine.sv:114-116 | the input length register is the length of the specified byte string, for all commands |
| HashEngine.CommandHashes | outputs/rtl_aead/rtl/mlkem_shared_hash_engine.sv:48-90 | for every command number: which function, which bytes in which order, and how many bytes of output |
| HashFeeder.LastBlockNeverFull | outputs/rtl_aead/rtl/mlkem_shared_hash_engine.sv:114-116 | no command's input fills its last block, so its last byte never starts a permutation |
| HashFeeder.OperandByteIsInput | outputs/rtl_aead/rtl/mlkem_shared_hash_engine.sv:67-77 | a byte selected from the registers is the specified one, session id most significant byte first |
| HashFeeder.FetchedWord | outputs/rtl_aead/rtl/mlkem_shared_hash_engine.sv:52-60 | memory regions start on word boundaries, so a fetched word is four consecutive input bytes |
| HashFeeder.SelectedIsInput | outputs/rtl_aead/rtl/mlkem_shared_hash_engine.sv:64-77 | the selected byte is the next input byte |
| HashFeeder.BufferKept | outputs/rtl_aead/rtl/mlkem_shared_hash_engine.sv:119-123 | the two-word buffer holds the current word and the next one, in order and without a gap |
| HashFeeder.FeedKept | outputs/rtl_aead/rtl/mlkem_shared_hash_engine.sv:81-88 | one clock under an arbitrary stall: what was delivered stays a prefix of the specified input, nothing lost or doubled |
| HashFeeder.FeedComplete | outputs/rtl_aead/rtl/mlkem_shared_hash_engine.sv:126-126 | the end condition holds exactly when the whole input has been delivered |
| HashFeeder.FeedProgress | outputs/rtl_aead/rtl/mlkem_shared_hash_engine.sv:81-88 | a ready sponge is given a byte at the latest three clocks later |
| HashEngine.FeedStep | outputs/rtl_aead/rtl/mlkem_shared_hash_engine.sv:118-127 | one feeding clock of feeder and sponge; the finalize pulse meets the sponge in its absorb state with the whole input |
| HashEngine.FinalStep | outputs/rtl_aead/rtl/mlkem_shared_hash_engine.sv:128-128 | the finalize pulse is heard, and the output phase starts with nothing emitted |
| HashEngine.MatrixByte | outputs/rtl_aead/rtl/mlkem_shared_hash_engine.sv:129-133 | the matrix command collects triples in stream order |
| HashEngine.MatrixWrite | outputs/rtl_aead/rtl/mlkem_shared_hash_engine.sv:137-140 | each acceptable value is written once, in order, to the next coefficient |
| HashEngine.MatrixEnd | outputs/rtl_aead/rtl/mlkem_shared_hash_engine.sv:136-145 | the command ends with an error exactly when 341 triples held fewer than 256 acceptable values |
| HashEngine.NoiseByte | outputs/rtl_aead/rtl/mlkem_shared_hash_engine.sv:129-133 | the noise command collects groups of three or four bytes |
| HashEngine.NoiseWrite | outputs/rtl_aead/rtl/mlkem_shared_hash_engine.sv:141-144 | each group writes its four or eight coefficients |
| HashEngine.SpongeOutput | outputs/rtl_aead/rtl/mlkem_shared_hash_engine.sv:129-136 | the sponge under the engine's ready signal emits the next byte of the hash, and is done after the last |
| HashEngine.Steps | outputs/rtl_aead/rtl/mlkem_shared_hash_engine.sv:103-148 | one clock in any state keeps the invariant and makes progress |
| HashEngine.ResultAtDone | outputs/rtl_aead/rtl/mlkem_shared_hash_engine.sv:146-146 | at done the slot or the digest register is what the standard defines from the specified byte string |
| HashEngine.FeedWork | outputs/rtl_aead/rtl/mlkem_shared_hash_engine.sv:118-127 | feeding always makes progress, for any permutation delay |
| HashEngine.OutWork | outputs/rtl_aead/rtl/mlkem_shared_hash_engine.sv:129-145 | the output phase always makes progress, so done is reached |
| HashEngine.SharedHashEngine.constructor | outputs/rtl_aead/rtl/mlkem_shared_hash_engine.sv:98-102 | reset leaves a resting engine |
| HashEngine.SharedHashEngine.Clock | outputs/rtl_aead/rtl/mlkem_shared_hash_engine.sv:97-149 | one rising edge of engine, sponge and memories |
| HashEngine.SharedHashEngine.Run | outputs/rtl_aead/rtl/mlkem_shared_hash_engine.sv:97-149 | every command reaches done: matrix values in order or the error flag, all 256 noise differences, or the digest; no other slot changes |
| Session.ConsecutiveCounters | outputs/rtl_aead/rtl/aead_session_manager_bram.sv:353-417 | until its slot is configured again, successful requests of one direction use consecutive counters modulo 2^64, whatever else happens |
| Session.CountersAfterInstall | outputs/rtl_aead/rtl/aead_session_manager_bram.sv:311-319 | from an installation on, both directions use 0, 1, 2, ... without gap or repetition, for up to 2^64 operations |
| Session.NoncesCollide | outputs/rtl_aead/rtl/aead_session_manager_bram.sv:369-371 | successful encryptions after any two installations share a nonce exactly when the prefixes agree and both are the i-th of their installation |
| Session.NoncesDiffer | outputs/rtl_aead/rtl/aead_session_manager_bram.sv:369-371 | within one installation no nonce repeats |
| Session.ReinstallRepeats | outputs/rtl_aead/rtl/aead_session_manager_bram.sv:311-319 | the limit of that: installing the same record again gives the same request the same key and nonce once more |
| Session.OnlySuccessCounts | outputs/rtl_aead/rtl/aead_session_manager_bram.sv:353-407 | a reading of the abstract request that Serve refines: acknowledged or rejected, zero data and no change on rejection, no other slot touched |
| Session.NonceSpelled | outputs/rtl_aead/rtl/aead_session_manager_bram.sv:369-371 | the nonce is four prefix bytes as stored and eight counter bytes most significant first |
| Session.AadSpelled | outputs/rtl_aead/rtl/aead_session_manager_bram.sv:372-376 | the associated data is the session number and the counter, both most significant byte first, and the length byte |
| Session.RecordAfter | outputs/rtl_aead/rtl/aead_session_manager_bram.sv:311-319 | whatever a run does elsewhere, a record keeps its number, keys and prefixes, and its counters have moved by the number of successes |
| Session.InstalledServes | outputs/rtl_aead/rtl/aead_session_manager_bram.sv:353-407 | a request to an installed session after any run, field by field: who is turned away, which key, nonce and associated data the engine is given, and what the response passes on |
| Session.RemovedServesNothing | outputs/rtl_aead/rtl/aead_session_manager_bram.sv:278-290 | a removed slot turns every request away until it is configured again |
| Session.SetWordKeeps | outputs/rtl_aead/rtl/aead_session_manager_bram.sv:325-343 | capturing one word changes exactly its part of the active record |
| Session.WordsDetermine | outputs/rtl_aead/rtl/aead_session_manager_bram.sv:126-141 | the 23 words determine the record |
| Session.InvKept | outputs/rtl_aead/rtl/aead_session_manager_bram.sv:257-428 | every edge keeps the block memory spelling the abstract table, half-written counters and installations included |
| Session.RankDown | outputs/rtl_aead/rtl/aead_session_manager_bram.sv:257-428 | every clock of an operation brings its end nearer, for any engine delay |
| Session.SessionManager.constructor | outputs/rtl_aead/rtl/aead_session_manager_bram.sv:209-254 | reset makes every slot invalid whatever the memory holds |
| Session.SessionManager.Clock | outputs/rtl_aead/rtl/aead_session_manager_bram.sv:193-429 | one rising edge of registers, memory and valid bits |
| Session.SessionManager.Configure | outputs/rtl_aead/rtl/aead_session_manager_bram.sv:261-319 | an installation or removal refines the abstract table update, counters cleared |
| Session.SessionManager.Serve | outputs/rtl_aead/rtl/aead_session_manager_bram.sv:278-424 | a request refines the abstract one: same response, same table, for any engine and any delay |
| Scheduler.ScanMeaning | outputs/rtl_aead/ps_driver/pqc_session_scheduler.c:66-84 | the cyclic scan finds the ready slot at the smallest distance from its start, and none exactly when none is ready |
| Scheduler.MaskedBits | outputs/rtl_aead/ps_driver/pqc_session_scheduler.c:71-80 | the shifted masks split a word at the start bit |
| Scheduler.CandidateIsScan | outputs/rtl_aead/ps_driver/pqc_session_scheduler.c:71-84 | the candidate of each of the three branches is the first slot of the cyclic scan |
| Scheduler.WordUpdated | outputs/rtl_aead/ps_driver/pqc_session_scheduler.c:86-88 | clearing or setting one bit clears or sets one slot and no other |
| Scheduler.MaskTests | outputs/rtl_aead/ps_driver/pqc_session_scheduler.c:27-33 | testing a word with a slot mask reads that slot's bit |
| Scheduler.TakeApproaches | outputs/rtl_aead/ps_driver/pqc_session_scheduler.c:86-93 | a take that serves another slot brings the start strictly closer to a waiting one |
| Scheduler.WaitsFairly | outputs/rtl_aead/ps_driver/pqc_session_scheduler.c:50-94 | while an accepted slot waits, every take serves a slot strictly closer to it than the one before: none twice, at most 63 of them |
| Scheduler.ServedWithin64 | outputs/rtl_aead/ps_driver/pqc_session_scheduler.c:50-94 | over any run of submits and takes an accepted slot is served within 64 takes |
| Scheduler.RequestReturned | outputs/rtl_aead/ps_driver/pqc_session_scheduler.c:42-46 | what is handed back first for a slot is the request that was accepted, whatever is submitted meanwhile |
| Scheduler.SubmittedReturned | outputs/rtl_aead/ps_driver/pqc_session_scheduler.c:42-46 | the first hand-back of a slot that was free is the request submitted to it |
| Scheduler.RequestsConserved | outputs/rtl_aead/ps_driver/pqc_session_scheduler.c:35-94 | over any run, the requests handed back for a slot and the one still waiting are exactly those submitted while it was free, each once and in order |
| Scheduler.PqcSessionScheduler.constructor | outputs/rtl_aead/ps_driver/pqc_session_scheduler.c:20-25 | nothing is pending at first |
| Scheduler.PqcSessionScheduler.HasPending | outputs/rtl_aead/ps_driver/pqc_session_scheduler.c:27-33 | the pending test, false for a bad slot number |
| Scheduler.PqcSessionScheduler.Submit | outputs/rtl_aead/ps_driver/pqc_session_scheduler.c:35-48 | -1 exactly for a bad slot or length, 0 for a busy slot, both without a change; otherwise 1, the slot is ready and holds this request, and no other slot's flag or request moves |
| Scheduler.PqcSessionScheduler.FirstSetBit | outputs/rtl_aead/ps_driver/pqc_session_scheduler.c:10-18 | the shift loop finds the lowest set bit of every nonzero word |
| Scheduler.PqcSessionScheduler.Search | outputs/rtl_aead/ps_driver/pqc_session_scheduler.c:66-84 | the two-word search equals the cyclic scan |
| Scheduler.PqcSessionScheduler.TakeNext | outputs/rtl_aead/ps_driver/pqc_session_scheduler.c:50-94 | takes the scan's slot and its request, and returns 0 exactly when nothing is pending |
| Handover.RunGood | outputs/two_board_demo/pc/board_link.py:413-460 | when a worker runs a command, an open finds its slot closed and everything else finds its session |
| Handover.NoteGood | outputs/two_board_demo/pc/board_link.py:417-428 | the occupancy table follows the board without opening a gap for a second open |
| Handover.WorkerKeeps | outputs/two_board_demo/pc/board_link.py:408-472 | every worker action and every poll keeps the whole invariant |
| Handover.OpenGood | outputs/two_board_demo/pc/simulator.py:371-388 | a slot free in the occupancy table and not reserved belongs to nobody, although the table is read without a lock |
| Handover.UseGood | outputs/two_board_demo/pc/simulator.py:412-427 | an owner may send or leave without disturbing the order of the queue |
| Handover.ScanKeeps | outputs/two_board_demo/pc/simulator.py:371-395 | each step of the slot search, interleaved with the workers, keeps the invariant |
| Handover.ReserveKeeps | outputs/two_board_demo/pc/simulator.py:388-395 | reserving the found slot and queueing the open keeps it |
| Reuse.LeaveFrees | outputs/two_board_demo/pc/board_link.py:426-428 | once a leave is noted its slot is free in every respect: no session, no table entry, no reservation, nothing queued |
| Reuse.OnlyLeavesFree | outputs/two_board_demo/pc/board_link.py:413-470 | a slot that was not free becomes so exactly when a leave for it succeeded |
| Reuse.SearchClaims | outputs/two_board_demo/pc/simulator.py:371-395 | left to itself the search reserves the first free slot and queues the open for it |
| Reuse.SearchFails | outputs/two_board_demo/pc/simulator.py:371-386 | it gives up exactly when no slot is free |
| Reuse.FreedIsClaimed | outputs/two_board_demo/pc/simulator.py:371-395 | a search under way claims the slot a leave has just freed unless it meets another free one first |
| Reuse.SlotReused | outputs/two_board_demo/pc/simulator.py:493-500 | a concrete run: a vehicle connects, drives off, and its successor is served on the same slot |
| Reuse.PacketRound | outputs/two_board_demo/pc/simulator.py:412-427 | a packet goes to the board and slot its sender holds and leaves everything as it was, accepted or not |
| Handover.HandleGood | outputs/two_board_demo/pc/simulator.py:429-451 | handling the oldest report releases its reservation safely |
| Handover.OpenHandled | outputs/two_board_demo/pc/simulator.py:461-491 | the outcome of an open, success or failure, keeps the invariant; the old board is told to leave only after the new session is up |
| Handover.OldSlotFate | outputs/two_board_demo/pc/simulator.py:473-483 | the place held before a successful open is told to leave exactly when the open was a switch; after a retry it stays open with no holder |
| Orphans.RunMoves | outputs/two_board_demo/pc/board_link.py:413-470 | running a command leaves a session standing that was not exactly when the board refuses a leave |
| Orphans.OpenMoves | outputs/two_board_demo/pc/simulator.py:461-491 | the outcome of an open loses the place its vehicle had exactly when it is a success and not a switch |
| Orphans.NextMoves | outputs/two_board_demo/pc/simulator.py:313-565 | each action of any thread loses exactly the slot the loss function names for it, and finds no lost slot again |
| Orphans.LostExactly | outputs/two_board_demo/pc/simulator.py:313-565 | after any run a slot is lost exactly when it was before or some action of the run lost it |
| Orphans.LostForever | outputs/two_board_demo/pc/simulator.py:371-379 | in every continuation of a run a lost slot stays open on its board, held by nobody and never told to leave |
| Orphans.AccountedExactly | outputs/two_board_demo/pc/simulator.py:371-565 | from the initial state, every open session the controller has heard of is held or told to leave exactly as long as the board refuses no leave and no open but a switch succeeds for a vehicle that has a place |
| Orphans.RetryLoses | outputs/two_board_demo/pc/simulator.py:517-528 | a concrete run that loses a slot by a retry: connect, a switch that fails, a retry that succeeds |
| Orphans.RefusalLoses | outputs/two_board_demo/pc/simulator.py:529-530 | a concrete run that loses a slot with no retry: connect, drive off, the board refuses the leave |
| Orphans.SwitchLoses | outputs/two_board_demo/pc/simulator.py:479-483 | a concrete run that loses a slot after a switch: the old board refuses the leave |
| Handover.FreshIsUnused | outputs/two_board_demo/pc/simulator.py:544-549 | a respawned vehicle gets a number nobody has; on a road of 64 vehicles the first such number is 64 |
| Handover.RespawnKeeps | outputs/two_board_demo/pc/simulator.py:544-565 | respawning and asking for a first slot keeps the invariant |
| Handover.HandleKeeps | outputs/two_board_demo/pc/simulator.py:429-530 | handling any result, known or not, keeps the invariant |
| Handover.NextKeeps | outputs/two_board_demo/pc/simulator.py:313-565 | every single action of either thread keeps the invariant |
| Handover.EveryRunIsSafe | outputs/two_board_demo/pc/simulator.py:313-565 | in every interleaving, with any operation failing at any time: holders never share a slot, opens only run on closed slots, packets and leaves find their session |
| Handover.DemoIsSafe | outputs/two_board_demo/pc/simulator.py:98-118 | the same from the initial state with 1 to 64 vehicles |
| Handover.HandoverDemo.constructor | outputs/two_board_demo/pc/simulator.py:98-118 | the initial state satisfies the invariant |
| Handover.HandoverDemo.Act | outputs/two_board_demo/pc/simulator.py:273-565 | one atomic action moves the system by its step function and keeps it safe |

## Left out

- ChaCha20, Keccak-f and the packet cipher engine: uninterpreted functions that answer after an arbitrary finite delay.
- Reset in mid-command, rail faults and fault injection: every unit starts from its reset state and runs fault-free.
- ReencryptEngine.KpkeReencryptEngine: the hash engine is wired to it directly, as in `mlkem_secure_channel_shared_axi_top.sv`, and its way to the polynomial memory, which that top level switches, is part of the engine's own multiplexer here; the three 256-bit inputs and the byte memories must not move during a run.
- Bridge and add/sub slot numbers 12 to 15: the memory has twelve slots, so only those are modelled.
- PolyAccelerator.Clock: the half under computation must not be switched while a command runs, which is what the bridge does; the computing half's read of the result bank, which nothing uses, is left out.
- HashEngine.SharedHashEngine: contains the sponge's registers and next-value function rather than a sponge object, and both byte memories stay constant during a command.
- Decapsulation top level: the implicit-rejection choice, the public-key hash check, and the key-derivation and transcript chain of the secure-channel core.
- SampleJobs.MatrixEntry: the first 1024 bytes of the standard's unbounded stream; when they hold too few values the engine raises its error, as `ReencryptEngine.RejectedExactly` says.
- Decrypt.DecryptsExactly: decides by the error of each coefficient; the probability that honest noise is tolerated is not modelled.
- Session.SessionManager: slot numbers are six bits wide, so the source's range checks always pass and are not modelled; `cfg_ready_o` and `req_ready_o` are the idle state.
- Scheduler.PqcSessionScheduler: null arguments, which the source answers with 0 or -1, have no counterpart.
- Handover.HandoverDemo: one object holding a system state that each atomic action replaces; the vehicles, queues and tables inside it are values, so aliasing between them is not captured.
- Handover.EveryRunIsSafe: a board operation either happens or raises without effect, and positions, times, speeds, the software timing command, statistics, the event log and the one-packet-at-a-time throttle are left out; retries and crossings may happen whenever nothing is outstanding for the vehicle.
- AXI-Lite windows, UART lines, drivers, superseded engines, fault-protected and non-indexed tops, displays, clock frequency, constant-time behaviour and cryptographic strength.
