/** The byte feeder of the shared hash engine: registered memories, a two-word prefetch buffer and
  one skid register in front of the sponge. */
module HashFeeder {
  import opened Bytes
  import opened Layout
  import opened PolyRam
  import opened Sponge

  // ---------------------------------------------------------------- what each command hashes

  const HPK := 0
  const G := 1
  const J := 2
  const MATRIX := 3
  const NOISE := 4
  const TRANSCRIPT := 5

  type Command = c: nat | c < 8

  type Value = v: seq<Byte> | |v| == 32 witness seq(32, _ => 0)

  /** Registered operands: two 256-bit values, a session number most significant byte first, two
      matrix coordinates, a nonce, the noise width and the destination. */
  datatype Operands = Operands(cmd: Command, d0: Value, d1: Value, sid: Word, x: Byte, y: Byte, nonce: Byte, eta3: bool, slot: Slot)

  /** The eleven bytes ZYNQ-PQC-v1. */
  function Domain(): seq<Byte> { [0x5a, 0x59, 0x4e, 0x51, 0x2d, 0x50, 0x51, 0x43, 0x2d, 0x76, 0x31] }

  /** The byte string each of the seven commands is specified to hash. */
  function Input(o: Operands, sk: SecretKey, ct: Ciphertext): seq<Byte> {
    if o.cmd == HPK then sk[768..1568]
    else if o.cmd == G then o.d0 + o.d1
    else if o.cmd == J then o.d0 + ct
    else if o.cmd == MATRIX then o.d0 + [o.x, o.y]
    else if o.cmd == NOISE then o.d0 + [o.nonce]
    else if o.cmd == TRANSCRIPT then sk[768..1568] + ct + o.sid
    else Domain() + o.d0 + o.d1
  }

  function InputLength(c: Command): nat {
    if c == HPK then 800 else if c == G then 64 else if c == J then 800 else if c == MATRIX then 34
    else if c == NOISE then 33 else if c == TRANSCRIPT then 1572 else 75
  }

  function ModeOf(c: Command): Mode {
    if c == G then 1 else if c == MATRIX then 2 else if c == J || c == NOISE || c == 6 then 3 else 0
  }

  function OutputLength(c: Command, eta3: bool): nat {
    if c == G then 64 else if c == MATRIX then 1024 else if c == NOISE then (if eta3 then 192 else 128)
    else if c == 6 then 72 else 32
  }

  lemma InputSize(o: Operands, sk: SecretKey, ct: Ciphertext)
    ensures |Input(o, sk, ct)| == InputLength(o.cmd)
  {
  }

  /** No command's input fills its last block, so its last byte never starts a permutation. */
  lemma LastBlockNeverFull(c: Command)
    ensures Mod(InputLength(c), Rate(ModeOf(c))) != 0
  {
  }

  // ---------------------------------------------------------------- memory bytes and register bytes

  function FromMemory(c: Command, n: nat): bool { c == HPK || (c == J && n >= 32) || (c == TRANSCRIPT && n < 1568) }

  /** Memory addresses, in bytes, shown while word n is wanted. */
  function SkByte(c: Command, n: nat): nat {
    if c == HPK || (c == TRANSCRIPT && n < 800) then 768 + n else 0
  }

  function CtByte(c: Command, n: nat): nat {
    if c == J then (if n >= 32 then n - 32 else 0) else if c == TRANSCRIPT && 800 <= n < 1568 then n - 800 else 0
  }

  function FetchWord(c: Command, n: nat, skQ: Word, ctQ: Word): Word {
    if c == J || (c == TRANSCRIPT && 800 <= n < 1568) then ctQ else skQ
  }

  /** Byte n from the registers, where it does not come from a memory. */
  function OperandByte(o: Operands, n: nat): Byte {
    if o.cmd == G then (if n < 32 then o.d0[n % 32] else o.d1[n % 32])
    else if o.cmd == J then o.d0[n % 32]
    else if o.cmd == MATRIX then (if n < 32 then o.d0[n % 32] else if n == 32 then o.x else o.y)
    else if o.cmd == NOISE then (if n < 32 then o.d0[n % 32] else o.nonce)
    else if o.cmd == TRANSCRIPT then o.sid[if n == 1568 then 0 else if n == 1569 then 1 else if n == 1570 then 2 else 3]
    else if n < 11 then Domain()[n]
    else if n < 43 then o.d0[n - 11]
    else if n < 75 then o.d1[n - 43]
    else 0
  }

  /** The four input bytes from n on. */
  function InputWord(o: Operands, sk: SecretKey, ct: Ciphertext, n: nat): Word
    requires n + 4 <= InputLength(o.cmd)
  {
    InputSize(o, sk, ct);
    Input(o, sk, ct)[n..n + 4]
  }

  lemma OperandByteIsInput(o: Operands, sk: SecretKey, ct: Ciphertext, n: nat)
    requires n < InputLength(o.cmd) && !FromMemory(o.cmd, n)
    ensures |Input(o, sk, ct)| == InputLength(o.cmd) && OperandByte(o, n) == Input(o, sk, ct)[n]
  {
  }

  /** Memory regions start on word boundaries of the input, so one word holds four input bytes. */
  lemma FetchedWord(o: Operands, sk: SecretKey, ct: Ciphertext, n: nat)
    requires n % 4 == 0 && n < InputLength(o.cmd) && FromMemory(o.cmd, n)
    ensures n + 4 <= InputLength(o.cmd)
    ensures FetchWord(o.cmd, n, WordAt(sk, SkByte(o.cmd, n)), WordAt(ct, CtByte(o.cmd, n))) == InputWord(o, sk, ct, n)
  {
    var c := o.cmd;
    if c == HPK || (c == TRANSCRIPT && n < 800) {
      assert WordAt(sk, 768 + n) == sk[768 + n..772 + n];
      SkWord(o, sk, ct, n);
    } else {
      assert CtByte(c, n) % 4 == 0 && CtByte(c, n) + 4 <= 768;
      assert WordAt(ct, CtByte(c, n)) == ct[CtByte(c, n)..CtByte(c, n) + 4];
      CtWord(o, sk, ct, n);
    }
  }

  lemma SkWord(o: Operands, sk: SecretKey, ct: Ciphertext, n: nat)
    requires n + 4 <= 800 && (o.cmd == HPK || o.cmd == TRANSCRIPT)
    ensures InputWord(o, sk, ct, n) == sk[768 + n..772 + n]
  {
    hide FromMemory;
    var pk := sk[768..1568];
    InputSize(o, sk, ct);
    assert Input(o, sk, ct)[..800] == pk;
    hide Input;
    PrefixSlice(Input(o, sk, ct), pk, n);
    SliceOfSlice(sk, n);
  }

  lemma PrefixSlice(s: seq<Byte>, p: seq<Byte>, n: nat)
    requires |p| == 800 <= |s| && s[..800] == p && n + 4 <= 800
    ensures s[n..n + 4] == p[n..n + 4]
  {
    assert forall i :: 0 <= i < 800 ==> s[i] == s[..800][i];
  }

  lemma SliceOfSlice(sk: SecretKey, n: nat)
    requires n + 4 <= 800
    ensures sk[768..1568][n..n + 4] == sk[768 + n..772 + n]
  {
  }

  lemma CtWord(o: Operands, sk: SecretKey, ct: Ciphertext, n: nat)
    requires (o.cmd == J && 32 <= n <= 796) || (o.cmd == TRANSCRIPT && 800 <= n <= 1564)
    ensures InputWord(o, sk, ct, n) == ct[CtByte(o.cmd, n)..CtByte(o.cmd, n) + 4]
  {
  }

  // ---------------------------------------------------------------- registers

  datatype Feed = Feed(inIndex: nat, fetchIndex: nat, wordCur: Word, wordNxt: Word, curVal: bool, nxtVal: bool, fetchWait: bool,
                       feedValid: bool, feedByte: Byte)

  function InByte(o: Operands, s: Feed): Byte {
    if FromMemory(o.cmd, s.inIndex) then s.wordCur[s.inIndex % 4] else OperandByte(o, s.inIndex)
  }

  predicate Avail(o: Operands, s: Feed) {
    s.inIndex < InputLength(o.cmd) && (FromMemory(o.cmd, s.inIndex) ==> s.curVal)
  }

  predicate Take(o: Operands, s: Feed, ready: bool) { (!s.feedValid || ready) && Avail(o, s) }

  predicate WordShift(o: Operands, s: Feed, ready: bool) {
    Take(o, s, ready) && FromMemory(o.cmd, s.inIndex) && s.inIndex % 4 == 3
  }

  predicate FetchEn(o: Operands, s: Feed, ready: bool) {
    !s.fetchWait && FromMemory(o.cmd, s.fetchIndex) && s.fetchIndex < InputLength(o.cmd)
    && (!s.curVal || !s.nxtVal || WordShift(o, s, ready))
  }

  /** The two buffer words and their valid bits. */
  function BufferEdge(o: Operands, s: Feed, ready: bool, fetched: Word): Feed {
    var shifted := if WordShift(o, s, ready) then s.(wordCur := s.wordNxt, curVal := s.nxtVal, nxtVal := false) else s;
    if FetchEn(o, s, ready) then
      if !s.curVal || (WordShift(o, s, ready) && !s.nxtVal) then shifted.(wordCur := fetched, curVal := true)
      else shifted.(wordNxt := fetched, nxtVal := true)
    else shifted
  }

  /** One clock of the feeding state. */
  function FeedEdge(o: Operands, s: Feed, ready: bool, skQ: Word, ctQ: Word): Feed {
    var n := BufferEdge(o, s, ready, FetchWord(o.cmd, s.fetchIndex, skQ, ctQ));
    var n := n.(fetchWait := FetchEn(o, s, ready), fetchIndex := if FetchEn(o, s, ready) then s.fetchIndex + 4 else s.fetchIndex);
    if Take(o, s, ready) then n.(feedByte := InByte(o, s), feedValid := true, inIndex := s.inIndex + 1)
    else if !s.feedValid || ready then n.(feedValid := false)
    else n
  }

  // ---------------------------------------------------------------- what every register means

  /** The memory part of the input: from First up to End, both on word boundaries. */
  function First(c: Command): nat { if c == J then 32 else 0 }

  function End(c: Command): nat { if c == HPK || c == J then 800 else if c == TRANSCRIPT then 1568 else 0 }

  /** Start of the word the byte index is in, or of the first word still to come. */
  function WordBase(c: Command, n: nat): nat {
    if n < First(c) then First(c) else if n >= End(c) then End(c) else n / 4 * 4
  }

  function Buffered(s: Feed): nat { (if s.curVal then 4 else 0) + (if s.nxtVal then 4 else 0) }

  ghost predicate BufferOk(o: Operands, s: Feed, sk: SecretKey, ct: Ciphertext) {
    var b := WordBase(o.cmd, s.inIndex);
    && s.fetchIndex == b + Buffered(s) <= End(o.cmd) && (s.nxtVal ==> s.curVal)
    && (s.curVal ==> s.wordCur == InputWord(o, sk, ct, b))
    && (s.nxtVal ==> s.wordNxt == InputWord(o, sk, ct, b + 4))
    && (First(o.cmd) <= s.inIndex < End(o.cmd) && s.inIndex % 4 != 0 ==> s.curVal)
  }

  ghost predicate FeedOk(o: Operands, s: Feed, sk: SecretKey, ct: Ciphertext, skQ: Word, ctQ: Word, delivered: seq<Byte>) {
    && s.inIndex <= InputLength(o.cmd) && |Input(o, sk, ct)| == InputLength(o.cmd)
    && BufferOk(o, s, sk, ct)
    && (s.feedValid ==> s.inIndex > 0 && s.feedByte == Input(o, sk, ct)[s.inIndex - 1])
    && delivered == Input(o, sk, ct)[..if s.feedValid then s.inIndex - 1 else s.inIndex]
    && (!s.fetchWait ==> skQ == WordAt(sk, SkByte(o.cmd, s.fetchIndex)) && ctQ == WordAt(ct, CtByte(o.cmd, s.fetchIndex)))
  }

  lemma MemoryRegion(c: Command, n: nat)
    requires n < InputLength(c)
    ensures FromMemory(c, n) <==> First(c) <= n < End(c)
  {
  }

  lemma FetchRegion(c: Command, n: nat)
    requires First(c) <= n <= End(c)
    ensures FromMemory(c, n) && n < InputLength(c) <==> n < End(c)
  {
  }

  lemma NextBase(c: Command, n: nat)
    requires n < InputLength(c)
    ensures WordBase(c, n + 1) == (if First(c) <= n < End(c) && n % 4 == 3 then WordBase(c, n) + 4 else WordBase(c, n))
    ensures First(c) <= WordBase(c, n) <= End(c) && WordBase(c, n) % 4 == 0 && End(c) % 4 == 0
    ensures First(c) <= n < End(c) ==> n == WordBase(c, n) + n % 4 < WordBase(c, n) + 4 <= End(c)
  {
  }

  /** The byte selected is the next input byte. */
  lemma SelectedIsInput(o: Operands, s: Feed, sk: SecretKey, ct: Ciphertext)
    requires BufferOk(o, s, sk, ct) && Avail(o, s)
    ensures |Input(o, sk, ct)| == InputLength(o.cmd) && InByte(o, s) == Input(o, sk, ct)[s.inIndex]
  {
    hide Input, OperandByte;
    InputSize(o, sk, ct);
    MemoryRegion(o.cmd, s.inIndex);
    NextBase(o.cmd, s.inIndex);
    if FromMemory(o.cmd, s.inIndex) {
      hide FromMemory, WordBase, First, End;
      WordByte(o, sk, ct, WordBase(o.cmd, s.inIndex), s.inIndex % 4);
    } else {
      OperandByteIsInput(o, sk, ct, s.inIndex);
    }
  }

  lemma WordByte(o: Operands, sk: SecretKey, ct: Ciphertext, n: nat, i: nat)
    requires n + 4 <= InputLength(o.cmd) && i < 4
    ensures |Input(o, sk, ct)| == InputLength(o.cmd) && InputWord(o, sk, ct, n)[i] == Input(o, sk, ct)[n + i]
  {
    hide Input;
    InputSize(o, sk, ct);
  }

  /** The buffer stays two words ahead at most, in order, without a gap. */
  lemma BufferKept(o: Operands, s: Feed, ready: bool, sk: SecretKey, ct: Ciphertext, fetched: Word)
    requires BufferOk(o, s, sk, ct) && s.inIndex <= InputLength(o.cmd)
    requires FetchEn(o, s, ready) ==> s.fetchIndex + 4 <= InputLength(o.cmd) && fetched == InputWord(o, sk, ct, s.fetchIndex)
    ensures var n := BufferEdge(o, s, ready, fetched);
      BufferOk(o, n.(inIndex := if Take(o, s, ready) then s.inIndex + 1 else s.inIndex,
                     fetchIndex := if FetchEn(o, s, ready) then s.fetchIndex + 4 else s.fetchIndex), sk, ct)
  {
    hide InputWord, WordBase;
    if s.inIndex < InputLength(o.cmd) {
      NextBase(o.cmd, s.inIndex);
      MemoryRegion(o.cmd, s.inIndex);
    }
    BaseRange(o.cmd, s.inIndex);
    FetchRegion(o.cmd, s.fetchIndex);
    hide FromMemory, InputLength;
  }

  lemma BaseRange(c: Command, n: nat)
    ensures First(c) <= WordBase(c, n) || End(c) == 0
    ensures WordBase(c, n) <= End(c) && WordBase(c, n) % 4 == 0 && End(c) % 4 == 0
  {
  }

  ghost function Delivered(s: Feed, ready: bool, delivered: seq<Byte>): seq<Byte> {
    delivered + (if s.feedValid && ready then [s.feedByte] else [])
  }

  /** One clock under an arbitrary stall: the delivered bytes stay a prefix of the specified input,
      in order and without loss or duplication. */
  lemma FeedKept(o: Operands, s: Feed, ready: bool, sk: SecretKey, ct: Ciphertext, skQ: Word, ctQ: Word, delivered: seq<Byte>)
    requires FeedOk(o, s, sk, ct, skQ, ctQ, delivered)
    ensures FeedOk(o, FeedEdge(o, s, ready, skQ, ctQ), sk, ct,
                   WordAt(sk, SkByte(o.cmd, s.fetchIndex)), WordAt(ct, CtByte(o.cmd, s.fetchIndex)), Delivered(s, ready, delivered))
  {
    hide Input, InputWord, BufferOk, WordAt, FromMemory, SkByte, CtByte, OperandByte, InputLength, BufferEdge, InByte;
    var fetched := FetchWord(o.cmd, s.fetchIndex, skQ, ctQ);
    if FetchEn(o, s, ready) {
      BufferIndex(o, s, sk, ct);
      FetchedWord(o, sk, ct, s.fetchIndex);
    }
    BufferKept(o, s, ready, sk, ct, fetched);
    BufferOnly(o, s, ready, fetched);
    if Take(o, s, ready) { SelectedIsInput(o, s, sk, ct); }
    var n := FeedEdge(o, s, ready, skQ, ctQ);
    SameBuffer(o, BufferEdge(o, s, ready, fetched).(inIndex := n.inIndex, fetchIndex := n.fetchIndex), n, sk, ct);
  }

  lemma BufferIndex(o: Operands, s: Feed, sk: SecretKey, ct: Ciphertext)
    requires BufferOk(o, s, sk, ct) && s.inIndex <= InputLength(o.cmd)
    ensures s.fetchIndex % 4 == 0
  {
    hide InputWord;
  }

  lemma BufferOnly(o: Operands, s: Feed, ready: bool, fetched: Word)
    ensures var n := BufferEdge(o, s, ready, fetched);
      n.inIndex == s.inIndex && n.feedValid == s.feedValid && n.feedByte == s.feedByte
  {
  }

  /** The buffer's meaning does not depend on the skid register. */
  lemma SameBuffer(o: Operands, s: Feed, n: Feed, sk: SecretKey, ct: Ciphertext)
    requires BufferOk(o, s, sk, ct)
    requires n == s.(feedValid := n.feedValid, feedByte := n.feedByte, fetchWait := n.fetchWait)
    ensures BufferOk(o, n, sk, ct)
  {
    hide InputWord;
  }

  function FeedStart(c: Command, s: Feed): Feed {
    s.(inIndex := 0, fetchIndex := First(c), curVal := false, nxtVal := false, fetchWait := false, feedValid := false)
  }

  lemma FeedBegins(o: Operands, s: Feed, sk: SecretKey, ct: Ciphertext)
    ensures FeedOk(o, FeedStart(o.cmd, s), sk, ct, WordAt(sk, SkByte(o.cmd, First(o.cmd))), WordAt(ct, CtByte(o.cmd, First(o.cmd))), [])
  {
    hide Input, WordAt;
    InputSize(o, sk, ct);
  }

  /** Everything has been delivered exactly when the index is at the end and the skid is empty. */
  predicate FeedDone(o: Operands, s: Feed) { s.inIndex == InputLength(o.cmd) && !s.feedValid }

  lemma FeedComplete(o: Operands, s: Feed, sk: SecretKey, ct: Ciphertext, skQ: Word, ctQ: Word, delivered: seq<Byte>)
    requires FeedOk(o, s, sk, ct, skQ, ctQ, delivered)
    ensures FeedDone(o, s) <==> delivered == Input(o, sk, ct)
    ensures |delivered| <= InputLength(o.cmd)
  {
    hide Input, BufferOk, WordAt;
    assert Input(o, sk, ct)[..InputLength(o.cmd)] == Input(o, sk, ct);
  }

  /** Clocks until a byte waits in the skid register, at most. */
  function FeedRank(o: Operands, s: Feed): nat {
    if s.feedValid then 0 else if Avail(o, s) then 1 else if !s.fetchWait then 2 else 3
  }

  /** A ready sponge is given a byte at the latest three clocks later. */
  lemma FeedProgress(o: Operands, s: Feed, ready: bool, sk: SecretKey, ct: Ciphertext, skQ: Word, ctQ: Word, delivered: seq<Byte>)
    requires FeedOk(o, s, sk, ct, skQ, ctQ, delivered) && !FeedDone(o, s) && !s.feedValid
    ensures FeedRank(o, FeedEdge(o, s, ready, skQ, ctQ)) < FeedRank(o, s)
  {
    hide Input, InputWord, WordAt, SkByte, CtByte, OperandByte;
    MemoryRegion(o.cmd, s.inIndex);
    BaseRange(o.cmd, s.inIndex);
    if !Avail(o, s) { FetchRegion(o.cmd, s.fetchIndex); NextBase(o.cmd, s.inIndex); }
  }
}
