/** The ChaCha20 backend (src/services/crypto/chacha.ts): the stream cipher of
    RFC 8439 written out by hand (quarter round, section 2.1; block function,
    section 2.3; counter-mode encryption, section 2.4) and a password-based
    envelope base64(salt[16] ‖ nonce[12] ‖ ciphertext) with no authentication tag.

    The words of the state are `bv32`: the source keeps them in a Uint32Array, so
    every store wraps modulo 2^32, which is exactly `bv32` arithmetic. */
module ChaCha {

  import opened Platform
  import opened CryptoTypes
  import Envelope

  type Word = bv32

  /** SIGMA: the bytes of "expand 32-byte k". */
  const Sigma: Bytes := [0x65, 0x78, 0x70, 0x61, 0x6e, 0x64, 0x20, 0x33,
                         0x32, 0x2d, 0x62, 0x79, 0x74, 0x65, 0x20, 0x6b]

  // ---------------------------------------------------------------------------------
  // Reference definitions, after RFC 8439.

  /** Addition modulo 2^32, the `+` of section 2.1 of RFC 8439.  The three word
      operations are named functions so that the proofs below compare terms built from
      them rather than re-deriving each 32-bit circuit. */
  function Add(x: Word, y: Word): Word { x + y }

  /** Bitwise exclusive or, the `^` of section 2.1. */
  function Xor(x: Word, y: Word): Word { x ^ y }

  /** Left rotation by `n` bits, the `<<<` of section 2.1 (for `n` = 0 the right
      shift by 32 is 0 and the word is unchanged). */
  function Rot(x: Word, n: Word): Word
    requires n < 32
  {
    (x << n) | (x >> (32 - n))
  }

  /** The quarter round of section 2.1 of RFC 8439 on four words. */
  function Qr(a: Word, b: Word, c: Word, d: Word): (Word, Word, Word, Word)
  {
    var a1 := Add(a, b);   var d1 := Rot(Xor(d, a1), 16);
    var c1 := Add(c, d1);  var b1 := Rot(Xor(b, c1), 12);
    var a2 := Add(a1, b1); var d2 := Rot(Xor(d1, a2), 8);
    var c2 := Add(c1, d2); var b2 := Rot(Xor(b1, c2), 7);
    (a2, b2, c2, d2)
  }

  /** One line of the source's quarter round on a state: `s[x] += s[y]`, then
      `s[z] ^= s[x]`, then `s[z] = rotl(s[z], n)`.  Written for any indices, equal or
      not, as the in-place updates behave. */
  function StepAt(s: seq<Word>, x: nat, y: nat, z: nat, n: Word): (r: seq<Word>)
    requires x < |s| && y < |s| && z < |s|
    ensures |r| == |s|
  {
    var s1 := s[x := Add(s[x], s[y])];
    s1[z := RotL(Xor(s1[z], s1[x]), n)]
  }

  /** On distinct `x` and `z` a line changes exactly those two words. */
  lemma StepAtEffect(s: seq<Word>, x: nat, y: nat, z: nat, n: Word)
    requires x < |s| && y < |s| && z < |s| && x != z
    ensures var r := StepAt(s, x, y, z, n);
      r[x] == Add(s[x], s[y]) && r[z] == RotL(Xor(s[z], Add(s[x], s[y])), n) &&
      forall i :: 0 <= i < |s| && i != x && i != z ==> r[i] == s[i]
  {
  }

  /** `quarterRound(state, a, b, c, d)` as a function of the state: the four lines
      `a += b; d ^= a; d <<<= 16`, `c += d; b ^= c; b <<<= 12`, `a += b; d ^= a; d <<<= 8`,
      `c += d; b ^= c; b <<<= 7`. */
  function QuarterRoundAt(s: seq<Word>, a: nat, b: nat, c: nat, d: nat): (r: seq<Word>)
    requires a < |s| && b < |s| && c < |s| && d < |s|
    ensures |r| == |s|
  {
    StepAt(StepAt(StepAt(StepAt(s, a, b, d, 16), c, d, b, 12), a, b, d, 8), c, d, b, 7)
  }

  /** On four distinct indices the source's quarter round is QUARTERROUND(a, b, c, d)
      of section 2.2 of RFC 8439: those four words become `Qr` of them and every other
      word is kept. */
  lemma QuarterRoundAtIsQr(s: seq<Word>, a: nat, b: nat, c: nat, d: nat)
    requires a < |s| && b < |s| && c < |s| && d < |s|
    requires a != b && a != c && a != d && b != c && b != d && c != d
    ensures var r := QuarterRoundAt(s, a, b, c, d);
      (forall i :: 0 <= i < |s| && i != a && i != b && i != c && i != d ==> r[i] == s[i]) &&
      (r[a], r[b], r[c], r[d]) == Qr(s[a], s[b], s[c], s[d])
  {
    var s1 := StepAt(s, a, b, d, 16);
    var s2 := StepAt(s1, c, d, b, 12);
    var s3 := StepAt(s2, a, b, d, 8);
    var s4 := StepAt(s3, c, d, b, 7);
    StepAtEffect(s, a, b, d, 16);
    StepAtEffect(s1, c, d, b, 12);
    StepAtEffect(s2, a, b, d, 8);
    StepAtEffect(s3, c, d, b, 7);
    var a1 := Add(s[a], s[b]);   RotLRotates(Xor(s[d], a1));
    var d1 := Rot(Xor(s[d], a1), 16);
    assert s1[a] == a1 && s1[d] == d1 && s1[b] == s[b] && s1[c] == s[c];
    var c1 := Add(s[c], d1);     RotLRotates(Xor(s[b], c1));
    var b1 := Rot(Xor(s[b], c1), 12);
    assert s2[c] == c1 && s2[b] == b1 && s2[a] == a1 && s2[d] == d1;
    var a2 := Add(a1, b1);       RotLRotates(Xor(d1, a2));
    var d2 := Rot(Xor(d1, a2), 8);
    assert s3[a] == a2 && s3[d] == d2 && s3[b] == b1 && s3[c] == c1;
    var c2 := Add(c1, d2);       RotLRotates(Xor(b1, c2));
    var b2 := Rot(Xor(b1, c2), 7);
    assert s4[c] == c2 && s4[b] == b2 && s4[a] == a2 && s4[d] == d2;
  }

  /** A list of quarter rounds, each named by its four word indices. */
  datatype Schedule = Done | Then(a: nat, b: nat, c: nat, d: nat, rest: Schedule)

  /** The quarter rounds of one double round (the inner block of section 2.3): the four
      column rounds, then the four diagonal rounds. */
  const DoubleRoundSchedule: Schedule :=
    Then(0, 4, 8, 12, Then(1, 5, 9, 13, Then(2, 6, 10, 14, Then(3, 7, 11, 15,
    Then(0, 5, 10, 15, Then(1, 6, 11, 12, Then(2, 7, 8, 13, Then(3, 4, 9, 14, Done))))))))

  predicate InRange(sch: Schedule)
  {
    match sch
    case Done => true
    case Then(a, b, c, d, rest) => a < 16 && b < 16 && c < 16 && d < 16 && InRange(rest)
  }

  /** The quarter rounds of `sch`, one after the other, then `n` double rounds.  One
      function for both, so that unfolding it never reaches the word arithmetic of a
      round it does not perform. */
  function Run(s: seq<Word>, sch: Schedule, n: nat): (r: seq<Word>)
    requires |s| == 16 && InRange(sch)
    ensures |r| == 16
    decreases n, sch, |s|
  {
    match sch
    case Then(a, b, c, d, rest) => Run(QuarterRoundAt(s, a, b, c, d), rest, n)
    case Done => if n == 0 then s else Run(s, DoubleRoundSchedule, n - 1)
  }

  /** One column round followed by one diagonal round. */
  function DoubleRound(s: seq<Word>): (r: seq<Word>)
    requires |s| == 16
    ensures |r| == 16
  {
    Run(s, DoubleRoundSchedule, 0)
  }

  /** `n` double rounds. */
  function Rounds(s: seq<Word>, n: nat): (r: seq<Word>)
    requires |s| == 16
    ensures |r| == 16
  {
    Run(s, Done, n)
  }

  /** Running a schedule and then `n` double rounds is running the schedule alone and
      then the double rounds. */
  lemma {:induction false} RunThen(s: seq<Word>, sch: Schedule, n: nat)
    requires |s| == 16 && InRange(sch)
    ensures Run(s, sch, n) == Rounds(Run(s, sch, 0), n)
    decreases sch
  {
    match sch
    case Done =>
    case Then(a, b, c, d, rest) => RunThen(QuarterRoundAt(s, a, b, c, d), rest, n);
  }

  /** `n` double rounds are one double round followed by `n - 1` more. */
  lemma RoundsStep(s: seq<Word>, n: nat)
    requires |s| == 16 && n > 0
    ensures Rounds(s, n) == Rounds(DoubleRound(s), n - 1)
  {
    RunThen(s, DoubleRoundSchedule, n - 1);
  }

  /** The eight quarter rounds the source performs, in its order, make one double
      round. */
  lemma DoubleRoundSteps(s0: seq<Word>, s1: seq<Word>, s2: seq<Word>, s3: seq<Word>, s4: seq<Word>,
                         s5: seq<Word>, s6: seq<Word>, s7: seq<Word>, s8: seq<Word>)
    requires |s0| == 16
    requires s1 == QuarterRoundAt(s0, 0, 4, 8, 12) && s2 == QuarterRoundAt(s1, 1, 5, 9, 13)
    requires s3 == QuarterRoundAt(s2, 2, 6, 10, 14) && s4 == QuarterRoundAt(s3, 3, 7, 11, 15)
    requires s5 == QuarterRoundAt(s4, 0, 5, 10, 15) && s6 == QuarterRoundAt(s5, 1, 6, 11, 12)
    requires s7 == QuarterRoundAt(s6, 2, 7, 8, 13) && s8 == QuarterRoundAt(s7, 3, 4, 9, 14)
    ensures s8 == DoubleRound(s0)
  {
    var sch := DoubleRoundSchedule;
    assert Run(s0, sch, 0) == Run(s1, sch.rest, 0);
    assert Run(s1, sch.rest, 0) == Run(s2, sch.rest.rest, 0);
    assert Run(s2, sch.rest.rest, 0) == Run(s3, sch.rest.rest.rest, 0);
    assert Run(s3, sch.rest.rest.rest, 0) == Run(s4, sch.rest.rest.rest.rest, 0);
    assert Run(s4, sch.rest.rest.rest.rest, 0) == Run(s5, sch.rest.rest.rest.rest.rest, 0);
    assert Run(s5, sch.rest.rest.rest.rest.rest, 0) == Run(s6, sch.rest.rest.rest.rest.rest.rest, 0);
    assert Run(s6, sch.rest.rest.rest.rest.rest.rest, 0) == Run(s7, sch.rest.rest.rest.rest.rest.rest.rest, 0);
    assert Run(s7, sch.rest.rest.rest.rest.rest.rest.rest, 0) == Run(s8, Done, 0);
  }

  /** The little-endian word of the four bytes at `off`; a byte past the end reads as 0. */
  function WordLE(s: Bytes, off: nat): Word
  {
    (ByteAt(s, off) as Word) | ((ByteAt(s, off + 1) as Word) << 8) |
    ((ByteAt(s, off + 2) as Word) << 16) | ((ByteAt(s, off + 3) as Word) << 24)
  }

  /** The four words the source builds from SIGMA are the constants of section 2.3 of
      RFC 8439. */
  lemma SigmaWords()
    ensures WordLE(Sigma, 0) == 0x61707865 && WordLE(Sigma, 4) == 0x3320646e
    ensures WordLE(Sigma, 8) == 0x79622d32 && WordLE(Sigma, 12) == 0x6b206574
  {
  }

  /** The counter word of block `b` (blocks numbered from 0): the count starts at 1 and
      goes up by one per block.  The source counts with a JavaScript number and stores it
      into a Uint32Array slot, which keeps it modulo 2^32: the word counts the same way. */
  function BlockCounter(b: nat): Word
  {
    if b == 0 then 1 else Add(BlockCounter(b - 1), 1)
  }

  /** The layout of the initial state of section 2.3: the four constant words, eight
      little-endian key words, the block counter, three little-endian nonce words. */
  predicate IsInitialState(s: seq<Word>, key: Bytes, counter: Word, nonce: Bytes)
  {
    |s| == 16 &&
    s[0] == 0x61707865 && s[1] == 0x3320646e && s[2] == 0x79622d32 && s[3] == 0x6b206574 &&
    (forall j :: 0 <= j < 8 ==> s[4 + j] == WordLE(key, 4 * j)) &&
    s[12] == counter &&
    s[13] == WordLE(nonce, 0) && s[14] == WordLE(nonce, 4) && s[15] == WordLE(nonce, 8)
  }

  /** The initial state of section 2.3. */
  function InitialState(key: Bytes, counter: Word, nonce: Bytes): (s: seq<Word>)
    ensures |s| == 16
  {
    [0x61707865, 0x3320646e, 0x79622d32, 0x6b206574]
    + seq(8, i requires 0 <= i < 8 => WordLE(key, 4 * i))
    + [counter]
    + seq(3, i requires 0 <= i < 3 => WordLE(nonce, 4 * i))
  }

  /** The initial state has the layout of section 2.3. */
  lemma InitialStateLayout(key: Bytes, counter: Word, nonce: Bytes)
    ensures IsInitialState(InitialState(key, counter, nonce), key, counter, nonce)
  {
    var s := InitialState(key, counter, nonce);
    forall j | 0 <= j < 8 ensures s[4 + j] == WordLE(key, 4 * j) {
    }
  }

  /** The layout determines the state. */
  lemma InitialStateUnique(t: seq<Word>, key: Bytes, counter: Word, nonce: Bytes)
    requires IsInitialState(t, key, counter, nonce)
    ensures t == InitialState(key, counter, nonce)
  {
    var s := InitialState(key, counter, nonce);
    InitialStateLayout(key, counter, nonce);
    forall k | 0 <= k < 16 ensures t[k] == s[k] {
      if 4 <= k < 12 {
        assert t[4 + (k - 4)] == s[4 + (k - 4)];
      }
    }
  }

  /** Byte `j` (0 = least significant) of a word: `(w >>> 8j) & 0xff`. */
  function WordByte(w: Word, j: nat): Byte
    requires j < 4
  {
    if j == 0 then (w & 0xff) as bv8
    else if j == 1 then ((w >> 8) & 0xff) as bv8
    else if j == 2 then ((w >> 16) & 0xff) as bv8
    else ((w >> 24) & 0xff) as bv8
  }

  /** Little-endian serialization of a sequence of words. */
  function Serialize(w: seq<Word>): (r: Bytes)
    ensures |r| == 4 * |w|
  {
    seq(4 * |w|, k requires 0 <= k < 4 * |w| => WordByte(w[k / 4], k % 4))
  }

  /** Byte `4i + j` of the serialization is byte `j` of word `i`. */
  lemma SerializeAt(w: seq<Word>, i: nat, j: nat)
    requires i < |w| && j < 4
    ensures Serialize(w)[4 * i + j] == WordByte(w[i], j)
  {
    assert (4 * i + j) / 4 == i && (4 * i + j) % 4 == j;
  }

  /** Word-by-word addition of two states. */
  function AddWords(x: seq<Word>, y: seq<Word>): (r: seq<Word>)
    requires |x| == |y|
    ensures |r| == |x|
    ensures forall i :: 0 <= i < |x| ==> r[i] == Add(x[i], y[i])
  {
    seq(|x|, i requires 0 <= i < |x| => Add(x[i], y[i]))
  }

  /** The ChaCha20 block function of section 2.3: 20 rounds, the initial state added
      word by word, serialized to 64 bytes. */
  function BlockSpec(key: Bytes, counter: Word, nonce: Bytes): (r: Bytes)
    ensures |r| == 64
  {
    var init := InitialState(key, counter, nonce);
    var fin := Rounds(init, 10);
    Serialize(AddWords(fin, init))
  }

  /** Each byte of a chunk XOR the byte of a keystream block at the same offset (a byte
      past the end of the block reads as 0, as an out-of-range typed-array read does). */
  function XorChunk(chunk: Bytes, block: Bytes): (r: Bytes)
    ensures |r| == |chunk|
    ensures forall j :: 0 <= j < |chunk| ==> r[j] == chunk[j] ^ ByteAt(block, j)
  {
    seq(|chunk|, j requires 0 <= j < |chunk| => chunk[j] ^ ByteAt(block, j))
  }

  /** The data cut into 64-byte chunks (the last one possibly shorter), chunk `b` XOR
      `blocks[b]`. */
  function XorStream(data: Bytes, blocks: seq<Bytes>): (r: Bytes)
    requires |data| <= 64 * |blocks|
    ensures |r| == |data|
    decreases |data|
  {
    if |data| == 0 then []
    else
      var n := Min(64, |data|);
      XorChunk(data[..n], blocks[0]) + XorStream(data[n..], blocks[1..])
  }

  /** The number of 64-byte chunks data of `len` bytes is cut into. */
  function BlockCount(len: nat): (r: nat)
    ensures len <= 64 * r && (r == 0 || 64 * (r - 1) < len)
  {
    (len + 63) / 64
  }

  /** The sequence of the first `m` values of `f`. */
  function Tabulate(f: nat -> Bytes, m: nat): (r: seq<Bytes>)
    ensures |r| == m
    ensures forall b :: 0 <= b < m ==> r[b] == f(b)
  {
    seq(m, b requires 0 <= b < m => f(b))
  }

  /** One more value extends the table by that value. */
  lemma TabulateExtend(f: nat -> Bytes, m: nat)
    ensures Tabulate(f, m + 1) == Tabulate(f, m) + [f(m)]
  {
    assert forall b :: 0 <= b < m + 1 ==> Tabulate(f, m + 1)[b] == (Tabulate(f, m) + [f(m)])[b];
  }

  /** Keystream block `b` (numbered from 0): the block function at counter
      `BlockCounter(b)`. */
  function KeystreamBlock(key: Bytes, nonce: Bytes): nat -> Bytes
  {
    (b: nat) => BlockSpec(key, BlockCounter(b), nonce)
  }

  /** The first `m` keystream blocks. */
  function Keystream(key: Bytes, nonce: Bytes, m: nat): (r: seq<Bytes>)
    ensures |r| == m
  {
    Tabulate(KeystreamBlock(key, nonce), m)
  }

  /** ChaCha20 encryption of section 2.4 of RFC 8439, as `chacha20Process` computes it:
      the data XOR as many keystream blocks as it needs, the first one with counter 1. */
  function ProcessSpec(data: Bytes, key: Bytes, nonce: Bytes): (r: Bytes)
    ensures |r| == |data|
  {
    XorStream(data, Keystream(key, nonce, BlockCount(|data|)))
  }

  /** Appending one chunk to data that fills whole blocks appends its XOR with the next
      block. */
  lemma {:induction false} XorStreamAppend(data: Bytes, i: nat, n: nat, blocks: seq<Bytes>, block: Bytes)
    requires i == 64 * |blocks| && i + n <= |data| && n <= 64
    ensures XorStream(data[..i + n], blocks + [block])
      == XorStream(data[..i], blocks) + XorChunk(data[i..i + n], block)
    decreases |blocks|
  {
    if |blocks| == 0 {
      if n == 0 {
        assert data[..i + n] == [] == data[i..i + n];
      } else {
        assert data[..i + n] == data[i..i + n];
        assert data[..i + n][..n] == data[i..i + n];
      }
    } else {
      XorStreamAppend(data[64..], i - 64, n, blocks[1..], block);
      XorStreamAppendStep(data, i, n, blocks, block);
    }
  }

  /** The inductive step of XorStreamAppend: the first whole block comes off both sides. */
  lemma XorStreamAppendStep(data: Bytes, i: nat, n: nat, blocks: seq<Bytes>, block: Bytes)
    requires i == 64 * |blocks| && i + n <= |data| && n <= 64 && |blocks| > 0
    requires XorStream(data[64..][..i - 64 + n], blocks[1..] + [block])
      == XorStream(data[64..][..i - 64], blocks[1..]) + XorChunk(data[64..][i - 64..i - 64 + n], block)
    ensures XorStream(data[..i + n], blocks + [block])
      == XorStream(data[..i], blocks) + XorChunk(data[i..i + n], block)
  {
    ExtendedHead(data, i, n, blocks, block);
    WholeHead(data, i, blocks);
    SuffixSlice(data, i, n);
    Regroup(XorStream(data[..i + n], blocks + [block]), XorStream(data[..i], blocks),
            XorChunk(data[..64], blocks[0]),
            XorStream(data[64..][..i - 64 + n], blocks[1..] + [block]),
            XorStream(data[64..][..i - 64], blocks[1..]), XorChunk(data[i..i + n], block));
  }

  /** A slice of the data after its first block. */
  lemma SuffixSlice(data: Bytes, i: nat, n: nat)
    requires 64 <= i && i + n <= |data|
    ensures data[64..][i - 64..i - 64 + n] == data[i..i + n]
  {
  }

  /** `h ‖ x1 == (h ‖ x2) ‖ c` when `x1 == x2 ‖ c`. */
  lemma Regroup(a: Bytes, b: Bytes, h: Bytes, x1: Bytes, x2: Bytes, c: Bytes)
    requires a == h + x1 && b == h + x2 && x1 == x2 + c
    ensures a == b + c
  {
    assert h + (x2 + c) == (h + x2) + c;
  }

  /** The first block off the data and the blocks with one more appended. */
  lemma ExtendedHead(data: Bytes, i: nat, n: nat, blocks: seq<Bytes>, block: Bytes)
    requires i == 64 * |blocks| && i + n <= |data| && n <= 64 && |blocks| > 0
    ensures XorStream(data[..i + n], blocks + [block])
      == XorChunk(data[..64], blocks[0]) + XorStream(data[64..][..i - 64 + n], blocks[1..] + [block])
  {
    var part, more := data[..i + n], blocks + [block];
    XorStreamCons(part, more);
    assert part[..64] == data[..64];
    assert part[64..] == data[64..][..i - 64 + n];
    assert more[0] == blocks[0] && more[1..] == blocks[1..] + [block];
  }

  /** The first block off the data that fills the blocks. */
  lemma WholeHead(data: Bytes, i: nat, blocks: seq<Bytes>)
    requires i == 64 * |blocks| && i <= |data| && |blocks| > 0
    ensures XorStream(data[..i], blocks)
      == XorChunk(data[..64], blocks[0]) + XorStream(data[64..][..i - 64], blocks[1..])
  {
    var whole := data[..i];
    XorStreamCons(whole, blocks);
    assert whole[..64] == data[..64];
    assert whole[64..] == data[64..][..i - 64];
  }

  /** Data of at least one whole block: the first chunk, then the rest. */
  lemma XorStreamCons(data: Bytes, blocks: seq<Bytes>)
    requires 64 <= |data| <= 64 * |blocks|
    ensures XorStream(data, blocks) == XorChunk(data[..64], blocks[0]) + XorStream(data[64..], blocks[1..])
  {
  }

  /** Byte `64 b + j` of the result is the data byte there XOR byte `j` of block `b`. */
  lemma {:induction false} XorStreamAt(data: Bytes, blocks: seq<Bytes>, b: nat, j: nat)
    requires |data| <= 64 * |blocks| && j < 64 && 64 * b + j < |data|
    ensures b < |blocks|
    ensures XorStream(data, blocks)[64 * b + j] == data[64 * b + j] ^ ByteAt(blocks[b], j)
    decreases b
  {
    if b > 0 {
      XorStreamAt(data[64..], blocks[1..], b - 1, j);
      assert data[64..][64 * (b - 1) + j] == data[64 * b + j];
    }
  }

  /** XOR with the same blocks twice gives the data back. */
  lemma {:induction false} XorStreamInvolution(data: Bytes, blocks: seq<Bytes>)
    requires |data| <= 64 * |blocks|
    ensures XorStream(XorStream(data, blocks), blocks) == data
    decreases |data|
  {
    if |data| > 0 {
      var n := Min(64, |data|);
      var once := XorStream(data, blocks);
      var head := XorChunk(data[..n], blocks[0]);
      assert once[..n] == head && once[n..] == XorStream(data[n..], blocks[1..]);
      XorStreamInvolution(data[n..], blocks[1..]);
      assert XorChunk(head, blocks[0]) == data[..n];
      assert data == data[..n] + data[n..];
    }
  }

  // ---------------------------------------------------------------------------------
  // The source's implementation.

  /** `rotl(a, b)`: `(a << b) | (a >>> (32 - b))`.  JavaScript takes a shift count
      modulo 32 (its low five bits) and the result is stored back into a Uint32Array
      slot, so the function is exact on words. */
  function RotL(a: Word, b: Word): Word
  {
    (a << (b & 31)) | (a >> ((32 - b) & 31))
  }

  /** For the four counts the quarter round uses, `rotl` is the left rotation of
      section 2.1 of RFC 8439. */
  lemma RotLRotates(a: Word)
    ensures RotL(a, 7) == Rot(a, 7) && RotL(a, 8) == Rot(a, 8)
    ensures RotL(a, 12) == Rot(a, 12) && RotL(a, 16) == Rot(a, 16)
  {
  }

  /** One line of `quarterRound`: three in-place updates of the Uint32Array. */
  method Step(state: array<Word>, x: nat, y: nat, z: nat, n: Word)
    requires x < state.Length && y < state.Length && z < state.Length
    modifies state
    ensures state[..] == StepAt(old(state[..]), x, y, z, n)
  {
    state[x] := Add(state[x], state[y]);
    state[z] := Xor(state[z], state[x]);
    state[z] := RotL(state[z], n);
  }

  /** `quarterRound(state, a, b, c, d)`: its four lines, in place. */
  method QuarterRound(state: array<Word>, a: nat, b: nat, c: nat, d: nat)
    requires a < state.Length && b < state.Length && c < state.Length && d < state.Length
    modifies state
    ensures state[..] == QuarterRoundAt(old(state[..]), a, b, c, d)
  {
    Step(state, a, b, d, 16);
    Step(state, c, d, b, 12);
    Step(state, a, b, d, 8);
    Step(state, c, d, b, 7);
  }

  /** The first part of `chacha20Block`: a fresh 16-word state holding the constants,
      the key words, the counter and the nonce words. */
  method Setup(key: Bytes, counter: Word, nonce: Bytes) returns (state: array<Word>)
    ensures fresh(state)
    ensures IsInitialState(state[..], key, counter, nonce)
  {
    SigmaWords();
    state := new Word[16];
    state[0] := WordLE(Sigma, 0);
    state[1] := WordLE(Sigma, 4);
    state[2] := WordLE(Sigma, 8);
    state[3] := WordLE(Sigma, 12);
    for i := 0 to 8
      invariant state[0] == 0x61707865 && state[1] == 0x3320646e
      invariant state[2] == 0x79622d32 && state[3] == 0x6b206574
      invariant forall j :: 0 <= j < i ==> state[4 + j] == WordLE(key, 4 * j)
    {
      state[4 + i] := WordLE(key, 4 * i);
    }
    state[12] := counter;
    state[13] := WordLE(nonce, 0);
    state[14] := WordLE(nonce, 4);
    state[15] := WordLE(nonce, 8);
  }

  /** The body of the round loop of `chacha20Block`: four column rounds and four
      diagonal rounds, in place. */
  method DoubleRoundInPlace(state: array<Word>)
    requires state.Length == 16
    modifies state
    ensures state[..] == DoubleRound(old(state[..]))
  {
    ghost var s0 := state[..];
    QuarterRound(state, 0, 4, 8, 12);   ghost var s1 := state[..];
    QuarterRound(state, 1, 5, 9, 13);   ghost var s2 := state[..];
    QuarterRound(state, 2, 6, 10, 14);  ghost var s3 := state[..];
    QuarterRound(state, 3, 7, 11, 15);  ghost var s4 := state[..];
    QuarterRound(state, 0, 5, 10, 15);  ghost var s5 := state[..];
    QuarterRound(state, 1, 6, 11, 12);  ghost var s6 := state[..];
    QuarterRound(state, 2, 7, 8, 13);   ghost var s7 := state[..];
    QuarterRound(state, 3, 4, 9, 14);
    DoubleRoundSteps(s0, s1, s2, s3, s4, s5, s6, s7, state[..]);
  }

  /** The round loop of `chacha20Block`: ten double rounds, in place. */
  method TwentyRounds(state: array<Word>)
    requires state.Length == 16
    modifies state
    ensures state[..] == Rounds(old(state[..]), 10)
  {
    ghost var initial := state[..];
    ghost var left: nat := 10;
    for i := 0 to 10
      invariant left == 10 - i
      invariant Rounds(state[..], left) == Rounds(initial, 10)
    {
      RoundsStep(state[..], left);
      DoubleRoundInPlace(state);
      left := left - 1;
    }
  }

  /** The third loop of `chacha20Block`: the saved initial state added word by word. */
  method AddInitial(state: array<Word>, initialState: seq<Word>)
    requires state.Length == 16 && |initialState| == 16
    modifies state
    ensures state[..] == AddWords(old(state[..]), initialState)
  {
    for i := 0 to 16
      invariant forall j :: 0 <= j < i ==> state[j] == Add(old(state[j]), initialState[j])
      invariant forall j :: i <= j < 16 ==> state[j] == old(state[j])
    {
      state[i] := Add(state[i], initialState[i]);
    }
  }

  /** The last loop of `chacha20Block`: each word written as four little-endian bytes
      into a fresh 64-byte array. */
  method ToBytes(state: array<Word>) returns (output: array<bv8>)
    requires state.Length == 16
    ensures fresh(output)
    ensures output[..] == Serialize(state[..])
  {
    output := new bv8[64];
    for i := 0 to 16
      invariant forall i', j :: 0 <= i' < i && 0 <= j < 4 ==> output[4 * i' + j] == WordByte(state[i'], j)
    {
      output[i * 4] := WordByte(state[i], 0);
      output[i * 4 + 1] := WordByte(state[i], 1);
      output[i * 4 + 2] := WordByte(state[i], 2);
      output[i * 4 + 3] := WordByte(state[i], 3);
    }
    forall k | 0 <= k < 64 ensures output[k] == Serialize(state[..])[k] {
      SerializeAt(state[..], k / 4, k % 4);
    }
  }

  /** `chacha20Block(key, counter, nonce)`: fills a 16-word state, runs ten double
      rounds in place, adds the saved initial state and writes 64 bytes. */
  method Block(key: Bytes, counter: Word, nonce: Bytes) returns (output: array<bv8>)
    ensures fresh(output)
    ensures output[..] == BlockSpec(key, counter, nonce)
  {
    var state := Setup(key, counter, nonce);
    var initialState := state[..];
    InitialStateUnique(initialState, key, counter, nonce);
    TwentyRounds(state);
    AddInitial(state, initialState);
    output := ToBytes(state);
  }

  /** The inner loop of `chacha20Process`: bytes `i` to `i + chunk` of the output become
      the data bytes there XOR the first `chunk` keystream bytes; the others are kept. */
  method XorInto(output: array<bv8>, data: Bytes, i: nat, chunk: nat, keyStream: array<bv8>)
    requires output.Length == |data| && i + chunk <= |data| && chunk <= keyStream.Length
    requires output != keyStream
    modifies output
    ensures output[..i + chunk] == old(output[..i]) + XorChunk(data[i..i + chunk], keyStream[..])
    ensures output[i + chunk..] == old(output[i + chunk..])
  {
    for j := 0 to chunk
      invariant output[..i] == old(output[..i])
      invariant output[i + chunk..] == old(output[i + chunk..])
      invariant forall j' :: 0 <= j' < j ==> output[i + j'] == data[i + j'] ^ keyStream[j']
    {
      output[i + j] := data[i + j] ^ keyStream[j];
    }
  }

  /** `chacha20Process(data, key, nonce)`: one keystream block per 64-byte chunk, the
      counter starting at 1, each data byte XOR its keystream byte. */
  method Process(data: Bytes, key: Bytes, nonce: Bytes) returns (output: array<bv8>)
    ensures fresh(output)
    ensures output[..] == ProcessSpec(data, key, nonce)
  {
    output := new bv8[|data|];
    var counter: Word := 1;
    var i: nat := 0;
    ghost var blocks: seq<Bytes> := [];
    ghost var b: nat := 0;
    ghost var done: nat := 0;
    while i < |data|
      invariant i == 64 * b && |blocks| == b && counter == BlockCounter(b)
      invariant done == Min(i, |data|) && (b == 0 || 64 * (b - 1) < |data|)
      invariant blocks == Keystream(key, nonce, b)
      invariant output[..done] == XorStream(data[..done], blocks)
      decreases |data| - i
    {
      var keyStream := NextBlock(key, counter, nonce, b);
      counter := Add(counter, 1);
      done := XorChunkInto(output, data, i, keyStream, blocks);
      blocks := blocks + [keyStream[..]];
      b := b + 1;
      i := i + 64;
    }
    BlockCountIs(|data|, b);
    assert output[..] == output[..done] && data == data[..done];
  }

  /** The rest of one pass of the loop of `chacha20Process`: the chunk length
      `Math.min(64, data.length - i)` and the inner loop over it.  When the output so
      far is the data XOR `blocks`, afterwards it is the data XOR one block more. */
  method XorChunkInto(output: array<bv8>, data: Bytes, i: nat, keyStream: array<bv8>, ghost blocks: seq<Bytes>)
      returns (ghost done: nat)
    requires output.Length == |data| && i < |data| && i == 64 * |blocks|
    requires keyStream.Length == 64 && output != keyStream
    requires output[..i] == XorStream(data[..i], blocks)
    modifies output
    ensures done == Min(i + 64, |data|)
    ensures output[..done] == XorStream(data[..done], blocks + [keyStream[..]])
    ensures output[done..] == old(output[done..])
  {
    var chunk := Min(64, |data| - i);
    XorInto(output, data, i, chunk, keyStream);
    XorStreamAppend(data, i, chunk, blocks, keyStream[..]);
    done := i + chunk;
  }

  /** `chacha20Block(key, counter++, nonce)` in the loop of `chacha20Process`: the block
      for block number `b` extends the keystream by one block. */
  method NextBlock(key: Bytes, counter: Word, nonce: Bytes, ghost b: nat) returns (keyStream: array<bv8>)
    requires counter == BlockCounter(b)
    ensures fresh(keyStream) && keyStream.Length == 64
    ensures Keystream(key, nonce, b + 1) == Keystream(key, nonce, b) + [keyStream[..]]
  {
    keyStream := Block(key, counter, nonce);
    TabulateExtend(KeystreamBlock(key, nonce), b);
  }

  lemma BlockCountIs(len: nat, b: nat)
    requires len <= 64 * b && (b == 0 || 64 * (b - 1) < len)
    ensures BlockCount(len) == b
  {
  }

  // ---------------------------------------------------------------------------------
  // Properties of the cipher.

  /** Encryption and decryption are the same operation: applying the keystream twice
      under the same key and nonce gives back the data. */
  lemma ProcessInvolution(data: Bytes, key: Bytes, nonce: Bytes)
    ensures ProcessSpec(ProcessSpec(data, key, nonce), key, nonce) == data
  {
    XorStreamInvolution(data, Keystream(key, nonce, BlockCount(|data|)));
  }

  /** Section 2.4 of RFC 8439 byte by byte: data byte `64 b + j` is XORed with byte `j`
      of the block whose counter is `BlockCounter(b)`, that is 1 + b modulo 2^32. */
  lemma ProcessByte(data: Bytes, key: Bytes, nonce: Bytes, b: nat, j: nat)
    requires j < 64 && 64 * b + j < |data|
    ensures ProcessSpec(data, key, nonce)[64 * b + j]
      == data[64 * b + j] ^ BlockSpec(key, BlockCounter(b), nonce)[j]
  {
    XorStreamAt(data, Keystream(key, nonce, BlockCount(|data|)), b, j);
  }

  /** Test vector 2.1.1 of RFC 8439 for the quarter round. */
  lemma QrTestVector()
    ensures Qr(0x11111111, 0x01020304, 0x9b8d6f43, 0x01234567)
      == (0xea2a92f4, 0xcb1cf8ce, 0x4581472e, 0x5881c4bb)
  {
  }

  // ---------------------------------------------------------------------------------
  // The block test vector of section 2.3.2 of RFC 8439.  The in-place double round is
  // first shown equal to the inner_block of section 2.3.1 written on words (four
  // functions of two quarter rounds each, whose values on concrete states are cheap to
  // compute); ten concrete double rounds then take the initial state of the test
  // vector to the state after 20 rounds given there.

  /** QUARTERROUND(a, b, c, d) of section 2.2 on a state: the four words it names
      replaced by the quarter round of them. */
  function QuarterRoundOn(s: seq<Word>, a: nat, b: nat, c: nat, d: nat): (r: seq<Word>)
    requires a < |s| && b < |s| && c < |s| && d < |s|
    ensures |r| == |s|
  {
    var q := Qr(s[a], s[b], s[c], s[d]);
    s[a := q.0][b := q.1][c := q.2][d := q.3]
  }

  /** On four distinct indices the source's in-place quarter round is QUARTERROUND. */
  lemma QuarterRoundAtIsQuarterRoundOn(s: seq<Word>, a: nat, b: nat, c: nat, d: nat)
    requires a < |s| && b < |s| && c < |s| && d < |s|
    requires a != b && a != c && a != d && b != c && b != d && c != d
    ensures QuarterRoundAt(s, a, b, c, d) == QuarterRoundOn(s, a, b, c, d)
  {
    QuarterRoundAtIsQr(s, a, b, c, d);
    var r, t := QuarterRoundAt(s, a, b, c, d), QuarterRoundOn(s, a, b, c, d);
    assert forall i :: 0 <= i < |s| ==> r[i] == t[i];
  }

  /** The first two column quarter rounds of section 2.3.1 on words 0, 4, 8, 12 and 1, 5, 9, 13. */
  function FirstColumns(s: seq<Word>): (r: seq<Word>)
    requires |s| == 16
    ensures |r| == 16
  {
    var (x0, x4, x8, x12) := Qr(s[0], s[4], s[8], s[12]);
    var (x1, x5, x9, x13) := Qr(s[1], s[5], s[9], s[13]);
    [x0, x1, s[2], s[3], x4, x5, s[6], s[7],
     x8, x9, s[10], s[11], x12, x13, s[14], s[15]]
  }

  lemma FirstColumnsAreQuarterRounds(s: seq<Word>)
    requires |s| == 16
    ensures FirstColumns(s) == QuarterRoundOn(QuarterRoundOn(s, 0, 4, 8, 12), 1, 5, 9, 13)
  {
  }

  /** The last two column quarter rounds, on words 2, 6, 10, 14 and 3, 7, 11, 15. */
  function LastColumns(s: seq<Word>): (r: seq<Word>)
    requires |s| == 16
    ensures |r| == 16
  {
    var (x2, x6, x10, x14) := Qr(s[2], s[6], s[10], s[14]);
    var (x3, x7, x11, x15) := Qr(s[3], s[7], s[11], s[15]);
    [s[0], s[1], x2, x3, s[4], s[5], x6, x7,
     s[8], s[9], x10, x11, s[12], s[13], x14, x15]
  }

  lemma LastColumnsAreQuarterRounds(s: seq<Word>)
    requires |s| == 16
    ensures LastColumns(s) == QuarterRoundOn(QuarterRoundOn(s, 2, 6, 10, 14), 3, 7, 11, 15)
  {
  }

  /** The first two diagonal quarter rounds, on words 0, 5, 10, 15 and 1, 6, 11, 12. */
  function FirstDiagonals(s: seq<Word>): (r: seq<Word>)
    requires |s| == 16
    ensures |r| == 16
  {
    var (x0, x5, x10, x15) := Qr(s[0], s[5], s[10], s[15]);
    var (x1, x6, x11, x12) := Qr(s[1], s[6], s[11], s[12]);
    [x0, x1, s[2], s[3], s[4], x5, x6, s[7],
     s[8], s[9], x10, x11, x12, s[13], s[14], x15]
  }

  lemma FirstDiagonalsAreQuarterRounds(s: seq<Word>)
    requires |s| == 16
    ensures FirstDiagonals(s) == QuarterRoundOn(QuarterRoundOn(s, 0, 5, 10, 15), 1, 6, 11, 12)
  {
  }

  /** The last two diagonal quarter rounds, on words 2, 7, 8, 13 and 3, 4, 9, 14. */
  function LastDiagonals(s: seq<Word>): (r: seq<Word>)
    requires |s| == 16
    ensures |r| == 16
  {
    var (x2, x7, x8, x13) := Qr(s[2], s[7], s[8], s[13]);
    var (x3, x4, x9, x14) := Qr(s[3], s[4], s[9], s[14]);
    [s[0], s[1], x2, x3, x4, s[5], s[6], x7,
     x8, x9, s[10], s[11], s[12], x13, x14, s[15]]
  }

  lemma LastDiagonalsAreQuarterRounds(s: seq<Word>)
    requires |s| == 16
    ensures LastDiagonals(s) == QuarterRoundOn(QuarterRoundOn(s, 2, 7, 8, 13), 3, 4, 9, 14)
  {
  }

  /** inner_block of section 2.3.1: the four column rounds, then the four diagonal
      rounds. */
  function InnerBlock(s: seq<Word>): (r: seq<Word>)
    requires |s| == 16
    ensures |r| == 16
  {
    LastDiagonals(FirstDiagonals(LastColumns(FirstColumns(s))))
  }

  /** The source's double round is inner_block. */
  lemma DoubleRoundIsInnerBlock(s: seq<Word>)
    requires |s| == 16
    ensures DoubleRound(s) == InnerBlock(s)
  {
    var s1 := QuarterRoundAt(s, 0, 4, 8, 12);   QuarterRoundAtIsQuarterRoundOn(s, 0, 4, 8, 12);
    var s2 := QuarterRoundAt(s1, 1, 5, 9, 13);  QuarterRoundAtIsQuarterRoundOn(s1, 1, 5, 9, 13);
    var s3 := QuarterRoundAt(s2, 2, 6, 10, 14); QuarterRoundAtIsQuarterRoundOn(s2, 2, 6, 10, 14);
    var s4 := QuarterRoundAt(s3, 3, 7, 11, 15); QuarterRoundAtIsQuarterRoundOn(s3, 3, 7, 11, 15);
    var s5 := QuarterRoundAt(s4, 0, 5, 10, 15); QuarterRoundAtIsQuarterRoundOn(s4, 0, 5, 10, 15);
    var s6 := QuarterRoundAt(s5, 1, 6, 11, 12); QuarterRoundAtIsQuarterRoundOn(s5, 1, 6, 11, 12);
    var s7 := QuarterRoundAt(s6, 2, 7, 8, 13);  QuarterRoundAtIsQuarterRoundOn(s6, 2, 7, 8, 13);
    var s8 := QuarterRoundAt(s7, 3, 4, 9, 14);  QuarterRoundAtIsQuarterRoundOn(s7, 3, 4, 9, 14);
    FirstColumnsAreQuarterRounds(s);
    LastColumnsAreQuarterRounds(FirstColumns(s));
    FirstDiagonalsAreQuarterRounds(s4);
    LastDiagonalsAreQuarterRounds(FirstDiagonals(s4));
    DoubleRoundSteps(s, s1, s2, s3, s4, s5, s6, s7, s8);
  }

  /** Ten states each the inner_block of the one before: the last is the first after
      20 rounds. */
  lemma RoundsOfInnerBlocks(s0: seq<Word>, s1: seq<Word>, s2: seq<Word>, s3: seq<Word>,
                            s4: seq<Word>, s5: seq<Word>, s6: seq<Word>, s7: seq<Word>,
                            s8: seq<Word>, s9: seq<Word>, s10: seq<Word>)
    requires |s0| == |s1| == |s2| == |s3| == |s4| == |s5| == |s6| == |s7| == |s8| == |s9| == 16
    requires InnerBlock(s0) == s1 && InnerBlock(s1) == s2 && InnerBlock(s2) == s3
    requires InnerBlock(s3) == s4 && InnerBlock(s4) == s5 && InnerBlock(s5) == s6
    requires InnerBlock(s6) == s7 && InnerBlock(s7) == s8 && InnerBlock(s8) == s9
    requires InnerBlock(s9) == s10
    ensures Rounds(s0, 10) == s10
  {
    RoundsStep(s0, 10); DoubleRoundIsInnerBlock(s0);
    RoundsStep(s1, 9);  DoubleRoundIsInnerBlock(s1);
    RoundsStep(s2, 8);  DoubleRoundIsInnerBlock(s2);
    RoundsStep(s3, 7);  DoubleRoundIsInnerBlock(s3);
    RoundsStep(s4, 6);  DoubleRoundIsInnerBlock(s4);
    RoundsStep(s5, 5);  DoubleRoundIsInnerBlock(s5);
    RoundsStep(s6, 4);  DoubleRoundIsInnerBlock(s6);
    RoundsStep(s7, 3);  DoubleRoundIsInnerBlock(s7);
    RoundsStep(s8, 2);  DoubleRoundIsInnerBlock(s8);
    RoundsStep(s9, 1);  DoubleRoundIsInnerBlock(s9);
  }

  /** Serialization distributes over concatenation. */
  lemma SerializeAppend(a: seq<Word>, b: seq<Word>)
    ensures Serialize(a + b) == Serialize(a) + Serialize(b)
  {
    forall k | 0 <= k < 4 * |a + b| ensures Serialize(a + b)[k] == (Serialize(a) + Serialize(b))[k] {
      var i, j := k / 4, k % 4;
      assert k == 4 * i + j;
      SerializeAt(a + b, i, j);
      if i < |a| {
        SerializeAt(a, i, j);
      } else {
        SerializeAt(b, i - |a|, j);
      }
    }
  }

  /** Word-by-word addition distributes over concatenation. */
  lemma AddWordsAppend(a: seq<Word>, b: seq<Word>, c: seq<Word>, d: seq<Word>)
    requires |a| == |c| && |b| == |d|
    ensures AddWords(a + b, c + d) == AddWords(a, c) + AddWords(b, d)
  {
  }

  /** The 64 output bytes of two states, four words at a time. */
  lemma SerializeAddQuarters(x: seq<Word>, y: seq<Word>)
    requires |x| == 16 && |y| == 16
    ensures Serialize(AddWords(x, y))
      == Serialize(AddWords(x[..4], y[..4])) + Serialize(AddWords(x[4..8], y[4..8]))
       + Serialize(AddWords(x[8..12], y[8..12])) + Serialize(AddWords(x[12..], y[12..]))
  {
    assert x == x[..4] + x[4..8] + x[8..12] + x[12..];
    assert y == y[..4] + y[4..8] + y[8..12] + y[12..];
    AddWordsAppend(x[..4] + x[4..8] + x[8..12], x[12..], y[..4] + y[4..8] + y[8..12], y[12..]);
    AddWordsAppend(x[..4] + x[4..8], x[8..12], y[..4] + y[4..8], y[8..12]);
    AddWordsAppend(x[..4], x[4..8], y[..4], y[4..8]);
    var a0, a1 := AddWords(x[..4], y[..4]), AddWords(x[4..8], y[4..8]);
    var a2, a3 := AddWords(x[8..12], y[8..12]), AddWords(x[12..], y[12..]);
    SerializeAppend(a0 + a1 + a2, a3);
    SerializeAppend(a0 + a1, a2);
    SerializeAppend(a0, a1);
  }

  /** The key, nonce, initial state and state after 20 rounds of the test vector. */

  const BlockTestKey: Bytes := [0x00, 0x01, 0x02, 0x03, 0x04, 0x05, 0x06, 0x07, 0x08, 0x09, 0x0a, 0x0b, 0x0c, 0x0d, 0x0e, 0x0f,
                                0x10, 0x11, 0x12, 0x13, 0x14, 0x15, 0x16, 0x17, 0x18, 0x19, 0x1a, 0x1b, 0x1c, 0x1d, 0x1e, 0x1f]
  const BlockTestNonce: Bytes := [0x00, 0x00, 0x00, 0x09, 0x00, 0x00, 0x00, 0x4a, 0x00, 0x00, 0x00, 0x00]
  const BlockTestInit: seq<Word> := [0x61707865, 0x3320646e, 0x79622d32, 0x6b206574, 0x03020100, 0x07060504, 0x0b0a0908, 0x0f0e0d0c,
                                    0x13121110, 0x17161514, 0x1b1a1918, 0x1f1e1d1c, 0x00000001, 0x09000000, 0x4a000000, 0x00000000]
  const BlockTestFinal: seq<Word> := [0x837778ab, 0xe238d763, 0xa67ae21e, 0x5950bb2f, 0xc4f2d0c7, 0xfc62bb2f, 0x8fa018fc, 0x3f5ec7b7,
                                     0x335271c2, 0xf29489f3, 0xeabda8fc, 0x82e46ebd, 0xd19c12b4, 0xb04e16de, 0x9e83d0cb, 0x4e3c50a2]

  lemma BlockTestKeyWordsLow()
    ensures WordLE(BlockTestKey, 0) == 0x03020100
         && WordLE(BlockTestKey, 4) == 0x07060504
         && WordLE(BlockTestKey, 8) == 0x0b0a0908
         && WordLE(BlockTestKey, 12) == 0x0f0e0d0c
  {
  }

  lemma BlockTestKeyWordsHigh()
    ensures WordLE(BlockTestKey, 16) == 0x13121110
         && WordLE(BlockTestKey, 20) == 0x17161514
         && WordLE(BlockTestKey, 24) == 0x1b1a1918
         && WordLE(BlockTestKey, 28) == 0x1f1e1d1c
  {
  }

  lemma BlockTestNonceWords()
    ensures WordLE(BlockTestNonce, 0) == 0x09000000
         && WordLE(BlockTestNonce, 4) == 0x4a000000
         && WordLE(BlockTestNonce, 8) == 0x00000000
  {
  }

  /** The state of the test vector after setup. */
  lemma BlockTestInitialState()
    ensures InitialState(BlockTestKey, 1, BlockTestNonce) == BlockTestInit
  {
    BlockTestKeyWordsLow();
    BlockTestKeyWordsHigh();
    BlockTestNonceWords();
  }

  lemma BlockTestRound1()
    ensures InnerBlock([0x61707865, 0x3320646e, 0x79622d32, 0x6b206574, 0x03020100, 0x07060504, 0x0b0a0908, 0x0f0e0d0c,
                        0x13121110, 0x17161514, 0x1b1a1918, 0x1f1e1d1c, 0x00000001, 0x09000000, 0x4a000000, 0x00000000])
      == [0xcd52e917, 0x85ab03b4, 0xb3457395, 0xf96de7dd, 0xc4b7cd22, 0x5c2e187a, 0xc95eb461, 0x316c801a,
          0x7bf7d740, 0x7eddd644, 0xf1a1bdf5, 0x761246ca, 0x6b0d58a3, 0x6798471a, 0xd737f167, 0xf173888d]
  {
  }

  lemma BlockTestRound2()
    ensures InnerBlock([0xcd52e917, 0x85ab03b4, 0xb3457395, 0xf96de7dd, 0xc4b7cd22, 0x5c2e187a, 0xc95eb461, 0x316c801a,
                        0x7bf7d740, 0x7eddd644, 0xf1a1bdf5, 0x761246ca, 0x6b0d58a3, 0x6798471a, 0xd737f167, 0xf173888d])
      == [0xcf1a7584, 0x048927ec, 0x54051fda, 0xc244ff28, 0x901d2f40, 0x7974b81c, 0x378dcfb4, 0xcd47fd0e,
          0x2dafb216, 0x27c89cd6, 0xcd3c9aa0, 0x79fc89c7, 0x10aef18d, 0x16218765, 0x68f76705, 0x04d6ee22]
  {
  }

  lemma BlockTestRound3()
    ensures InnerBlock([0xcf1a7584, 0x048927ec, 0x54051fda, 0xc244ff28, 0x901d2f40, 0x7974b81c, 0x378dcfb4, 0xcd47fd0e,
                        0x2dafb216, 0x27c89cd6, 0xcd3c9aa0, 0x79fc89c7, 0x10aef18d, 0x16218765, 0x68f76705, 0x04d6ee22])
      == [0x03a14032, 0x66b15927, 0x9d6b6b42, 0xb84c4109, 0xa7143ae0, 0xa09b33dd, 0xa5daaf88, 0x2fd91a73,
          0xc90c6b18, 0x5a202413, 0xc20e01b6, 0x72cd6b74, 0xba35d777, 0xb360f1bf, 0x8178315b, 0x2cd11b1a]
  {
  }

  lemma BlockTestRound4()
    ensures InnerBlock([0x03a14032, 0x66b15927, 0x9d6b6b42, 0xb84c4109, 0xa7143ae0, 0xa09b33dd, 0xa5daaf88, 0x2fd91a73,
                        0xc90c6b18, 0x5a202413, 0xc20e01b6, 0x72cd6b74, 0xba35d777, 0xb360f1bf, 0x8178315b, 0x2cd11b1a])
      == [0x9a2d3589, 0x0b23fc4e, 0x40af3b6b, 0xceea8144, 0x0a1bffc6, 0x5e5993f7, 0x9904c2e7, 0x0d334718,
          0xe46c6354, 0xc9503229, 0x04fef5aa, 0xf8933f72, 0x2687d476, 0x54e65231, 0x3594ffc5, 0x2b3bb2ca]
  {
  }

  lemma BlockTestRound5()
    ensures InnerBlock([0x9a2d3589, 0x0b23fc4e, 0x40af3b6b, 0xceea8144, 0x0a1bffc6, 0x5e5993f7, 0x9904c2e7, 0x0d334718,
                        0xe46c6354, 0xc9503229, 0x04fef5aa, 0xf8933f72, 0x2687d476, 0x54e65231, 0x3594ffc5, 0x2b3bb2ca])
      == [0xc53318c5, 0xca325d96, 0x7e7d11cb, 0x3404e2ca, 0x26d7cf73, 0x6088d379, 0xc0f0e9bd, 0xe310cdb9,
          0xae2ca8db, 0x42f67c72, 0x71669aca, 0x975c171d, 0x9e5ec228, 0x7d85a9f3, 0x201d0756, 0x63fa6953]
  {
  }

  lemma BlockTestRound6()
    ensures InnerBlock([0xc53318c5, 0xca325d96, 0x7e7d11cb, 0x3404e2ca, 0x26d7cf73, 0x6088d379, 0xc0f0e9bd, 0xe310cdb9,
                        0xae2ca8db, 0x42f67c72, 0x71669aca, 0x975c171d, 0x9e5ec228, 0x7d85a9f3, 0x201d0756, 0x63fa6953])
      == [0x04a3131a, 0x66176309, 0x0415bab1, 0x61b880a2, 0x36cc86c7, 0xbf8a4465, 0xf77dd720, 0xfc0bdc90,
          0x07d13aca, 0xeb0be9af, 0x61599491, 0x918512dc, 0x33b6686d, 0x795cc671, 0xc0049972, 0xa0a81bde]
  {
  }

  lemma BlockTestRound7()
    ensures InnerBlock([0x04a3131a, 0x66176309, 0x0415bab1, 0x61b880a2, 0x36cc86c7, 0xbf8a4465, 0xf77dd720, 0xfc0bdc90,
                        0x07d13aca, 0xeb0be9af, 0x61599491, 0x918512dc, 0x33b6686d, 0x795cc671, 0xc0049972, 0xa0a81bde])
      == [0x9b70f51f, 0x7ea8ac11, 0x21e54da9, 0xca393b2f, 0x93b08686, 0x6a4c50ae, 0x19212a5a, 0x9b032958,
          0xd839165e, 0x4c06e28a, 0xd3fde99e, 0x26acc13d, 0xa609f555, 0x2c246549, 0x95151853, 0x2c847a0d]
  {
  }

  lemma BlockTestRound8()
    ensures InnerBlock([0x9b70f51f, 0x7ea8ac11, 0x21e54da9, 0xca393b2f, 0x93b08686, 0x6a4c50ae, 0x19212a5a, 0x9b032958,
                        0xd839165e, 0x4c06e28a, 0xd3fde99e, 0x26acc13d, 0xa609f555, 0x2c246549, 0x95151853, 0x2c847a0d])
      == [0xca5c85dd, 0x93a4f90e, 0xd9f0df58, 0x26dd82dd, 0x982563f8, 0x712aa9ff, 0x279a61e8, 0x970f72bd,
          0x1c25931a, 0x5180bb10, 0x779c27e7, 0x54077e08, 0xa9b751fb, 0x382f3ce2, 0x8db1757d, 0xcc38080b]
  {
  }

  lemma BlockTestRound9()
    ensures InnerBlock([0xca5c85dd, 0x93a4f90e, 0xd9f0df58, 0x26dd82dd, 0x982563f8, 0x712aa9ff, 0x279a61e8, 0x970f72bd,
                        0x1c25931a, 0x5180bb10, 0x779c27e7, 0x54077e08, 0xa9b751fb, 0x382f3ce2, 0x8db1757d, 0xcc38080b])
      == [0xb6b87de6, 0x9a016148, 0x93859815, 0x4915e6cc, 0xdc33c122, 0x98e18fa3, 0x5ffbe8fc, 0xf7154b8b,
          0x28c1fcb3, 0xc4b38f9d, 0x83e2f5d7, 0x7d24b98b, 0x21078b22, 0xb193e7a3, 0xb2f49389, 0x6cde6026]
  {
  }

  lemma BlockTestRound10()
    ensures InnerBlock([0xb6b87de6, 0x9a016148, 0x93859815, 0x4915e6cc, 0xdc33c122, 0x98e18fa3, 0x5ffbe8fc, 0xf7154b8b,
                        0x28c1fcb3, 0xc4b38f9d, 0x83e2f5d7, 0x7d24b98b, 0x21078b22, 0xb193e7a3, 0xb2f49389, 0x6cde6026])
      == [0x837778ab, 0xe238d763, 0xa67ae21e, 0x5950bb2f, 0xc4f2d0c7, 0xfc62bb2f, 0x8fa018fc, 0x3f5ec7b7,
          0x335271c2, 0xf29489f3, 0xeabda8fc, 0x82e46ebd, 0xd19c12b4, 0xb04e16de, 0x9e83d0cb, 0x4e3c50a2]
  {
  }

  lemma BlockTestOutput0()
    ensures Serialize(AddWords(BlockTestFinal[..4], BlockTestInit[..4]))
      == [0x10, 0xf1, 0xe7, 0xe4, 0xd1, 0x3b, 0x59, 0x15, 0x50, 0x0f, 0xdd, 0x1f, 0xa3, 0x20, 0x71, 0xc4]
  {
  }

  lemma BlockTestOutput1()
    ensures Serialize(AddWords(BlockTestFinal[4..8], BlockTestInit[4..8]))
      == [0xc7, 0xd1, 0xf4, 0xc7, 0x33, 0xc0, 0x68, 0x03, 0x04, 0x22, 0xaa, 0x9a, 0xc3, 0xd4, 0x6c, 0x4e]
  {
  }

  lemma BlockTestOutput2()
    ensures Serialize(AddWords(BlockTestFinal[8..12], BlockTestInit[8..12]))
      == [0xd2, 0x82, 0x64, 0x46, 0x07, 0x9f, 0xaa, 0x09, 0x14, 0xc2, 0xd7, 0x05, 0xd9, 0x8b, 0x02, 0xa2]
  {
  }

  lemma BlockTestOutput3()
    ensures Serialize(AddWords(BlockTestFinal[12..], BlockTestInit[12..]))
      == [0xb5, 0x12, 0x9c, 0xd1, 0xde, 0x16, 0x4e, 0xb9, 0xcb, 0xd0, 0x83, 0xe8, 0xa2, 0x50, 0x3c, 0x4e]
  {
  }

  /** The serialized block of the test vector. */
  lemma BlockTestOutput()
    ensures Serialize(AddWords(BlockTestFinal, BlockTestInit))
      == [0x10, 0xf1, 0xe7, 0xe4, 0xd1, 0x3b, 0x59, 0x15, 0x50, 0x0f, 0xdd, 0x1f, 0xa3, 0x20, 0x71, 0xc4]
       + [0xc7, 0xd1, 0xf4, 0xc7, 0x33, 0xc0, 0x68, 0x03, 0x04, 0x22, 0xaa, 0x9a, 0xc3, 0xd4, 0x6c, 0x4e]
       + [0xd2, 0x82, 0x64, 0x46, 0x07, 0x9f, 0xaa, 0x09, 0x14, 0xc2, 0xd7, 0x05, 0xd9, 0x8b, 0x02, 0xa2]
       + [0xb5, 0x12, 0x9c, 0xd1, 0xde, 0x16, 0x4e, 0xb9, 0xcb, 0xd0, 0x83, 0xe8, 0xa2, 0x50, 0x3c, 0x4e]
  {
    SerializeAddQuarters(BlockTestFinal, BlockTestInit);
    BlockTestOutput0(); BlockTestOutput1(); BlockTestOutput2(); BlockTestOutput3();
  }

  /** The block function on the key, counter 1 and nonce of section 2.3.2 of RFC 8439
      gives the serialized block printed there. */
  lemma BlockTestVector()
    ensures BlockSpec(BlockTestKey, 1, BlockTestNonce)
      == [0x10, 0xf1, 0xe7, 0xe4, 0xd1, 0x3b, 0x59, 0x15, 0x50, 0x0f, 0xdd, 0x1f, 0xa3, 0x20, 0x71, 0xc4]
       + [0xc7, 0xd1, 0xf4, 0xc7, 0x33, 0xc0, 0x68, 0x03, 0x04, 0x22, 0xaa, 0x9a, 0xc3, 0xd4, 0x6c, 0x4e]
       + [0xd2, 0x82, 0x64, 0x46, 0x07, 0x9f, 0xaa, 0x09, 0x14, 0xc2, 0xd7, 0x05, 0xd9, 0x8b, 0x02, 0xa2]
       + [0xb5, 0x12, 0x9c, 0xd1, 0xde, 0x16, 0x4e, 0xb9, 0xcb, 0xd0, 0x83, 0xe8, 0xa2, 0x50, 0x3c, 0x4e]
  {
    BlockTestInitialState();
    BlockTestRound1(); BlockTestRound2(); BlockTestRound3(); BlockTestRound4(); BlockTestRound5();
    BlockTestRound6(); BlockTestRound7(); BlockTestRound8(); BlockTestRound9(); BlockTestRound10();
    RoundsOfInnerBlocks(BlockTestInit,
                        [0xcd52e917, 0x85ab03b4, 0xb3457395, 0xf96de7dd, 0xc4b7cd22, 0x5c2e187a, 0xc95eb461, 0x316c801a,
                         0x7bf7d740, 0x7eddd644, 0xf1a1bdf5, 0x761246ca, 0x6b0d58a3, 0x6798471a, 0xd737f167, 0xf173888d],
                        [0xcf1a7584, 0x048927ec, 0x54051fda, 0xc244ff28, 0x901d2f40, 0x7974b81c, 0x378dcfb4, 0xcd47fd0e,
                         0x2dafb216, 0x27c89cd6, 0xcd3c9aa0, 0x79fc89c7, 0x10aef18d, 0x16218765, 0x68f76705, 0x04d6ee22],
                        [0x03a14032, 0x66b15927, 0x9d6b6b42, 0xb84c4109, 0xa7143ae0, 0xa09b33dd, 0xa5daaf88, 0x2fd91a73,
                         0xc90c6b18, 0x5a202413, 0xc20e01b6, 0x72cd6b74, 0xba35d777, 0xb360f1bf, 0x8178315b, 0x2cd11b1a],
                        [0x9a2d3589, 0x0b23fc4e, 0x40af3b6b, 0xceea8144, 0x0a1bffc6, 0x5e5993f7, 0x9904c2e7, 0x0d334718,
                         0xe46c6354, 0xc9503229, 0x04fef5aa, 0xf8933f72, 0x2687d476, 0x54e65231, 0x3594ffc5, 0x2b3bb2ca],
                        [0xc53318c5, 0xca325d96, 0x7e7d11cb, 0x3404e2ca, 0x26d7cf73, 0x6088d379, 0xc0f0e9bd, 0xe310cdb9,
                         0xae2ca8db, 0x42f67c72, 0x71669aca, 0x975c171d, 0x9e5ec228, 0x7d85a9f3, 0x201d0756, 0x63fa6953],
                        [0x04a3131a, 0x66176309, 0x0415bab1, 0x61b880a2, 0x36cc86c7, 0xbf8a4465, 0xf77dd720, 0xfc0bdc90,
                         0x07d13aca, 0xeb0be9af, 0x61599491, 0x918512dc, 0x33b6686d, 0x795cc671, 0xc0049972, 0xa0a81bde],
                        [0x9b70f51f, 0x7ea8ac11, 0x21e54da9, 0xca393b2f, 0x93b08686, 0x6a4c50ae, 0x19212a5a, 0x9b032958,
                         0xd839165e, 0x4c06e28a, 0xd3fde99e, 0x26acc13d, 0xa609f555, 0x2c246549, 0x95151853, 0x2c847a0d],
                        [0xca5c85dd, 0x93a4f90e, 0xd9f0df58, 0x26dd82dd, 0x982563f8, 0x712aa9ff, 0x279a61e8, 0x970f72bd,
                         0x1c25931a, 0x5180bb10, 0x779c27e7, 0x54077e08, 0xa9b751fb, 0x382f3ce2, 0x8db1757d, 0xcc38080b],
                        [0xb6b87de6, 0x9a016148, 0x93859815, 0x4915e6cc, 0xdc33c122, 0x98e18fa3, 0x5ffbe8fc, 0xf7154b8b,
                         0x28c1fcb3, 0xc4b38f9d, 0x83e2f5d7, 0x7d24b98b, 0x21078b22, 0xb193e7a3, 0xb2f49389, 0x6cde6026],
                        BlockTestFinal);
    BlockTestOutput();
  }

  // ---------------------------------------------------------------------------------
  // The password-based envelope.

  const EncryptFallback: string := "Encryption failed"
  const DecryptFallback: string := "Decryption failed"

  /** `encrypt(text, password)` with the random salt (16 bytes) and nonce (12 bytes)
      given: the key derived from the password and salt, the UTF-8 bytes of the text
      run through the cipher, and base64(salt ‖ nonce ‖ ciphertext).  A throw from the
      key derivation is reported through the catch block. */
  function EncryptSpec(p: Platform, text: string, password: string, salt: Bytes, nonce: Bytes): (r: CryptoResult)
  {
    match DeriveKey(p, password, salt)
    case Throw(t) => Failure(CaughtMessage(t, EncryptFallback))
    case Ok(key) => Success(p.base64Encode(salt + nonce + ProcessSpec(p.utf8Encode(text), key, nonce)))
  }

  /** `decrypt(encryptedText, password)`: base64 decoding, the split at 16 and 28, the
      key derived from the envelope's salt, the cipher, UTF-8 decoding.  A throw from
      atob or from the key derivation is reported through the catch block; nothing
      checks that the password was the right one. */
  function DecryptSpec(p: Platform, encryptedText: string, password: string): (r: CryptoResult)
  {
    match p.base64Decode(encryptedText)
    case Throw(t) => Failure(CaughtMessage(t, DecryptFallback))
    case Ok(encryptedData) =>
      var parts := Envelope.Split(encryptedData);
      match DeriveKey(p, password, parts.salt)
      case Throw(t) => Failure(CaughtMessage(t, DecryptFallback))
      case Ok(key) => Success(p.utf8Decode(ProcessSpec(parts.payload, key, parts.nonce)))
  }

  /** `encrypt`, step by step as the source runs it. */
  method Encrypt(p: Platform, text: string, password: string, salt: Bytes, nonce: Bytes) returns (r: CryptoResult)
    ensures r == EncryptSpec(p, text, password, salt, nonce)
  {
    var key := DeriveKey(p, password, salt);
    if key.Throw? {
      return Failure(CaughtMessage(key.thrown, EncryptFallback));
    }
    var data := p.utf8Encode(text);
    var encrypted := Process(data, key.value, nonce);
    var result := Envelope.Assemble(salt, nonce, encrypted[..]);
    r := Success(p.base64Encode(result[..]));
  }

  /** `decrypt`, step by step as the source runs it. */
  method Decrypt(p: Platform, encryptedText: string, password: string) returns (r: CryptoResult)
    ensures r == DecryptSpec(p, encryptedText, password)
  {
    var encryptedData := p.base64Decode(encryptedText);
    if encryptedData.Throw? {
      return Failure(CaughtMessage(encryptedData.thrown, DecryptFallback));
    }
    var parts := Envelope.Split(encryptedData.value);
    var key := DeriveKey(p, password, parts.salt);
    if key.Throw? {
      return Failure(CaughtMessage(key.thrown, DecryptFallback));
    }
    var decrypted := Process(parts.payload, key.value, parts.nonce);
    r := Success(p.utf8Decode(decrypted[..]));
  }

  /** Decrypting what encryption produced with the same password gives the text back,
      when atob inverts btoa, TextDecoder inverts TextEncoder and the key derivation
      succeeds (it is a function of password and salt, so both sides get the same key). */
  lemma RoundTrip(p: Platform, text: string, password: string, salt: Bytes, nonce: Bytes)
    requires Base64RoundTrips(p) && Utf8RoundTrips(p)
    requires |salt| == Envelope.SaltLength && |nonce| == Envelope.NonceLength
    requires DeriveKey(p, password, salt).Ok?
    ensures EncryptSpec(p, text, password, salt, nonce).Success?
    ensures DecryptSpec(p, EncryptSpec(p, text, password, salt, nonce).result, password) == Success(text)
  {
    var key := DeriveKey(p, password, salt).value;
    var data := p.utf8Encode(text);
    var ciphertext := ProcessSpec(data, key, nonce);
    assert p.base64Decode(p.base64Encode(salt + nonce + ciphertext)) == Ok(salt + nonce + ciphertext);
    Envelope.SplitInvertsAssembly(salt, nonce, ciphertext);
    ProcessInvolution(data, key, nonce);
  }

  /** Encryption fails exactly when the key derivation throws, with its message. */
  lemma EncryptFailsOnlyInDerivation(p: Platform, text: string, password: string, salt: Bytes, nonce: Bytes)
    ensures EncryptSpec(p, text, password, salt, nonce).Failure? <==> DeriveKey(p, password, salt).Throw?
    ensures DeriveKey(p, password, salt).Throw? ==>
      EncryptSpec(p, text, password, salt, nonce).error == CaughtMessage(DeriveKey(p, password, salt).thrown, EncryptFallback)
  {
  }

  /** There is no authentication: decryption succeeds whenever the text is base64 and
      the key derivation from the envelope's salt succeeds, whatever the password, and
      then yields the UTF-8 decoding of the payload XOR that password's keystream. */
  lemma NoAuthentication(p: Platform, encryptedText: string, password: string)
    ensures DecryptSpec(p, encryptedText, password).Success? <==>
      p.base64Decode(encryptedText).Ok? &&
      DeriveKey(p, password, Envelope.Split(p.base64Decode(encryptedText).value).salt).Ok?
  {
  }
}
