/**
 SHA-256 as sections 4.1.2, 5.1.1, 5.2.1, 5.3.3 and 6.2.2 of FIPS 180-4 define it, for messages that are
 whole bytes.  Nothing here follows the client's code: words rotate with the built-in rotation, the message
 schedule is a recursion on the round number, and the message is padded as a whole before it is cut into blocks.
 */
module Sha256Spec {
  import opened Base
  import opened Hex
  import opened Words

  // Section 4.2.2: the sixty-four round constants.

  const K0: seq<Word> := [
    0x428a2f98, 0x71374491, 0xb5c0fbcf, 0xe9b5dba5, 0x3956c25b, 0x59f111f1, 0x923f82a4, 0xab1c5ed5,
    0xd807aa98, 0x12835b01, 0x243185be, 0x550c7dc3, 0x72be5d74, 0x80deb1fe, 0x9bdc06a7, 0xc19bf174]

  const K16: seq<Word> := [
    0xe49b69c1, 0xefbe4786, 0x0fc19dc6, 0x240ca1cc, 0x2de92c6f, 0x4a7484aa, 0x5cb0a9dc, 0x76f988da,
    0x983e5152, 0xa831c66d, 0xb00327c8, 0xbf597fc7, 0xc6e00bf3, 0xd5a79147, 0x06ca6351, 0x14292967]

  const K32: seq<Word> := [
    0x27b70a85, 0x2e1b2138, 0x4d2c6dfc, 0x53380d13, 0x650a7354, 0x766a0abb, 0x81c2c92e, 0x92722c85,
    0xa2bfe8a1, 0xa81a664b, 0xc24b8b70, 0xc76c51a3, 0xd192e819, 0xd6990624, 0xf40e3585, 0x106aa070]

  const K48: seq<Word> := [
    0x19a4c116, 0x1e376c08, 0x2748774c, 0x34b0bcb5, 0x391c0cb3, 0x4ed8aa4a, 0x5b9cca4f, 0x682e6ff3,
    0x748f82ee, 0x78a5636f, 0x84c87814, 0x8cc70208, 0x90befffa, 0xa4506ceb, 0xbef9a3f7, 0xc67178f2]

  const K: seq<Word> := K0 + K16 + K32 + K48

  /** A hash value, and equally the eight working variables a to h. */
  datatype Hash = Hash(a: Word, b: Word, c: Word, d: Word, e: Word, f: Word, g: Word, h: Word)

  /** Section 5.3.3: the initial hash value. */
  const H0: Hash := Hash(0x6a09e667, 0xbb67ae85, 0x3c6ef372, 0xa54ff53a, 0x510e527f, 0x9b05688c, 0x1f83d9ab, 0x5be0cd19)

  // Sums modulo 2^32, named so that proofs can treat them as symbols.

  function Sum2(x: Word, y: Word): Word { x + y }

  function Sum4(x: Word, y: Word, z: Word, u: Word): Word { x + y + z + u }

  function Sum5(x: Word, y: Word, z: Word, u: Word, v: Word): Word { x + y + z + u + v }

  // Section 4.1.2.

  function Ch(x: Word, y: Word, z: Word): Word { (x & y) ^ (!x & z) }

  function Maj(x: Word, y: Word, z: Word): Word { (x & y) ^ (x & z) ^ (y & z) }

  function BigSigma0(x: Word): Word { x.RotateRight(2) ^ x.RotateRight(13) ^ x.RotateRight(22) }

  function BigSigma1(x: Word): Word { x.RotateRight(6) ^ x.RotateRight(11) ^ x.RotateRight(25) }

  function SmallSigma0(x: Word): Word { x.RotateRight(7) ^ x.RotateRight(18) ^ (x >> 3) }

  function SmallSigma1(x: Word): Word { x.RotateRight(17) ^ x.RotateRight(19) ^ (x >> 10) }

  /** Four bytes as a big-endian number. */
  function PackNumber(b0: Byte, b1: Byte, b2: Byte, b3: Byte): nat { ((b0 * 256 + b1) * 256 + b2) * 256 + b3 }

  function PackWord(b0: Byte, b1: Byte, b2: Byte, b3: Byte): Word { ToWord(PackNumber(b0, b1, b2, b3), 32) }

  /** Section 5.2.1: the t-th word of a block. */
  function BlockWord(block: seq<Byte>, t: nat): Word
    requires |block| == 64 && t < 16
  {
    PackWord(block[4 * t], block[4 * t + 1], block[4 * t + 2], block[4 * t + 3])
  }

  /** Section 6.2.2, step 1: the message schedule. */
  function Schedule(block: seq<Byte>, t: nat): Word
    requires |block| == 64 && t < 64
  {
    if t < 16 then BlockWord(block, t)
    else Sum4(SmallSigma1(Schedule(block, t - 2)), Schedule(block, t - 7),
              SmallSigma0(Schedule(block, t - 15)), Schedule(block, t - 16))
  }

  /** Section 6.2.2, step 3: one round. */
  function Round(v: Hash, k: Word, w: Word): Hash {
    var t1 := Sum5(v.h, BigSigma1(v.e), Ch(v.e, v.f, v.g), k, w);
    var t2 := Sum2(BigSigma0(v.a), Maj(v.a, v.b, v.c));
    Hash(Sum2(t1, t2), v.a, v.b, v.c, Sum2(v.d, t1), v.e, v.f, v.g)
  }

  /** The working variables after the first `t` rounds. */
  function Rounds(v: Hash, block: seq<Byte>, t: nat): Hash
    requires |block| == 64 && t <= 64
  {
    if t == 0 then v else Round(Rounds(v, block, t - 1), K[t - 1], Schedule(block, t - 1))
  }

  /** Section 6.2.2, step 4: word-wise addition modulo 2^32. */
  function AddHash(x: Hash, y: Hash): Hash {
    Hash(Sum2(x.a, y.a), Sum2(x.b, y.b), Sum2(x.c, y.c), Sum2(x.d, y.d),
         Sum2(x.e, y.e), Sum2(x.f, y.f), Sum2(x.g, y.g), Sum2(x.h, y.h))
  }

  function CompressBlock(v: Hash, block: seq<Byte>): Hash
    requires |block| == 64
  {
    AddHash(v, Rounds(v, block, 64))
  }

  /** Section 6.2.2: the hash value after all the blocks of a padded message (a whole number of blocks). */
  function HashBlocks(m: seq<Byte>): Hash {
    if |m| < 64 then H0 else CompressBlock(HashBlocks(m[..|m| - 64]), m[|m| - 64..])
  }

  /** The blocks are chained: each adds its sixty-four rounds on the value so far to that value, word by word. */
  lemma BlocksChain(m: seq<Byte>, block: seq<Byte>)
    requires |m| % 64 == 0 && |block| == 64
    ensures var v, w := HashBlocks(m), Rounds(HashBlocks(m), block, 64);
            HashBlocks(m + block) == Hash(Sum2(v.a, w.a), Sum2(v.b, w.b), Sum2(v.c, w.c), Sum2(v.d, w.d),
                                          Sum2(v.e, w.e), Sum2(v.f, w.f), Sum2(v.g, w.g), Sum2(v.h, w.h))
  {
    hide Rounds, Sum2;
    var all := m + block;
    assert all[..|all| - 64] == m && all[|all| - 64..] == block;
  }

  const TWO64: nat := 0x1_0000_0000_0000_0000

  /** The byte of `x` at weight `scale`. */
  function ByteAt(x: nat, scale: nat): Byte
    requires scale > 0
  {
    (x / scale) % 256
  }

  /** A 64-bit count as eight big-endian bytes. */
  function BigEndian64(x: nat): seq<Byte>
    requires x < TWO64
  {
    [ByteAt(x, 0x100_0000_0000_0000), ByteAt(x, 0x1_0000_0000_0000), ByteAt(x, 0x100_0000_0000), ByteAt(x, 0x1_0000_0000),
     ByteAt(x, 0x100_0000), ByteAt(x, 0x1_0000), ByteAt(x, 0x100), ByteAt(x, 1)]
  }

  function Zeros(n: nat): seq<Byte> { seq(n, _ => 0) }

  /** How many zero bytes follow the 0x80 byte. */
  function ZeroCount(n: nat): nat { (55 - n) % 64 }

  /**
   Section 5.1.1: ZeroCount is the smallest non-negative solution of n + 1 + z = 56 (mod 64), which is the
   standard's l + 1 + k = 448 (mod 512) for l = 8n message bits and k = 7 + 8z zero bits.
   */
  lemma ZeroCountIsLeastSolution(n: nat, z: nat)
    requires (8 * n + 1 + (7 + 8 * z)) % 512 == 448
    ensures (8 * n + 1 + (7 + 8 * ZeroCount(n))) % 512 == 448
    ensures ZeroCount(n) <= z
  {
    var q := (55 - n) / 64;
    assert 55 - n == 64 * q + ZeroCount(n);
    assert 8 * n + 8 + 8 * ZeroCount(n) == 512 * (-q) + 448;
    var r := (8 * n + 8 + 8 * z) / 512;
    assert n + 1 + z == 64 * r + 56;
    assert z - ZeroCount(n) == 64 * (r + q);
  }

  lemma PaddedToBlocks(n: nat)
    ensures (n + 1 + ZeroCount(n) + 8) % 64 == 0
  {
    var q := (55 - n) / 64;
    assert 55 - n == 64 * q + ZeroCount(n);
    assert n + 1 + ZeroCount(n) + 8 == 64 * (1 - q);
  }

  /** Section 5.1.1: the padded message. */
  function Pad(m: seq<Byte>): (p: seq<Byte>)
    requires 8 * |m| < TWO64
    ensures |p| % 64 == 0
  {
    PaddedToBlocks(|m|);
    m + [0x80] + Zeros(ZeroCount(|m|)) + BigEndian64(8 * |m|)
  }

  /** The SHA-256 hash value of a message. */
  function Digest(m: seq<Byte>): Hash
    requires 8 * |m| < TWO64
  {
    HashBlocks(Pad(m))
  }

  function HexHash(v: Hash): string {
    HexWord(v.a) + HexWord(v.b) + HexWord(v.c) + HexWord(v.d) + HexWord(v.e) + HexWord(v.f) + HexWord(v.g) + HexWord(v.h)
  }
}
