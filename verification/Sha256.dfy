/**
 The browser client's streaming SHA-256 (WebApp/wwwroot/js/upload.js, createSha256): a 64-byte carry buffer, a
 64-word schedule that is refilled in place, and a bit counter kept in two 32-bit halves.

 JavaScript's 32-bit integer operators act on bit patterns, so hash words are bit-vectors.  The counter is plain
 number arithmetic followed by `>>> 0`, so its halves are integers below 2^32 and the wrap-around is written out.
 */
module Sha256 {
  import opened Base
  import opened Hex
  import opened Sha256Spec
  import opened Words

  const TWO32: nat := 0x1_0000_0000

  // ---- The client's rotations are shifts and ors -------------------------------------------------------

  function ClientBigSigma0(x: Word): Word {
    ((x >> 2) | (x << 30)) ^ ((x >> 13) | (x << 19)) ^ ((x >> 22) | (x << 10))
  }

  function ClientBigSigma1(x: Word): Word {
    ((x >> 6) | (x << 26)) ^ ((x >> 11) | (x << 21)) ^ ((x >> 25) | (x << 7))
  }

  function ClientSmallSigma0(x: Word): Word {
    ((x >> 7) | (x << 25)) ^ ((x >> 18) | (x << 14)) ^ (x >> 3)
  }

  function ClientSmallSigma1(x: Word): Word {
    ((x >> 17) | (x << 15)) ^ ((x >> 19) | (x << 13)) ^ (x >> 10)
  }

  lemma ShiftsAreRotations(x: Word)
    ensures ClientBigSigma0(x) == BigSigma0(x)
    ensures ClientBigSigma1(x) == BigSigma1(x)
    ensures ClientSmallSigma0(x) == SmallSigma0(x)
    ensures ClientSmallSigma1(x) == SmallSigma1(x)
  {
  }

  lemma Sum4Reorders(x: Word, s0: Word, y: Word, s1: Word)
    ensures Sum4(x, s0, y, s1) == Sum4(s1, y, s0, x)
  {
  }

  function ClientCh(e: Word, f: Word, g: Word): Word { (e & f) ^ (!e & g) }

  function ClientMaj(a: Word, b: Word, c: Word): Word { (a & b) ^ (a & c) ^ (b & c) }

  lemma SameChoices(x: Word, y: Word, z: Word)
    ensures ClientCh(x, y, z) == Ch(x, y, z)
    ensures ClientMaj(x, y, z) == Maj(x, y, z)
  {
  }

  /** The client's word: the bytes shifted into place and joined with ors. */
  function ClientWord(b0: Byte, b1: Byte, b2: Byte, b3: Byte): Word {
    (ToWord(b0, 8) << 24) | (ToWord(b1, 8) << 16) | (ToWord(b2, 8) << 8) | ToWord(b3, 8)
  }

  lemma ShiftsAndOrs(x0: Word, x1: Word, x2: Word, x3: Word)
    ensures (x0 << 24) | (x1 << 16) | (x2 << 8) | x3 == Or(Push8(Or(Push8(Or(Push8(x0), x1)), x2)), x3)
  {
  }

  function Push8(x: Word): Word { x << 8 }

  /** Appending a byte to a number is shifting it in. */
  lemma AppendByte(a: nat, m: nat, b: Byte)
    ensures ToWord(a * 256 + b, m + 8) == Or(Push8(ToWord(a, m)), ToWord(b, 8))
  {
    assert Pow2(8) == 256;
    hide Pow2, ToWord, Doubles, Or;
    WordOfDigits(a, m, b, 8);
    EightDoubles(ToWord(a, m));
  }

  /** The client's word is the word of the big-endian number, and read as a number it is that number. */
  lemma ClientWordIsBigEndian(b0: Byte, b1: Byte, b2: Byte, b3: Byte)
    ensures ClientWord(b0, b1, b2, b3) == PackWord(b0, b1, b2, b3)
    ensures Number(ClientWord(b0, b1, b2, b3), 32) == ((b0 * 256 + b1) * 256 + b2) * 256 + b3
  {
    hide ToWord, Or, Pow2, Push8, Number;
    AppendByte(b0, 8, b1);
    AppendByte(b0 * 256 + b1, 16, b2);
    AppendByte((b0 * 256 + b1) * 256 + b2, 24, b3);
    ShiftsAndOrs(ToWord(b0, 8), ToWord(b1, 8), ToWord(b2, 8), ToWord(b3, 8));
    Pow2Of32();
    WordRestores(PackNumber(b0, b1, b2, b3), 32);
  }

  lemma ClientBlockWord(b: seq<Byte>, t: nat)
    requires |b| == 64 && t < 16
    ensures ClientWord(b[t * 4], b[t * 4 + 1], b[t * 4 + 2], b[t * 4 + 3]) == Schedule(b, t)
  {
    hide ClientWord, PackWord, PackNumber, Number, Sum4;
    ClientWordIsBigEndian(b[t * 4], b[t * 4 + 1], b[t * 4 + 2], b[t * 4 + 3]);
  }

  lemma Pow2Of32()
    ensures Pow2(32) == 0x1_0000_0000
  {
    assert Pow2(8) == 256;
    assert Pow2(16) == 0x1_0000;
    assert Pow2(24) == 0x100_0000;
  }

  lemma ScheduleStep(block: seq<Byte>, t: nat)
    requires |block| == 64 && t < 64
    ensures t < 16 ==> Schedule(block, t) == BlockWord(block, t)
    ensures t >= 16 ==> Schedule(block, t) ==
                        Sum4(SmallSigma1(Schedule(block, t - 2)), Schedule(block, t - 7),
                             SmallSigma0(Schedule(block, t - 15)), Schedule(block, t - 16))
  {
    hide PackWord, SmallSigma0, SmallSigma1, Sum4;
  }

  lemma RoundsStep(v: Hash, block: seq<Byte>, t: nat)
    requires |block| == 64 && t < 64
    ensures Rounds(v, block, 0) == v
    ensures Rounds(v, block, t + 1) == Round(Rounds(v, block, t), K[t], Schedule(block, t))
  {
    hide Round, Schedule;
  }

  // ---- The split bit counter ---------------------------------------------------------------------------

  datatype Counter = Counter(lo: nat, hi: nat) {
    predicate Valid() { lo < TWO32 && hi < TWO32 }

    function Value(): nat { hi * TWO32 + lo }

    /** What `update` does to the two halves for a piece of `len` bytes. */
    function Step(len: nat): Counter {
      var bits := len * 8;
      var lo' := (lo + bits) % TWO32;
      var hi' := if lo' < bits then hi + 1 else hi;
      Counter(lo', (hi' + len / 0x2000_0000) % TWO32)
    }
  }

  /** What a caller can check before `update`: the counter will advance by exactly eight bits a byte. */
  predicate Counts(c: Counter, len: nat) {
    len < 0x2000_0000 || c.lo + (len * 8) % TWO32 >= TWO32
  }

  lemma DivModUnique(x: int, q: int, r: int)
    requires x == q * TWO32 + r && 0 <= r < TWO32
    ensures x / TWO32 == q && x % TWO32 == r
  {
  }

  lemma WrapHigh(hi: nat, lo: nat)
    requires lo < TWO32
    ensures (hi * TWO32 + lo) % TWO64 == (hi % TWO32) * TWO32 + lo
  {
    var q, h := hi / TWO32, hi % TWO32;
    ModUnique64(hi * TWO32 + lo, q, h * TWO32 + lo);
  }

  lemma ModUnique64(x: nat, q: nat, r: nat)
    requires x == q * TWO64 + r && r < TWO64
    ensures x % TWO64 == r
  {
  }

  /** The exact carry the two halves need: the one the code takes is this one just when Counts holds. */
  lemma CarryIsExact(c: Counter, len: nat)
    requires c.Valid()
    ensures c.Step(len).Valid()
    ensures c.Step(len).lo == (c.lo + len * 8) % TWO32
    ensures c.Step(len).hi == (c.hi + (c.lo + len * 8) / TWO32 + if Counts(c, len) then 0 else 1) % TWO32
  {
    var bits := len * 8;
    var low := bits % TWO32;
    assert bits == (len / 0x2000_0000) * TWO32 + low;
    if c.lo + low >= TWO32 {
      DivModUnique(c.lo + bits, len / 0x2000_0000 + 1, c.lo + low - TWO32);
    } else {
      DivModUnique(c.lo + bits, len / 0x2000_0000, c.lo + low);
    }
  }

  /**
   The counter advances by exactly 8 * len, modulo 2^64, if and only if Counts holds.  A piece of 2^29 bytes or
   more takes the carry branch whether or not the low half wrapped, so it is counted right only when it did wrap.
   */
  lemma CounterAdvancesExactlyWhen(c: Counter, len: nat)
    requires c.Valid()
    ensures c.Step(len).Value() == (c.Value() + 8 * len) % TWO64 <==> Counts(c, len)
  {
    CarryIsExact(c, len);
    var total := c.lo + len * 8;
    var exact := c.hi + total / TWO32;
    assert c.Value() + 8 * len == exact * TWO32 + total % TWO32;
    WrapHigh(exact, total % TWO32);
    if !Counts(c, len) {
      var q := exact / TWO32;
      assert exact == q * TWO32 + exact % TWO32;
      if exact % TWO32 == TWO32 - 1 {
        DivModUnique(exact + 1, q + 1, 0);
      } else {
        DivModUnique(exact + 1, q, exact % TWO32 + 1);
      }
    }
  }

  /** A single 2^29-byte piece on a fresh hasher is the smallest update that is counted wrongly. */
  lemma HalfGigabytePieceIsMiscounted()
    ensures Counter(0, 0).Step(0x2000_0000).Value() == 2 * TWO32
    ensures forall len: nat :: len < 0x2000_0000 ==> Counts(Counter(0, 0), len)
    ensures !Counts(Counter(0, 0), 0x2000_0000)
  {
  }

  // ---- The hasher --------------------------------------------------------------------------------------

  lemma HashBlocksSnoc(m: seq<Byte>, block: seq<Byte>)
    requires |block| == 64
    ensures HashBlocks(m + block) == CompressBlock(HashBlocks(m), block)
  {
    hide CompressBlock;
    assert (m + block)[..|m + block| - 64] == m;
    assert (m + block)[|m + block| - 64..] == block;
  }

  class Hasher {
    var hash: Hash
    const w: array<Word>
    const buf: array<Byte>
    var bufLen: nat
    var total: Counter
    /** The bytes compressed so far, a whole number of blocks. */
    ghost var done: seq<Byte>

    ghost predicate Shape()
      reads this
    {
      w.Length == 64 && buf.Length == 64 && (w as object) != buf && total.Valid()
    }

    /** The hash value is that of the compressed blocks; the carry buffer is never full between calls. */
    ghost predicate Valid()
      reads this
    {
      Shape() && bufLen < 64 && |done| % 64 == 0 && hash == HashBlocks(done)
    }

    /** Everything passed to Update so far. */
    ghost function Absorbed(): seq<Byte>
      requires Valid()
      reads this, buf
    {
      done + buf[..bufLen]
    }

    /** The bit counter is right for what was absorbed. */
    ghost predicate Counted()
      requires Valid()
      reads this, buf
    {
      total.Value() == (8 * |Absorbed()|) % TWO64
    }

    constructor ()
      ensures Valid() && Counted() && Absorbed() == [] && total == Counter(0, 0)
      ensures fresh(w) && fresh(buf)
    {
      hash := H0;
      w := new Word[64];
      buf := new Byte[64];
      bufLen := 0;
      total := Counter(0, 0);
      done := [];
    }

    /** Refills `w` in place from one block. */
    method FillSchedule(block: array<Byte>)
      requires Shape() && block.Length == 64 && (w as object) != block
      modifies w
      ensures forall t :: 0 <= t < 64 ==> w[t] == Schedule(block[..], t)
    {
      hide ClientWord, PackWord, Schedule, ClientSmallSigma0, ClientSmallSigma1, SmallSigma0, SmallSigma1, Sum4;
      ghost var b := block[..];
      for i := 0 to 16
        invariant forall t :: 0 <= t < i ==> w[t] == Schedule(b, t)
      {
        ClientBlockWord(b, i);
        w[i] := ClientWord(block[i * 4], block[i * 4 + 1], block[i * 4 + 2], block[i * 4 + 3]);
      }
      for i := 16 to 64
        invariant forall t :: 0 <= t < i ==> w[t] == Schedule(b, t)
      {
        ScheduleStep(b, i);
        ShiftsAreRotations(w[i - 15]);
        ShiftsAreRotations(w[i - 2]);
        var s0 := ClientSmallSigma0(w[i - 15]);
        var s1 := ClientSmallSigma1(w[i - 2]);
        Sum4Reorders(w[i - 16], s0, w[i - 7], s1);
        w[i] := Sum4(w[i - 16], s0, w[i - 7], s1);
      }
    }

    method Compress(block: array<Byte>)
      requires Shape() && block.Length == 64 && (w as object) != block
      modifies this`hash, w
      ensures hash == CompressBlock(old(hash), block[..])
    {
      hide Schedule, Rounds, ClientBigSigma0, ClientBigSigma1, BigSigma0, BigSigma1, ClientCh, ClientMaj, Ch, Maj, Sum2, Sum5;
      FillSchedule(block);
      ghost var bytes := block[..];
      var a, b, c, d, e, f, g, h := hash.a, hash.b, hash.c, hash.d, hash.e, hash.f, hash.g, hash.h;
      RoundsStep(hash, bytes, 0);
      for i := 0 to 64
        invariant hash == old(hash) && block[..] == bytes
        invariant forall t :: 0 <= t < 64 ==> w[t] == Schedule(bytes, t)
        invariant Hash(a, b, c, d, e, f, g, h) == Rounds(hash, bytes, i)
      {
        RoundsStep(hash, bytes, i);
        ShiftsAreRotations(e);
        ShiftsAreRotations(a);
        SameChoices(e, f, g);
        SameChoices(a, b, c);
        var t1 := Sum5(h, ClientBigSigma1(e), ClientCh(e, f, g), K[i], w[i]);
        var t2 := Sum2(ClientBigSigma0(a), ClientMaj(a, b, c));
        h := g;
        g := f;
        f := e;
        e := Sum2(d, t1);
        d := c;
        c := b;
        b := a;
        a := Sum2(t1, t2);
      }
      hash := Hash(Sum2(hash.a, a), Sum2(hash.b, b), Sum2(hash.c, c), Sum2(hash.d, d),
                   Sum2(hash.e, e), Sum2(hash.f, f), Sum2(hash.g, g), Sum2(hash.h, h));
      assert hash == AddHash(old(hash), Rounds(old(hash), bytes, 64));
      assert block[..] == bytes;
    }

    /** Copies a piece behind the carried bytes. */
    method Carry(piece: seq<Byte>)
      requires Shape() && 0 < |piece| <= 64 - bufLen
      modifies this`bufLen, buf
      ensures bufLen == old(bufLen) + |piece| && buf[..bufLen] == old(buf[..bufLen]) + piece
    {
      forall k | 0 <= k < |piece| {
        buf[bufLen + k] := piece[k];
      }
      bufLen := bufLen + |piece|;
    }

    /** Compresses the full carry buffer. */
    method Flush()
      requires Shape() && bufLen == 64 && |done| % 64 == 0 && hash == HashBlocks(done)
      modifies this`hash, this`bufLen, this`done, w
      ensures Valid() && bufLen == 0 && done == old(done) + old(buf[..])
    {
      hide CompressBlock;
      ghost var block := buf[..];
      HashBlocksSnoc(done, block);
      Compress(buf);
      done := done + block;
      bufLen := 0;
    }

    /** One turn of Update's loop: copy into the carry buffer and compress it when it is full. */
    method Fill(piece: seq<Byte>)
      requires Valid() && 0 < |piece| <= 64 - bufLen
      modifies this`hash, this`bufLen, this`done, w, buf
      ensures Valid() && Absorbed() == old(Absorbed()) + piece
    {
      hide HashBlocks;
      ghost var carried := buf[..bufLen];
      Carry(piece);
      if bufLen == 64 {
        assert buf[..] == carried + piece;
        Flush();
      }
    }

    /** Update's loop. */
    method Absorb(u8: seq<Byte>)
      requires Valid()
      modifies this`hash, this`bufLen, this`done, w, buf
      ensures Valid() && Absorbed() == old(Absorbed()) + u8
    {
      hide HashBlocks, CompressBlock;
      ghost var before := Absorbed();
      var off := 0;
      while off < |u8|
        invariant 0 <= off <= |u8|
        invariant Valid() && Absorbed() == before + u8[..off]
      {
        var take := if 64 - bufLen < |u8| - off then 64 - bufLen else |u8| - off;
        Fill(u8[off..off + take]);
        assert before + u8[..off] + u8[off..off + take] == before + u8[..off + take];
        off := off + take;
      }
      assert u8[..|u8|] == u8;
    }

    /** Absorbs one piece: however the message is cut into pieces, only its bytes matter. */
    method Update(u8: seq<Byte>)
      requires Valid()
      modifies this`hash, this`bufLen, this`total, this`done, w, buf
      ensures Valid() && Absorbed() == old(Absorbed()) + u8
      ensures total == old(total).Step(|u8|)
      ensures old(Counted()) && Counts(old(total), |u8|) ==> Counted()
    {
      hide HashBlocks, CompressBlock;
      ghost var before := Absorbed();
      CarryIsExact(total, |u8|);
      CounterAdvancesExactlyWhen(total, |u8|);
      CountedStep(total, |before|, |u8|);
      total := total.Step(|u8|);
      Absorb(u8);
    }

    /** Pads, compresses the last one or two blocks and prints the hash value. */
    method HexDigest() returns (hex: string)
      requires Valid()
      modifies this`hash, w
      ensures old(Counted()) && 8 * |old(Absorbed())| < TWO64 ==> hex == HexHash(Digest(old(Absorbed())))
    {
      hide HashBlocks, HexWord, LengthBytes;
      ghost var carried := buf[..bufLen];
      CompressTail();
      if old(Counted()) && 8 * |done + carried| < TWO64 {
        DigestOfTail(done, carried, total);
      }
      hex := HexWord(hash.a) + HexWord(hash.b) + HexWord(hash.c) + HexWord(hash.d)
             + HexWord(hash.e) + HexWord(hash.f) + HexWord(hash.g) + HexWord(hash.h);
    }

    /** The carried bytes, 0x80, zeros and the length: one block, or two when 56 or more bytes are carried. */
    method CompressTail()
      requires Valid()
      modifies this`hash, w
      ensures hash == HashBlocks(done + Tail(buf[..bufLen], LengthBytes(total)))
    {
      hide CompressBlock, LengthBytes, HashBlocks;
      ghost var carried := buf[..bufLen];
      var block, bl, padded := BeginPadding();
      ghost var front := block[..bl];
      ZeroFill(block, bl, 56);
      WriteLength(block);
      ghost var last := block[..];
      assert last == front + Zeros(56 - |front|) + LengthBytes(total);
      HashBlocksSnoc(padded, last);
      Compress(block);
      TailBlocks(done, carried, LengthBytes(total), padded, last);
      assert buf[..bufLen] == carried;
    }

    /** Writes the 0x80 byte, and compresses a first block when the length no longer fits behind it. */
    method BeginPadding() returns (block: array<Byte>, bl: nat, ghost padded: seq<Byte>)
      requires Valid()
      modifies this`hash, w
      ensures fresh(block) && block.Length == 64 && bl <= 56
      ensures hash == HashBlocks(padded)
      ensures bufLen < 56 ==> padded == done && bl == bufLen + 1 && block[..bl] == buf[..bufLen] + [0x80]
      ensures bufLen >= 56 ==> padded == done + (buf[..bufLen] + [0x80] + Zeros(63 - bufLen)) && bl == 0
    {
      hide CompressBlock, HashBlocks;
      ghost var carried := buf[..bufLen];
      block := new Byte[64](_ => 0);
      forall k | 0 <= k < bufLen {
        block[k] := buf[k];
      }
      block[bufLen] := 0x80;
      bl := bufLen + 1;
      padded := done;
      assert block[..bl] == carried + [0x80];
      if bl > 56 {
        ZeroFill(block, bl, 64);
        ghost var first := block[..];
        assert block[..64] == first == carried + [0x80] + Zeros(63 - bufLen);
        HashBlocksSnoc(done, first);
        Compress(block);
        padded := done + first;
        forall k | 0 <= k < 64 {
          block[k] := 0;
        }
        bl := 0;
      }
      assert buf[..bufLen] == carried;
    }

    method ZeroFill(block: array<Byte>, from: nat, to: nat)
      requires from <= to <= block.Length
      modifies block
      ensures block[..to] == old(block[..from]) + Zeros(to - from)
    {
      var bl := from;
      while bl < to
        invariant from <= bl <= to
        invariant block[..bl] == old(block[..from]) + Zeros(bl - from)
      {
        block[bl] := 0;
        bl := bl + 1;
      }
    }

    method WriteLength(block: array<Byte>)
      requires Shape() && block.Length == 64
      modifies block
      ensures block[..] == old(block[..56]) + LengthBytes(total)
    {
      block[56] := ByteAt(total.hi, 0x100_0000);
      block[57] := ByteAt(total.hi, 0x1_0000);
      block[58] := ByteAt(total.hi, 0x100);
      block[59] := ByteAt(total.hi, 1);
      block[60] := ByteAt(total.lo, 0x100_0000);
      block[61] := ByteAt(total.lo, 0x1_0000);
      block[62] := ByteAt(total.lo, 0x100);
      block[63] := ByteAt(total.lo, 1);
    }
  }

  lemma CountedStep(c: Counter, n: nat, len: nat)
    ensures c.Value() == (8 * n) % TWO64 ==> (c.Value() + 8 * len) % TWO64 == (8 * (n + len)) % TWO64
  {
    var q := (8 * n) / TWO64;
    assert 8 * n == q * TWO64 + (8 * n) % TWO64;
    if c.Value() == (8 * n) % TWO64 {
      ShiftByMultiple(c.Value() + 8 * len, q);
      assert 8 * (n + len) == q * TWO64 + (c.Value() + 8 * len);
    }
  }

  lemma ShiftByMultiple(x: nat, q: nat)
    ensures (q * TWO64 + x) % TWO64 == x % TWO64
  {
  }

  /** The last eight bytes the client writes: the high half, then the low half. */
  function LengthBytes(c: Counter): (b: seq<Byte>)
    ensures |b| == 8
  {
    [ByteAt(c.hi, 0x100_0000), ByteAt(c.hi, 0x1_0000), ByteAt(c.hi, 0x100), ByteAt(c.hi, 1),
     ByteAt(c.lo, 0x100_0000), ByteAt(c.lo, 0x1_0000), ByteAt(c.lo, 0x100), ByteAt(c.lo, 1)]
  }

  lemma MulAtLeast(e: int, d: nat)
    requires e >= 1
    ensures e * d >= d
  {
  }

  lemma QuotientOf(x: nat, d: nat, q: nat, r: nat)
    requires d > 0 && x == q * d + r && r < d
    ensures x / d == q
  {
    var e := x / d - q;
    assert e * d == r - x % d;
    if e >= 1 {
      MulAtLeast(e, d);
    } else if e <= -1 {
      MulAtLeast(-e, d);
    }
  }

  lemma HighByte(hi: nat, lo: nat, k: nat)
    requires lo < TWO32 && k > 0
    ensures ByteAt(hi * TWO32 + lo, k * TWO32) == ByteAt(hi, k)
  {
    var q, r := hi / k, hi % k;
    assert hi == q * k + r;
    assert hi * TWO32 + lo == q * (k * TWO32) + (r * TWO32 + lo);
    assert r * TWO32 + lo < k * TWO32 by {
      assert r * TWO32 <= (k - 1) * TWO32;
    }
    QuotientOf(hi * TWO32 + lo, k * TWO32, q, r * TWO32 + lo);
  }

  lemma LowByte(hi: nat, lo: nat, k: nat, m: nat)
    requires k > 0 && 256 * (m * k) == TWO32
    ensures ByteAt(hi * TWO32 + lo, k) == ByteAt(lo, k)
  {
    var q, r := lo / k, lo % k;
    Regroup(hi, m, k);
    SharedByte(hi * (256 * (m * k)) + lo, lo, hi * m, k, q, r);
  }

  /** Adding a multiple of 256 * k does not change the byte at k. */
  lemma SharedByte(x: nat, lo: nat, a: nat, k: nat, q: nat, r: nat)
    requires k > 0 && lo == q * k + r && r < k && x == (256 * a) * k + lo
    ensures ByteAt(x, k) == ByteAt(lo, k)
  {
    Distributes(256 * a, q, k);
    QuotientOf(x, k, 256 * a + q, r);
    QuotientOf(lo, k, q, r);
    assert (256 * a + q) % 256 == q % 256;
  }

  lemma Regroup(hi: nat, m: nat, k: nat)
    ensures hi * (256 * (m * k)) == (256 * (hi * m)) * k
  {
    Associates(hi, 256, m * k);
    Associates(256, hi, m * k);
    Associates(hi, m, k);
    Associates(256, hi * m, k);
  }

  lemma Associates(x: int, y: int, z: int)
    ensures x * (y * z) == (x * y) * z
  {
  }

  lemma Distributes(x: int, y: int, z: int)
    ensures x * z + y * z == (x + y) * z
  {
  }

  lemma LengthBytesAreBigEndian(c: Counter)
    requires c.Valid()
    ensures c.Value() < TWO64
    ensures LengthBytes(c) == BigEndian64(c.Value())
  {
    HighByte(c.hi, c.lo, 0x100_0000);
    HighByte(c.hi, c.lo, 0x1_0000);
    HighByte(c.hi, c.lo, 0x100);
    HighByte(c.hi, c.lo, 1);
    LowByte(c.hi, c.lo, 0x100_0000, 1);
    LowByte(c.hi, c.lo, 0x1_0000, 0x100);
    LowByte(c.hi, c.lo, 0x100, 0x1_0000);
    LowByte(c.hi, c.lo, 1, 0x100_0000);
  }

  /** What follows the compressed blocks: the carried bytes, the padding and the length. */
  function Tail(carried: seq<Byte>, length: seq<Byte>): seq<Byte>
    requires |carried| < 64
  {
    carried + [0x80] + Zeros(if |carried| < 56 then 55 - |carried| else 119 - |carried|) + length
  }

  /** From 56 carried bytes on, the tail is two blocks. */
  lemma TailBlocks(done: seq<Byte>, carried: seq<Byte>, length: seq<Byte>, padded: seq<Byte>, last: seq<Byte>)
    requires |carried| < 64 && |length| == 8
    requires |carried| < 56 ==> padded == done && last == carried + [0x80] + Zeros(55 - |carried|) + length
    requires |carried| >= 56 ==> padded == done + (carried + [0x80] + Zeros(63 - |carried|)) && last == [] + Zeros(56) + length
    ensures padded + last == done + Tail(carried, length)
  {
    if |carried| >= 56 {
      assert Zeros(119 - |carried|) == Zeros(63 - |carried|) + Zeros(56);
    }
  }

  lemma PadIsTail(done: seq<Byte>, carried: seq<Byte>)
    requires |done| % 64 == 0 && |carried| < 64 && 8 * |done + carried| < TWO64
    ensures Pad(done + carried) == done + Tail(carried, BigEndian64(8 * |done + carried|))
  {
    hide ByteAt;
    var n := |done + carried|;
    assert n % 64 == |carried|;
    assert ZeroCount(n) == if |carried| < 56 then 55 - |carried| else 119 - |carried|;
  }

  lemma DigestOfTail(done: seq<Byte>, carried: seq<Byte>, total: Counter)
    requires |done| % 64 == 0 && |carried| < 64 && total.Valid()
    requires 8 * |done + carried| < TWO64 && total.Value() == (8 * |done + carried|) % TWO64
    ensures HashBlocks(done + Tail(carried, LengthBytes(total))) == Digest(done + carried)
  {
    hide HashBlocks, LengthBytes, BigEndian64, Tail, Pad, ByteAt;
    assert total.Value() == 8 * |done + carried|;
    LengthBytesAreBigEndian(total);
    PadIsTail(done, carried);
  }

  // ---- Whole messages ----------------------------------------------------------------------------------

  lemma SmallPieceCounts(c: Counter, len: nat)
    requires len < 0x2000_0000
    ensures Counts(c, len)
  {
  }

  function Concat(pieces: seq<seq<Byte>>): seq<Byte> {
    if pieces == [] then [] else Concat(pieces[..|pieces| - 1]) + pieces[|pieces| - 1]
  }

  /** For every message and every way of cutting it into pieces below 2^29 bytes, the digest is that of the message. */
  method HashPieces(pieces: seq<seq<Byte>>) returns (hex: string)
    requires forall i :: 0 <= i < |pieces| ==> |pieces[i]| < 0x2000_0000
    requires 8 * |Concat(pieces)| < TWO64
    ensures hex == HexHash(Digest(Concat(pieces)))
  {
    hide Digest, HashBlocks, HexHash, Counts;
    var hasher := new Hasher();
    for i := 0 to |pieces|
      invariant fresh(hasher) && fresh(hasher.w) && fresh(hasher.buf)
      invariant hasher.Valid() && hasher.Counted() && hasher.Absorbed() == Concat(pieces[..i])
    {
      assert pieces[..i + 1][..i] == pieces[..i];
      SmallPieceCounts(hasher.total, |pieces[i]|);
      hasher.Update(pieces[i]);
    }
    assert pieces[..|pieces|] == pieces;
    hex := hasher.HexDigest();
  }

  const HASH_SLICE: nat := 32 * 1024 * 1024

  /** The worker's loop over a file, HASH_SLICE bytes at a time.  A browser file is shorter than 2^53 bytes. */
  method HashFile(file: seq<Byte>) returns (hex: string)
    requires |file| < 0x20_0000_0000_0000
    ensures hex == HexHash(Digest(file))
  {
    hide Digest, HashBlocks, HexHash, Counts;
    var hasher := new Hasher();
    var offset := 0;
    while offset < |file|
      invariant 0 <= offset <= |file|
      invariant fresh(hasher) && fresh(hasher.w) && fresh(hasher.buf)
      invariant hasher.Valid() && hasher.Counted() && hasher.Absorbed() == file[..offset]
    {
      var end := if offset + HASH_SLICE < |file| then offset + HASH_SLICE else |file|;
      SmallPieceCounts(hasher.total, |file[offset..end]|);
      hasher.Update(file[offset..end]);
      assert file[..offset] + file[offset..end] == file[..end];
      offset := end;
    }
    assert file[..|file|] == file;
    hex := hasher.HexDigest();
  }
}
