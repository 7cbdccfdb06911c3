/**
 What the CRC the client sends with a chunk is worth: two messages of the same length whose bits differ only inside
 some 32 consecutive ones never share a CRC.
 */
module CrcBursts {
  import opened Hex
  import opened Words
  import opened Crc32

  // ---- Messages as bits --------------------------------------------------------------------------------

  /** The `n` low bits of a word, least significant first. */
  function BitsOf(b: Word, n: nat): seq<bool>
    decreases n
  {
    if n == 0 then [] else [Odd(b)] + BitsOf(Half(b), n - 1)
  }

  /** The bits of a message in the order the register takes them. */
  function MessageBits(m: seq<Word>): seq<bool> {
    if m == [] then [] else MessageBits(m[..|m| - 1]) + BitsOf(m[|m| - 1], 8)
  }

  /** The register after some bits. */
  function Feed(c: Word, bits: seq<bool>): Word
    decreases bits
  {
    if bits == [] then c else Feed(ShiftBit(c, bits[0]), bits[1..])
  }

  lemma {:induction false} FeedConcat(c: Word, a: seq<bool>, b: seq<bool>)
    ensures Feed(c, a + b) == Feed(Feed(c, a), b)
    decreases a
  {
    hide ShiftBit;
    if a == [] {
      assert a + b == b;
    } else {
      assert (a + b)[1..] == a[1..] + b;
      FeedConcat(ShiftBit(c, a[0]), a[1..], b);
    }
  }

  lemma {:induction false} ShiftBitsIsFeed(c: Word, b: Word, n: nat)
    ensures ShiftBits(c, b, n) == Feed(c, BitsOf(b, n))
    decreases n
  {
    hide ShiftBit, Odd, Half;
    if n > 0 {
      assert BitsOf(b, n)[1..] == BitsOf(Half(b), n - 1);
      ShiftBitsIsFeed(ShiftBit(c, Odd(b)), Half(b), n - 1);
    }
  }

  lemma {:induction false} RegisterIsFeed(c: Word, m: seq<Word>)
    ensures Register(c, m) == Feed(c, MessageBits(m))
  {
    hide ShiftBits, Feed, BitsOf;
    if m == [] {
      assert Feed(c, []) == c by { FeedNothing(c); }
    } else {
      var k := |m| - 1;
      RegisterIsFeed(c, m[..k]);
      ShiftBitsIsFeed(Register(c, m[..k]), m[k], 8);
      FeedConcat(c, MessageBits(m[..k]), BitsOf(m[k], 8));
    }
  }

  lemma FeedNothing(c: Word)
    ensures Feed(c, []) == c
  {
  }

  // ---- The register never forgets ----------------------------------------------------------------------

  function Unshift(crc: Word, bit: bool): Word {
    if TopBit(crc) then Join(Xor(crc, POLY), !bit) else Join(crc, bit)
  }

  lemma TopBitTellsTheBranch(c: Word)
    ensures TopBit(Xor(POLY, Half(c)))
    ensures !TopBit(Half(c))
    ensures Xor(Xor(POLY, Half(c)), POLY) == Half(c)
  {
  }

  lemma ShiftBitInverts(crc: Word, bit: bool)
    ensures Unshift(ShiftBit(crc, bit), bit) == crc
  {
    hide Xor, Half, Odd, TopBit, Join;
    TopBitTellsTheBranch(crc);
    JoinRestores(crc);
  }

  /** Equal bits keep different registers different. */
  lemma {:induction false} FeedIsInjective(c: Word, d: Word, bits: seq<bool>)
    ensures Feed(c, bits) == Feed(d, bits) <==> c == d
    decreases bits
  {
    hide ShiftBit, Unshift;
    if bits != [] {
      FeedIsInjective(ShiftBit(c, bits[0]), ShiftBit(d, bits[0]), bits[1..]);
      ShiftBitInverts(c, bits[0]);
      ShiftBitInverts(d, bits[0]);
    }
  }

  /** Equal messages keep different registers different. */
  lemma RegisterIsInjective(c: Word, d: Word, m: seq<Word>)
    ensures Register(c, m) == Register(d, m) <==> c == d
  {
    hide Register, Feed, MessageBits;
    RegisterIsFeed(c, m);
    RegisterIsFeed(d, m);
    FeedIsInjective(c, d, MessageBits(m));
  }

  lemma TurnsIsInjective(x: Word, y: Word, n: nat)
    requires Turns(x, n) == Turns(y, n)
    ensures x == y
  {
    hide Turns, ShiftBits, Xor, Halves, Feed;
    BitsOrByte(x, 0, n);
    BitsOrByte(y, 0, n);
    XorUnits(x);
    XorUnits(y);
    ShiftBitsIsFeed(x, 0, n);
    ShiftBitsIsFeed(y, 0, n);
    FeedIsInjective(x, y, BitsOf(0, n));
  }

  // ---- A window of up to 32 bits is one word -----------------------------------------------------------

  function Pack(bits: seq<bool>): Word {
    if bits == [] then 0 else Join(Pack(bits[1..]), bits[0])
  }

  /** Feeding a window is feeding the bits of its word, and no other bit of the word is set. */
  lemma {:induction false} WindowIsAWord(c: Word, x: seq<bool>)
    requires |x| <= 32
    ensures Feed(c, x) == ShiftBits(c, Pack(x), |x|) && Halves(Pack(x), |x|) == 0
    ensures x != [] ==> Odd(Pack(x)) == x[0] && Half(Pack(x)) == Pack(x[1..])
    decreases x
  {
    hide ShiftBit, Odd, Half, Join, TopBit;
    if x != [] {
      var rest := x[1..];
      WindowIsAWord(ShiftBit(c, x[0]), rest);
      ShortWord(Pack(rest), |rest|);
      JoinSplits(Pack(rest), x[0]);
    }
  }

  lemma {:induction false} PackIsInjective(x: seq<bool>, y: seq<bool>)
    requires |x| == |y| <= 32 && Pack(x) == Pack(y)
    ensures x == y
  {
    hide Pack, Odd, Half;
    if x != [] {
      WindowIsAWord(0, x);
      WindowIsAWord(0, y);
      PackIsInjective(x[1..], y[1..]);
      assert x == [x[0]] + x[1..] && y == [y[0]] + y[1..];
    }
  }

  /** From any register, up to 32 bits can be told apart by where they take it. */
  lemma WindowIsDetected(c: Word, x: seq<bool>, y: seq<bool>)
    requires |x| == |y| <= 32
    ensures Feed(c, x) == Feed(c, y) <==> x == y
  {
    hide Feed, Pack, Xor, Turns, Halves, ShiftBits;
    if Feed(c, x) == Feed(c, y) {
      WindowIsAWord(c, x);
      WindowIsAWord(c, y);
      BitsOrByte(c, Pack(x), |x|);
      BitsOrByte(c, Pack(y), |x|);
      XorUnits(Turns(Xor(c, Pack(x)), |x|));
      XorUnits(Turns(Xor(c, Pack(y)), |x|));
      TurnsIsInjective(Xor(c, Pack(x)), Xor(c, Pack(y)), |x|);
      XorCommutes(c, Pack(x));
      XorCommutes(c, Pack(y));
      XorTwice(Pack(x), c);
      XorTwice(Pack(y), c);
      PackIsInjective(x, y);
    }
  }

  // ---- Bits determine the message ----------------------------------------------------------------------

  lemma {:induction false} BitsDetermine(x: Word, y: Word, n: nat)
    requires Halves(x, n) == Halves(y, n) && BitsOf(x, n) == BitsOf(y, n)
    ensures x == y
    decreases n
  {
    hide Odd, Half, Join;
    if n > 0 {
      assert BitsOf(x, n)[1..] == BitsOf(Half(x), n - 1) && BitsOf(x, n)[0] == Odd(x);
      assert BitsOf(y, n)[1..] == BitsOf(Half(y), n - 1) && BitsOf(y, n)[0] == Odd(y);
      BitsDetermine(Half(x), Half(y), n - 1);
      JoinRestores(x);
      JoinRestores(y);
    }
  }

  lemma {:induction false} BitsOfLength(b: Word, n: nat)
    ensures |BitsOf(b, n)| == n
    decreases n
  {
    hide Odd, Half;
    if n > 0 {
      BitsOfLength(Half(b), n - 1);
    }
  }

  lemma {:induction false} MessageBitsLength(m: seq<Word>)
    ensures |MessageBits(m)| == 8 * |m|
  {
    hide BitsOf;
    if m != [] {
      MessageBitsLength(m[..|m| - 1]);
      BitsOfLength(m[|m| - 1], 8);
    }
  }

  lemma {:induction false} MessageBitsDetermine(m: seq<Word>, m': seq<Word>)
    requires Bytes(m) && Bytes(m') && MessageBits(m) == MessageBits(m')
    ensures m == m'
  {
    hide BitsOf, Halves;
    MessageBitsLength(m);
    MessageBitsLength(m');
    if m != [] {
      var k := |m| - 1;
      MessageBitsLength(m[..k]);
      MessageBitsLength(m'[..k]);
      assert MessageBits(m)[..8 * k] == MessageBits(m[..k]) && MessageBits(m)[8 * k..] == BitsOf(m[k], 8);
      assert MessageBits(m')[..8 * k] == MessageBits(m'[..k]) && MessageBits(m')[8 * k..] == BitsOf(m'[k], 8);
      MessageBitsDetermine(m[..k], m'[..k]);
      EightHalvesOfAByte(m[k]);
      EightHalvesOfAByte(m'[k]);
      BitsDetermine(m[k], m'[k], 8);
      assert m == m[..k] + [m[k]] && m' == m'[..k] + [m'[k]];
    }
  }

  /** Every corruption confined to 32 consecutive bits, wherever they start, changes the CRC. */
  lemma BurstIsDetected(m: seq<Word>, m': seq<Word>, before: seq<bool>, x: seq<bool>, y: seq<bool>, after: seq<bool>)
    requires Bytes(m) && Bytes(m') && |x| == |y| <= 32
    requires MessageBits(m) == before + x + after && MessageBits(m') == before + y + after
    ensures Crc(m) == Crc(m') <==> m == m'
  {
    hide Xor, Register, MessageBits, Feed;
    if Crc(m) == Crc(m') {
      XorTwice(Register(ONES, m), ONES);
      XorTwice(Register(ONES, m'), ONES);
      RegisterIsFeed(ONES, m);
      RegisterIsFeed(ONES, m');
      FeedConcat(ONES, before + x, after);
      FeedConcat(ONES, before + y, after);
      FeedIsInjective(Feed(ONES, before + x), Feed(ONES, before + y), after);
      FeedConcat(ONES, before, x);
      FeedConcat(ONES, before, y);
      WindowIsDetected(Feed(ONES, before), x, y);
      MessageBitsDetermine(m, m');
    }
  }
}
