/**
 The browser client's table-driven CRC-32 (WebApp/wwwroot/js/upload.js, crc32Hex) against the bit-serial CRC of
 section 8 of RFC 1952: reflected polynomial 0xEDB88320, register all ones at the start and complemented at the
 end, message bits taken least significant first.

 The word operations are named functions so that a proof can hide their bodies and reason with their laws.
 */
module Crc32 {
  import opened Hex
  import opened Words

  const POLY: Word := 0xEDB8_8320
  const ONES: Word := 0xFFFF_FFFF

  function Xor(x: Word, y: Word): Word { x ^ y }

  function LowByte(x: Word): Word { x & 0xFF }

  function HighBytes(x: Word): Word { x & 0xFFFF_FF00 }

  // ---- The bit-serial definition -----------------------------------------------------------------------

  /** Divides the register by x, modulo the polynomial. */
  function Turn(c: Word): Word { if Odd(c) then Xor(POLY, Half(c)) else Half(c) }

  /** Shifts one message bit into the register: the bit is added at the low end, then the register turns. */
  function ShiftBit(crc: Word, bit: bool): Word {
    if Odd(crc) != bit then Xor(POLY, Half(crc)) else Half(crc)
  }

  /** The register after the `n` low bits of a byte, least significant first. */
  function ShiftBits(crc: Word, b: Word, n: nat): Word
    decreases n
  {
    if n == 0 then crc else ShiftBits(ShiftBit(crc, Odd(b)), Half(b), n - 1)
  }

  /** The register after a whole message. */
  function Register(crc: Word, m: seq<Word>): Word {
    if m == [] then crc else ShiftBits(Register(crc, m[..|m| - 1]), m[|m| - 1], 8)
  }

  function Crc(m: seq<Word>): Word { Xor(Register(ONES, m), ONES) }

  predicate Bytes(m: seq<Word>) { forall i :: 0 <= i < |m| ==> m[i] < 256 }

  // ---- Laws of the word operations ---------------------------------------------------------------------

  lemma XorCommutes(x: Word, y: Word)
    ensures Xor(x, y) == Xor(y, x)
  {
  }

  lemma XorAssociates(x: Word, y: Word, z: Word)
    ensures Xor(Xor(x, y), z) == Xor(x, Xor(y, z))
  {
  }

  lemma XorUnits(x: Word)
    ensures Xor(x, x) == 0
    ensures Xor(x, 0) == x && Xor(0, x) == x
  {
  }

  lemma XorTwice(x: Word, y: Word)
    ensures Xor(Xor(x, y), y) == x
  {
    hide Xor;
    XorAssociates(x, y, y);
    XorUnits(y);
    XorUnits(x);
  }

  lemma XorParts(x: Word, y: Word)
    ensures Odd(Xor(x, y)) <==> Odd(x) != Odd(y)
    ensures Half(Xor(x, y)) == Xor(Half(x), Half(y))
  {
  }

  lemma XorShares(p: Word, x: Word, y: Word)
    ensures Xor(Xor(p, x), y) == Xor(p, Xor(x, y))
    ensures Xor(x, Xor(p, y)) == Xor(p, Xor(x, y))
    ensures Xor(Xor(p, x), Xor(p, y)) == Xor(x, y)
  {
    hide Xor;
    XorAssociates(p, x, y);
    XorCommutes(p, x);
    XorAssociates(x, p, y);
    XorAssociates(x, p, Xor(p, y));
    XorAssociates(p, p, y);
    XorUnits(p);
    XorUnits(y);
  }

  lemma SplitsAtLowByte(c: Word)
    ensures c == Xor(LowByte(c), HighBytes(c))
    ensures LowByte(HighBytes(c)) == 0
    ensures Shift8(HighBytes(c)) == Shift8(c)
  {
  }

  // ---- Eight turns are one table entry -----------------------------------------------------------------

  function Turns(c: Word, k: nat): Word
    decreases k
  {
    if k == 0 then c else Turns(Turn(c), k - 1)
  }

  lemma TurnIsLinear(x: Word, y: Word)
    ensures Turn(Xor(x, y)) == Xor(Turn(x), Turn(y))
  {
    hide Xor, Odd, Half;
    XorParts(x, y);
    XorShares(POLY, Half(x), Half(y));
  }

  lemma {:induction false} TurnsAreLinear(x: Word, y: Word, k: nat)
    ensures Turns(Xor(x, y), k) == Xor(Turns(x, k), Turns(y, k))
    decreases k
  {
    hide Turn, Xor;
    if k > 0 {
      TurnIsLinear(x, y);
      TurnsAreLinear(Turn(x), Turn(y), k - 1);
    }
  }

  lemma EightTurns(c: Word)
    ensures Turns(c, 8) == Turn(Turn(Turn(Turn(Turn(Turn(Turn(Turn(c))))))))
  {
    hide Turn;
    var c2 := Turn(Turn(c));
    var c4 := Turn(Turn(c2));
    var c6 := Turn(Turn(c4));
    assert Turns(c, 8) == Turns(c2, 6);
    assert Turns(c2, 6) == Turns(c4, 4);
    assert Turns(c4, 4) == Turns(c6, 2);
    assert Turns(c6, 2) == Turn(Turn(c6));
  }

  /** With its low byte clear, a word only shifts. */
  lemma ClearLowByteShifts(c: Word)
    requires LowByte(c) == 0
    ensures Turns(c, 8) == Shift8(c)
  {
    EightTurns(c);
  }

  /** Eight bit steps of a word are its low byte's table entry, xored with the word shifted by eight. */
  lemma EightTurnsByTable(c: Word)
    ensures Turns(c, 8) == Xor(Shift8(c), Turns(LowByte(c), 8))
  {
    hide Turns, Xor, LowByte, HighBytes, Shift8;
    SplitsAtLowByte(c);
    TurnsAreLinear(LowByte(c), HighBytes(c), 8);
    ClearLowByteShifts(HighBytes(c));
    XorCommutes(Turns(LowByte(c), 8), Shift8(c));
  }

  // ---- Bits one at a time, or a byte at once -----------------------------------------------------------

  lemma ShiftBitIsTurn(crc: Word, b: Word)
    ensures ShiftBit(crc, Odd(b)) == Xor(Turn(Xor(crc, b)), Half(b))
  {
    hide Xor, Odd, Half;
    XorParts(crc, b);
    XorTwice(Half(crc), Half(b));
    XorAssociates(POLY, Xor(Half(crc), Half(b)), Half(b));
  }

  /** Feeding bits one by one is adding the byte up front and turning, up to the bits not yet fed. */
  lemma {:induction false} BitsOrByte(crc: Word, b: Word, n: nat)
    ensures ShiftBits(crc, b, n) == Xor(Turns(Xor(crc, b), n), Halves(b, n))
    decreases n
  {
    hide Xor, Odd, Half, Turn, ShiftBit;
    if n == 0 {
      XorTwice(crc, b);
    } else {
      var t := Turn(Xor(crc, b));
      ShiftBitIsTurn(crc, b);
      BitsOrByte(ShiftBit(crc, Odd(b)), Half(b), n - 1);
      XorTwice(t, Half(b));
    }
  }

  lemma EightHalvesOfAByte(b: Word)
    requires b < 256
    ensures Halves(b, 8) == 0
  {
    HalvesTwice(b, 6);
    HalvesTwice(b >> 2, 4);
    HalvesTwice(b >> 4, 2);
    HalvesTwice(b >> 6, 0);
  }

  /** One message byte, bit by bit, is one table lookup. */
  lemma ByteByTable(crc: Word, b: Word)
    requires b < 256
    ensures ShiftBits(crc, b, 8) == Xor(Shift8(crc), Turns(LowByte(Xor(crc, b)), 8))
  {
    hide Xor, Turns, Halves, ShiftBits, LowByte, Shift8;
    BitsOrByte(crc, b, 8);
    EightHalvesOfAByte(b);
    XorUnits(Turns(Xor(crc, b), 8));
    EightTurnsByTable(Xor(crc, b));
    Shift8IgnoresAByte(crc, b);
  }

  lemma Shift8IgnoresAByte(crc: Word, b: Word)
    requires b < 256
    ensures Shift8(Xor(crc, b)) == Shift8(crc)
  {
  }

  // ---- The client's code -------------------------------------------------------------------------------

  lemma LowByteIndex(x: Word)
    ensures Number(LowByte(x), 8) < 256
    ensures ToWord(Number(LowByte(x), 8), 8) == LowByte(x)
  {
    assert Pow2(8) == 256;
    LowByteIsSmall(x);
    EightHalvesOfAByte(LowByte(x));
    hide LowByte;
    NumberRestores(LowByte(x), 8);
  }

  lemma LowByteIsSmall(x: Word)
    ensures LowByte(x) < 256
  {
  }

  /** The table is filled in place, one entry for each byte value. */
  method BuildTable() returns (t: array<Word>)
    ensures fresh(t) && t.Length == 256
    ensures forall i :: 0 <= i < 256 ==> t[i] == Turns(ToWord(i, 8), 8)
  {
    hide Odd, Half, Xor, ToWord;
    t := new Word[256];
    for i := 0 to 256
      invariant forall j :: 0 <= j < i ==> t[j] == Turns(ToWord(j, 8), 8)
    {
      var c := ToWord(i, 8);
      for k := 0 to 8
        invariant Turns(c, 8 - k) == Turns(ToWord(i, 8), 8)
      {
        c := if Odd(c) then Xor(POLY, Half(c)) else Half(c);
      }
      t[i] := c;
    }
  }

  /** The table-driven loop computes the bit-serial CRC of every byte string, and prints it as eight hex digits. */
  method Crc32Hex(u8: seq<Word>) returns (hex: string)
    requires Bytes(u8)
    ensures hex == HexWord(Crc(u8))
  {
    hide Xor, Shift8, LowByte, Turns, ToWord, Number, ShiftBits, HexWord;
    var table := BuildTable();
    var crc := ONES;
    for i := 0 to |u8|
      invariant crc == Register(ONES, u8[..i])
      invariant forall j :: 0 <= j < 256 ==> table[j] == Turns(ToWord(j, 8), 8)
    {
      LowByteIndex(Xor(crc, u8[i]));
      ByteByTable(crc, u8[i]);
      assert u8[..i + 1][..i] == u8[..i];
      crc := Xor(Shift8(crc), table[Number(LowByte(Xor(crc, u8[i])), 8)]);
    }
    assert u8[..|u8|] == u8;
    hex := HexWord(Xor(crc, ONES));
  }
}