/**
 32-bit words bit by bit: halves, joins, and the number a word stands for. The operations are named functions so that a
 proof can hide their bodies and reason with their laws.
 */
module Words {
  import opened Hex

  predicate Odd(x: Word) { x & 1 == 1 }

  function Half(x: Word): Word { x >> 1 }

  function Shift8(x: Word): Word { x >> 8 }

  function Join(high: Word, low: bool): Word { if low then (high << 1) | 1 else high << 1 }

  predicate TopBit(x: Word) { x & 0x8000_0000 != 0 }

  function Halves(b: Word, n: nat): Word
    decreases n
  {
    if n == 0 then b else Halves(Half(b), n - 1)
  }

  function Pow2(k: nat): nat { if k == 0 then 1 else 2 * Pow2(k - 1) }

  /** The low `k` bits of a word as a number. */
  function Number(x: Word, k: nat): (n: nat)
    ensures n < Pow2(k)
    decreases k
  {
    if k == 0 then 0 else 2 * Number(Half(x), k - 1) + (if Odd(x) then 1 else 0)
  }

  /** A number below 2^k as a word. */
  function ToWord(n: nat, k: nat): Word {
    if k == 0 then 0 else Join(ToWord(n / 2, k - 1), n % 2 == 1)
  }

  lemma JoinRestores(x: Word)
    ensures Join(Half(x), Odd(x)) == x
  {
  }

  lemma JoinSplits(h: Word, b: bool)
    requires !TopBit(h)
    ensures Half(Join(h, b)) == h && Odd(Join(h, b)) == b
  {
  }

  // ---- Short words -------------------------------------------------------------------------------------

  lemma {:induction false} HalvesAdd(x: Word, n: nat, m: nat)
    ensures Halves(x, n + m) == Halves(Halves(x, n), m)
    decreases n
  {
    hide Half;
    if n > 0 {
      HalvesAdd(Half(x), n - 1, m);
    }
  }

  lemma HalvesTwice(b: Word, n: nat)
    ensures Halves(b, n + 2) == Halves(b >> 2, n)
  {
    assert Half(Half(b)) == b >> 2;
    hide Half;
    assert Halves(b, n + 2) == Halves(Half(b), n + 1);
  }

  lemma ShiftTwice(x: Word)
    ensures (x >> 2) >> 2 == x >> 4 && (x >> 4) >> 2 == x >> 6 && (x >> 6) >> 2 == Shift8(x)
  {
  }

  lemma EightHalvesShift(x: Word)
    ensures Halves(x, 8) == Shift8(x)
  {
    hide Shift8;
    ShiftTwice(x);
    HalvesTwice(x, 6);
    HalvesTwice(x >> 2, 4);
    HalvesTwice(x >> 4, 2);
    HalvesTwice(x >> 6, 0);
  }

  lemma {:induction false} HalvesOfZero(n: nat)
    ensures Halves(0, n) == 0
  {
    if n > 0 {
      HalvesOfZero(n - 1);
    }
  }

  lemma SevenHalvesOf(x: Word)
    requires Halves(x, 7) == 0
    ensures x < 0x80
  {
    assert Halves(x, 7) == Half(Halves(x, 6)) by { HalvesAdd(x, 6, 1); }
    HalvesTwice(x, 4);
    HalvesTwice(x >> 2, 2);
    HalvesTwice(x >> 4, 0);
  }

  lemma SmallTop(x: Word)
    requires Shift8(Shift8(Shift8(x))) < 0x80
    ensures !TopBit(x)
  {
  }

  /** A word of at most 31 bits has a clear top bit. */
  lemma ShortWord(x: Word, n: nat)
    requires n <= 31 && Halves(x, n) == 0
    ensures !TopBit(x)
  {
    hide Halves, Shift8, TopBit;
    HalvesAdd(x, n, 31 - n);
    HalvesOfZero(31 - n);
    HalvesAdd(x, 8, 23);
    EightHalvesShift(x);
    HalvesAdd(Shift8(x), 8, 15);
    EightHalvesShift(Shift8(x));
    HalvesAdd(Shift8(Shift8(x)), 8, 7);
    EightHalvesShift(Shift8(Shift8(x)));
    SevenHalvesOf(Shift8(Shift8(Shift8(x))));
    SmallTop(x);
  }

  // ---- Words and numbers -------------------------------------------------------------------------------

  lemma {:induction false} NumberRestores(x: Word, k: nat)
    requires Halves(x, k) == 0
    ensures ToWord(Number(x, k), k) == x
    decreases k
  {
    hide Half, Odd, Join;
    if k > 0 {
      var n := Number(x, k);
      assert n / 2 == Number(Half(x), k - 1) && (n % 2 == 1) == Odd(x);
      NumberRestores(Half(x), k - 1);
      JoinRestores(x);
    }
  }

  /** Up to 32 bits, a word made from a number is that number, and has no other bits. */
  lemma {:induction false} WordRestores(n: nat, k: nat)
    requires k <= 32 && n < Pow2(k)
    ensures Number(ToWord(n, k), k) == n && Halves(ToWord(n, k), k) == 0
    decreases k
  {
    hide Half, Odd, Join, TopBit;
    if k > 0 {
      WordRestores(n / 2, k - 1);
      ShortWord(ToWord(n / 2, k - 1), k - 1);
      JoinSplits(ToWord(n / 2, k - 1), n % 2 == 1);
    }
  }

  function Or(x: Word, y: Word): Word { x | y }

  function Double(x: Word): Word { x << 1 }

  /** A word shifted left, bit by bit. */
  function Doubles(x: Word, k: nat): Word { if k == 0 then x else Double(Doubles(x, k - 1)) }

  lemma JoinZero(a: Word, y: Word)
    ensures Join(Or(a, y), false) == Or(Double(a), Join(y, false))
  {
  }

  lemma JoinOne(a: Word, y: Word)
    ensures Join(Or(a, y), true) == Or(Double(a), Join(y, true))
  {
  }

  lemma JoinOr(a: Word, y: Word, b: bool)
    ensures Join(Or(a, y), b) == Or(Double(a), Join(y, b))
  {
    hide Join, Or, Double;
    if b {
      JoinOne(a, y);
    } else {
      JoinZero(a, y);
    }
  }

  lemma OrZero(x: Word)
    ensures Or(x, 0) == x
  {
  }

  lemma DoubleEight(x: Word)
    ensures Double(Double(Double(Double(Double(Double(Double(Double(x)))))))) == x << 8
  {
  }

  lemma EightDoubles(x: Word)
    ensures Doubles(x, 8) == x << 8
  {
    DoubleEight(x);
    hide Double;
    assert Doubles(x, 1) == Double(x);
    assert Doubles(x, 2) == Double(Doubles(x, 1));
    assert Doubles(x, 3) == Double(Doubles(x, 2));
    assert Doubles(x, 4) == Double(Doubles(x, 3));
    assert Doubles(x, 5) == Double(Doubles(x, 4));
    assert Doubles(x, 6) == Double(Doubles(x, 5));
    assert Doubles(x, 7) == Double(Doubles(x, 6));
    assert Doubles(x, 8) == Double(Doubles(x, 7));
  }

  /** Numbers put one after the other are words put one after the other. */
  lemma {:induction false} WordOfDigits(a: nat, m: nat, b: nat, k: nat)
    requires b < Pow2(k)
    ensures ToWord(a * Pow2(k) + b, m + k) == Or(Doubles(ToWord(a, m), k), ToWord(b, k))
    decreases k
  {
    hide Join, Or, Double;
    if k == 0 {
      assert a * Pow2(0) + b == a;
      OrZero(ToWord(a, m));
    } else {
      var x := a * Pow2(k) + b;
      assert x / 2 == a * Pow2(k - 1) + b / 2 && x % 2 == b % 2 by { HalfOfSum(a, Pow2(k - 1), b); }
      WordOfDigits(a, m, b / 2, k - 1);
      JoinOr(Doubles(ToWord(a, m), k - 1), ToWord(b / 2, k - 1), b % 2 == 1);
    }
  }

  lemma HalfOfSum(a: nat, p: nat, b: nat)
    ensures (a * (2 * p) + b) / 2 == a * p + b / 2 && (a * (2 * p) + b) % 2 == b % 2
  {
    assert a * (2 * p) == 2 * (a * p);
  }
}
