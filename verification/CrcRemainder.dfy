/**
 What the CRC is, for every message: the remainder of the message polynomial by the generator of section 8 of RFC 1952,
 written out by its exponents. And its check value, the CRC of the nine digits.
 */
module CrcRemainder {
  import opened Hex
  import opened Words
  import opened Crc32
  import opened CrcBursts

  // ---- Polynomials over the field of two elements, as sets of exponents --------------------------------

  type Poly = set<nat>

  function Add(p: Poly, q: Poly): Poly { (p - q) + (q - p) }

  /** Times x. */
  function Raise(p: Poly): Poly { set e | e in p :: e + 1 }

  function RaiseBy(p: Poly, n: nat): Poly { if n == 0 then p else Raise(RaiseBy(p, n - 1)) }

  /** x^32 + x^26 + x^23 + x^22 + x^16 + x^12 + x^11 + x^10 + x^8 + x^7 + x^5 + x^4 + x^2 + x + 1. */
  const GENERATOR: Poly := {32, 26, 23, 22, 16, 12, 11, 10, 8, 7, 5, 4, 2, 1, 0}

  function If(b: bool, p: Poly): Poly { if b then p else {} }

  /** The polynomial whose coefficients are these bits, the highest first. */
  function PolyOf(bits: seq<bool>): Poly {
    if bits == [] then {} else Add(Raise(PolyOf(bits[..|bits| - 1])), If(bits[|bits| - 1], {0}))
  }

  /** The product of that polynomial and the generator, by Horner's rule. */
  function MultipleOf(bits: seq<bool>): Poly {
    if bits == [] then {} else Add(Raise(MultipleOf(bits[..|bits| - 1])), If(bits[|bits| - 1], GENERATOR))
  }

  ghost predicate Below32(p: Poly) { forall e :: e in p ==> e < 32 }

  /** `r` is what dividing `p` by the generator leaves, with a quotient of `n` coefficients. */
  ghost predicate IsRemainder(p: Poly, r: Poly, n: nat) {
    Below32(r) && exists q: seq<bool> :: |q| == n && p == Add(MultipleOf(q), r)
  }

  lemma RaiseAdds(p: Poly, q: Poly)
    ensures Raise(Add(p, q)) == Add(Raise(p), Raise(q))
  {
    forall e
      ensures e in Raise(Add(p, q)) <==> e in Add(Raise(p), Raise(q))
    {
      Raised(p, e);
      Raised(q, e);
      Raised(Add(p, q), e);
    }
  }

  lemma Raised(p: Poly, e: nat)
    ensures e in Raise(p) <==> e > 0 && e - 1 in p
  {
    if e > 0 && e - 1 in p {
      assert (e - 1) + 1 in Raise(p);
    }
  }

  lemma {:induction false} RaiseByAdds(p: Poly, q: Poly, n: nat)
    ensures RaiseBy(Add(p, q), n) == Add(RaiseBy(p, n), RaiseBy(q, n))
    decreases n
  {
    hide Add, Raise;
    if n > 0 {
      RaiseByAdds(p, q, n - 1);
      RaiseAdds(RaiseBy(p, n - 1), RaiseBy(q, n - 1));
    }
  }

  lemma {:induction false} RaiseByRaises(p: Poly, n: nat)
    ensures RaiseBy(Raise(p), n) == Raise(RaiseBy(p, n))
    decreases n
  {
    hide Raise;
    if n > 0 {
      RaiseByRaises(p, n - 1);
    }
  }

  // ---- The register as a polynomial --------------------------------------------------------------------

  predicate BitAt(c: Word, k: nat) { Odd(Halves(c, k)) }

  /** Bit k of the register is the coefficient of x^(31 - k). */
  predicate HasTerm(c: Word, e: nat) { e < 32 && BitAt(c, 31 - e) }

  function Residue(c: Word): Poly { set e: nat | e < 32 && HasTerm(c, e) }

  lemma {:induction false} BitOfXor(x: Word, y: Word, k: nat)
    ensures BitAt(Xor(x, y), k) <==> BitAt(x, k) != BitAt(y, k)
    decreases k
  {
    hide Xor, Half, Odd;
    XorParts(x, y);
    if k > 0 {
      BitOfXor(Half(x), Half(y), k - 1);
    }
  }

  lemma ResidueOfXor(x: Word, y: Word)
    ensures Residue(Xor(x, y)) == Add(Residue(x), Residue(y))
  {
    hide BitAt, Xor;
    forall e: nat | e < 32
      ensures HasTerm(Xor(x, y), e) <==> HasTerm(x, e) != HasTerm(y, e)
    {
      BitOfXor(x, y, 31 - e);
    }
  }

  lemma AllShiftedOut(c: Word)
    ensures Halves(c, 32) == 0
  {
    hide Halves, Shift8;
    HalvesAdd(c, 8, 24);
    EightHalvesShift(c);
    HalvesAdd(Shift8(c), 8, 16);
    EightHalvesShift(Shift8(c));
    HalvesAdd(Shift8(Shift8(c)), 8, 8);
    EightHalvesShift(Shift8(Shift8(c)));
    EightHalvesShift(Shift8(Shift8(Shift8(c))));
    FourShifts(c);
  }

  lemma FourShifts(c: Word)
    ensures Shift8(Shift8(Shift8(Shift8(c)))) == 0
  {
  }

  lemma NoBit32(c: Word)
    ensures !BitAt(c, 32)
  {
    AllShiftedOut(c);
    hide Halves;
    assert !Odd(0);
  }

  /** Halving the register multiplies by x and drops x^32. */
  lemma ResidueOfHalf(c: Word)
    ensures Residue(Half(c)) == Raise(Residue(c)) - {32}
  {
    forall e: nat
      ensures e in Residue(Half(c)) <==> e in Raise(Residue(c)) - {32}
    {
      Raised(Residue(c), e);
      NoBit32(c);
      if e < 32 {
        assert BitAt(Half(c), 31 - e) == BitAt(c, 32 - e);
      }
    }
  }

  lemma PolyHalves()
    ensures Half(0xEDB88320) == 0x76DC4190 && Half(0x76DC4190) == 0x3B6E20C8 && Half(0x3B6E20C8) == 0x1DB71064 && Half(0x1DB71064) == 0x0EDB8832
    ensures Half(0x0EDB8832) == 0x076DC419 && Half(0x076DC419) == 0x03B6E20C && Half(0x03B6E20C) == 0x01DB7106 && Half(0x01DB7106) == 0x00EDB883
    ensures Half(0x00EDB883) == 0x0076DC41 && Half(0x0076DC41) == 0x003B6E20 && Half(0x003B6E20) == 0x001DB710 && Half(0x001DB710) == 0x000EDB88
    ensures Half(0x000EDB88) == 0x00076DC4 && Half(0x00076DC4) == 0x0003B6E2 && Half(0x0003B6E2) == 0x0001DB71 && Half(0x0001DB71) == 0x0000EDB8
    ensures Half(0x0000EDB8) == 0x000076DC && Half(0x000076DC) == 0x00003B6E && Half(0x00003B6E) == 0x00001DB7 && Half(0x00001DB7) == 0x00000EDB
    ensures Half(0x00000EDB) == 0x0000076D && Half(0x0000076D) == 0x000003B6 && Half(0x000003B6) == 0x000001DB && Half(0x000001DB) == 0x000000ED
    ensures Half(0x000000ED) == 0x00000076 && Half(0x00000076) == 0x0000003B && Half(0x0000003B) == 0x0000001D && Half(0x0000001D) == 0x0000000E
    ensures Half(0x0000000E) == 0x00000007 && Half(0x00000007) == 0x00000003 && Half(0x00000003) == 0x00000001 && Half(0x00000001) == 0x00000000
  {
  }

  lemma NextHalf(x: Word, k: nat, h: Word)
    requires Halves(x, k) == h
    ensures Halves(x, k + 1) == Half(h)
  {
    HalvesAdd(x, k, 1);
  }

  lemma PolyShifts()
    ensures Halves(POLY, 0) == 0xEDB88320 && Halves(POLY, 1) == 0x76DC4190 && Halves(POLY, 2) == 0x3B6E20C8 && Halves(POLY, 3) == 0x1DB71064
    ensures Halves(POLY, 4) == 0x0EDB8832 && Halves(POLY, 5) == 0x076DC419 && Halves(POLY, 6) == 0x03B6E20C && Halves(POLY, 7) == 0x01DB7106
    ensures Halves(POLY, 8) == 0x00EDB883 && Halves(POLY, 9) == 0x0076DC41 && Halves(POLY, 10) == 0x003B6E20 && Halves(POLY, 11) == 0x001DB710
    ensures Halves(POLY, 12) == 0x000EDB88 && Halves(POLY, 13) == 0x00076DC4 && Halves(POLY, 14) == 0x0003B6E2 && Halves(POLY, 15) == 0x0001DB71
    ensures Halves(POLY, 16) == 0x0000EDB8 && Halves(POLY, 17) == 0x000076DC && Halves(POLY, 18) == 0x00003B6E && Halves(POLY, 19) == 0x00001DB7
    ensures Halves(POLY, 20) == 0x00000EDB && Halves(POLY, 21) == 0x0000076D && Halves(POLY, 22) == 0x000003B6 && Halves(POLY, 23) == 0x000001DB
    ensures Halves(POLY, 24) == 0x000000ED && Halves(POLY, 25) == 0x00000076 && Halves(POLY, 26) == 0x0000003B && Halves(POLY, 27) == 0x0000001D
    ensures Halves(POLY, 28) == 0x0000000E && Halves(POLY, 29) == 0x00000007 && Halves(POLY, 30) == 0x00000003 && Halves(POLY, 31) == 0x00000001
  {
    PolyHalves();
    assert Halves(POLY, 0) == 0xEDB88320;
    hide Half, Halves;
    NextHalf(POLY, 0, 0xEDB88320); NextHalf(POLY, 1, 0x76DC4190); NextHalf(POLY, 2, 0x3B6E20C8); NextHalf(POLY, 3, 0x1DB71064);
    NextHalf(POLY, 4, 0x0EDB8832); NextHalf(POLY, 5, 0x076DC419); NextHalf(POLY, 6, 0x03B6E20C); NextHalf(POLY, 7, 0x01DB7106);
    NextHalf(POLY, 8, 0x00EDB883); NextHalf(POLY, 9, 0x0076DC41); NextHalf(POLY, 10, 0x003B6E20); NextHalf(POLY, 11, 0x001DB710);
    NextHalf(POLY, 12, 0x000EDB88); NextHalf(POLY, 13, 0x00076DC4); NextHalf(POLY, 14, 0x0003B6E2); NextHalf(POLY, 15, 0x0001DB71);
    NextHalf(POLY, 16, 0x0000EDB8); NextHalf(POLY, 17, 0x000076DC); NextHalf(POLY, 18, 0x00003B6E); NextHalf(POLY, 19, 0x00001DB7);
    NextHalf(POLY, 20, 0x00000EDB); NextHalf(POLY, 21, 0x0000076D); NextHalf(POLY, 22, 0x000003B6); NextHalf(POLY, 23, 0x000001DB);
    NextHalf(POLY, 24, 0x000000ED); NextHalf(POLY, 25, 0x00000076); NextHalf(POLY, 26, 0x0000003B); NextHalf(POLY, 27, 0x0000001D);
    NextHalf(POLY, 28, 0x0000000E); NextHalf(POLY, 29, 0x00000007); NextHalf(POLY, 30, 0x00000003);
  }

  lemma PolyOdds()
    ensures !Odd(0xEDB88320) && !Odd(0x76DC4190) && !Odd(0x3B6E20C8) && !Odd(0x1DB71064) && !Odd(0x0EDB8832) && Odd(0x076DC419) && !Odd(0x03B6E20C) && !Odd(0x01DB7106)
    ensures Odd(0x00EDB883) && Odd(0x0076DC41) && !Odd(0x003B6E20) && !Odd(0x001DB710) && !Odd(0x000EDB88) && !Odd(0x00076DC4) && !Odd(0x0003B6E2) && Odd(0x0001DB71)
    ensures !Odd(0x0000EDB8) && !Odd(0x000076DC) && !Odd(0x00003B6E) && Odd(0x00001DB7) && Odd(0x00000EDB) && Odd(0x0000076D) && !Odd(0x000003B6) && Odd(0x000001DB)
    ensures Odd(0x000000ED) && !Odd(0x00000076) && Odd(0x0000003B) && Odd(0x0000001D) && !Odd(0x0000000E) && Odd(0x00000007) && Odd(0x00000003) && Odd(0x00000001)
  {
  }

  /** The constant is the generator without its leading term. */
  lemma ResidueOfPoly()
    ensures Residue(POLY) == GENERATOR - {32}
  {
    PolyShifts();
    PolyOdds();
    hide Halves, Odd;
    forall e: nat
      ensures e in Residue(POLY) <==> e in GENERATOR - {32}
    {
      if e < 32 {
        PolyBit(e);
      }
    }
  }

  lemma PolyBit(e: nat)
    requires e < 32
    ensures BitAt(POLY, 31 - e) <==> e in GENERATOR
  {
    PolyShifts();
    PolyOdds();
    hide Halves, Odd;
    var k := 31 - e;
    if k < 16 {
      assert k in {0, 1, 2, 3, 4, 5, 6, 7, 8, 9, 10, 11, 12, 13, 14, 15};
    } else {
      assert k in {16, 17, 18, 19, 20, 21, 22, 23, 24, 25, 26, 27, 28, 29, 30, 31};
    }
  }

  /** One bit step multiplies by x, adds the bit at x^32, and takes the generator away when x^32 is there. */
  lemma ResidueOfStep(c: Word, b: bool)
    ensures Residue(ShiftBit(c, b)) == Add(Add(Raise(Residue(c)), If(b, {32})), If(Odd(c) != b, GENERATOR))
  {
    hide Xor, Half, Odd, BitAt, Residue;
    ResidueOfHalf(c);
    ResidueOfPoly();
    ResidueOfXor(POLY, Half(c));
    LeadingTerm(c);
  }

  lemma LeadingTerm(c: Word)
    ensures 32 in Raise(Residue(c)) <==> Odd(c)
  {
    Raised(Residue(c), 32);
    assert BitAt(c, 0) == Odd(c);
  }

  // ---- The remainder -----------------------------------------------------------------------------------

  /** What is divided: the bits times x^32, plus the first register before them. */
  function Dividend(c: Word, bits: seq<bool>): Poly { Add(RaiseBy(PolyOf(bits), 32), RaiseBy(Residue(c), |bits|)) }

  lemma {:induction false} RaisedOne(n: nat)
    ensures RaiseBy({0}, n) == {n}
  {
    if n > 0 {
      RaisedOne(n - 1);
    }
  }

  lemma RaisedIf(b: bool)
    ensures RaiseBy(If(b, {0}), 32) == If(b, {32})
  {
    if b {
      RaisedOne(32);
    } else {
      RaisedNone(32);
    }
  }

  lemma {:induction false} RaisedNone(n: nat)
    ensures RaiseBy({}, n) == {}
  {
    if n > 0 {
      RaisedNone(n - 1);
    }
  }

  /** One more bit multiplies the dividend by x and adds the bit at x^32. */
  lemma DividendGrows(c: Word, bits: seq<bool>, b: bool)
    ensures Dividend(c, bits + [b]) == Add(Raise(Dividend(c, bits)), If(b, {32}))
  {
    var more := bits + [b];
    assert more[..|more| - 1] == bits;
    var p, s := PolyOf(bits), RaiseBy(Residue(c), |bits|);
    assert PolyOf(more) == Add(Raise(p), If(b, {0}));
    hide Residue, PolyOf, Raise, If;
    RaiseByAdds(Raise(p), If(b, {0}), 32);
    RaiseByRaises(p, 32);
    RaisedIf(b);
    RaiseAdds(RaiseBy(p, 32), s);
    assert RaiseBy(Residue(c), |more|) == Raise(s);
    AddSwaps(Raise(RaiseBy(p, 32)), If(b, {32}), Raise(s));
  }

  lemma AddSwaps(p: Poly, q: Poly, r: Poly)
    ensures Add(Add(p, q), r) == Add(Add(p, r), q)
  {
  }

  lemma Cancels(m: Poly, r: Poly, b: Poly, g: Poly)
    ensures Add(Add(Add(m, r), b), {}) == Add(Add(m, g), Add(Add(r, b), g))
  {
  }

  /** After any bits the register is a remainder of the dividend. */
  lemma {:induction false} FeedLeaves(c: Word, bits: seq<bool>) returns (q: seq<bool>)
    ensures |q| == |bits| && Dividend(c, bits) == Add(MultipleOf(q), Residue(Feed(c, bits)))
    decreases |bits|
  {
    if bits == [] {
      q := [];
      RaisedNone(32);
    } else {
      var init, b := bits[..|bits| - 1], bits[|bits| - 1];
      assert bits == init + [b];
      var p := FeedLeaves(c, init);
      var d := Feed(c, init);
      var t := Odd(d) != b;
      q := p + [t];
      assert q[..|q| - 1] == p;
      assert MultipleOf(q) == Add(Raise(MultipleOf(p)), If(t, GENERATOR));
      FeedConcat(c, init, [b]);
      FeedOne(d, b);
      DividendGrows(c, init, b);
      ResidueOfStep(d, b);
      hide Raise, Residue, MultipleOf, Feed, Dividend, If;
      RaiseAdds(MultipleOf(p), Residue(d));
      Cancels(Raise(MultipleOf(p)), Raise(Residue(d)), If(b, {32}), If(t, GENERATOR));
    }
  }

  lemma FeedOne(d: Word, b: bool)
    ensures Feed(d, [b]) == ShiftBit(d, b)
  {
    hide ShiftBit;
    assert [b][1..] == [];
  }

  lemma ResidueIsBelow(c: Word)
    ensures Below32(Residue(c))
  {
  }

  // ---- There is only one remainder ---------------------------------------------------------------------

  function XorBits(a: seq<bool>, b: seq<bool>): seq<bool>
    requires |a| == |b|
  {
    if a == [] then [] else XorBits(a[..|a| - 1], b[..|b| - 1]) + [a[|a| - 1] != b[|b| - 1]]
  }

  lemma {:induction false} MultiplesAdd(a: seq<bool>, b: seq<bool>)
    requires |a| == |b|
    ensures |XorBits(a, b)| == |a| && MultipleOf(XorBits(a, b)) == Add(MultipleOf(a), MultipleOf(b))
  {
    if a != [] {
      var k := |a| - 1;
      MultiplesAdd(a[..k], b[..k]);
      var x := XorBits(a, b);
      assert x[..|x| - 1] == XorBits(a[..k], b[..k]) && x[|x| - 1] == (a[k] != b[k]);
      RaiseAdds(MultipleOf(a[..k]), MultipleOf(b[..k]));
      hide Raise, MultipleOf;
      FourTerms(Raise(MultipleOf(a[..k])), Raise(MultipleOf(b[..k])), a[k], b[k]);
      assert MultipleOf(a) == Add(Raise(MultipleOf(a[..k])), If(a[k], GENERATOR)) by { LastTerm(a); }
      assert MultipleOf(b) == Add(Raise(MultipleOf(b[..k])), If(b[k], GENERATOR)) by { LastTerm(b); }
      assert MultipleOf(x) == Add(Raise(MultipleOf(x[..k])), If(x[k], GENERATOR)) by { LastTerm(x); }
    }
  }

  lemma LastTerm(a: seq<bool>)
    requires a != []
    ensures MultipleOf(a) == Add(Raise(MultipleOf(a[..|a| - 1])), If(a[|a| - 1], GENERATOR))
  {
  }

  lemma FourTerms(p: Poly, q: Poly, a: bool, b: bool)
    ensures Add(Add(p, q), If(a != b, GENERATOR)) == Add(Add(p, If(a, GENERATOR)), Add(q, If(b, GENERATOR)))
  {
  }

  lemma GeneratorEnds(e: nat)
    ensures 32 in GENERATOR && (e > 32 ==> e !in GENERATOR)
  {
  }

  /** Adding the generator or nothing to x times a polynomial keeps a term from x^32 on, or there was nothing. */
  lemma HighTermStays(m: Poly, b: bool)
    requires m == {} || exists e :: e in m && e >= 32
    ensures var p := Add(Raise(m), If(b, GENERATOR)); p == {} || exists e :: e in p && e >= 32
  {
    var p := Add(Raise(m), If(b, GENERATOR));
    if m == {} {
      GeneratorEnds(32);
      assert b ==> 32 in p;
    } else {
      var e :| e in m && e >= 32;
      GeneratorEnds(e + 1);
      Raised(m, e + 1);
      assert e + 1 in p;
    }
  }

  /** A multiple of the generator without terms from x^32 on is zero. */
  lemma {:induction false} SmallMultipleIsZero(q: seq<bool>)
    ensures MultipleOf(q) == {} || exists e :: e in MultipleOf(q) && e >= 32
  {
    if q != [] {
      var k := |q| - 1;
      SmallMultipleIsZero(q[..k]);
      LastTerm(q);
      hide MultipleOf, Raise, Add, If;
      HighTermStays(MultipleOf(q[..k]), q[k]);
    }
  }

  lemma SameSum(m: Poly, n: Poly, r: Poly, s: Poly)
    requires Add(m, r) == Add(n, s)
    ensures Add(m, n) == Add(r, s)
  {
    forall e
      ensures e in Add(m, n) <==> e in Add(r, s)
    {
      assert e in Add(m, r) <==> e in Add(n, s);
    }
  }

  lemma RemainderIsUnique(p: Poly, r: Poly, s: Poly, n: nat)
    requires IsRemainder(p, r, n) && IsRemainder(p, s, n)
    ensures r == s
  {
    var a: seq<bool> :| |a| == n && p == Add(MultipleOf(a), r);
    var b: seq<bool> :| |b| == n && p == Add(MultipleOf(b), s);
    hide MultipleOf;
    SameSum(MultipleOf(a), MultipleOf(b), r, s);
    MultiplesAdd(a, b);
    SmallMultipleIsZero(XorBits(a, b));
    assert Below32(Add(r, s));
    assert Add(r, s) == {};
    forall e
      ensures e in r <==> e in s
    {
      assert e !in Add(r, s);
    }
  }

  /**
   For every message, the CRC before its final complement is the remainder by the generator of the message times x^32,
   with 32 ones before it, and the only one.
   */
  lemma CrcIsTheRemainder(m: seq<Word>, r: Poly)
    ensures IsRemainder(Dividend(ONES, MessageBits(m)), r, |MessageBits(m)|) <==> r == Residue(Xor(Crc(m), ONES))
  {
    hide Register, Feed, MessageBits, Residue, Dividend, MultipleOf, Xor;
    var bits := MessageBits(m);
    XorTwice(Register(ONES, m), ONES);
    RegisterIsFeed(ONES, m);
    var q := FeedLeaves(ONES, bits);
    ResidueIsBelow(Feed(ONES, bits));
    assert IsRemainder(Dividend(ONES, bits), Residue(Feed(ONES, bits)), |bits|);
    if IsRemainder(Dividend(ONES, bits), r, |bits|) {
      RemainderIsUnique(Dividend(ONES, bits), r, Residue(Feed(ONES, bits)), |bits|);
    }
  }

  /** The register of all ones stands for the 32 terms below x^32. */
  lemma OnesAreAllTerms(e: nat)
    ensures e in Residue(ONES) <==> e < 32
  {
    if e < 32 {
      OnesBit(31 - e);
    }
  }

  lemma OnesHalves()
    ensures Half(0xFFFFFFFF) == 0x7FFFFFFF && Half(0x7FFFFFFF) == 0x3FFFFFFF && Half(0x3FFFFFFF) == 0x1FFFFFFF && Half(0x1FFFFFFF) == 0x0FFFFFFF
    ensures Half(0x0FFFFFFF) == 0x07FFFFFF && Half(0x07FFFFFF) == 0x03FFFFFF && Half(0x03FFFFFF) == 0x01FFFFFF && Half(0x01FFFFFF) == 0x00FFFFFF
    ensures Half(0x00FFFFFF) == 0x007FFFFF && Half(0x007FFFFF) == 0x003FFFFF && Half(0x003FFFFF) == 0x001FFFFF && Half(0x001FFFFF) == 0x000FFFFF
    ensures Half(0x000FFFFF) == 0x0007FFFF && Half(0x0007FFFF) == 0x0003FFFF && Half(0x0003FFFF) == 0x0001FFFF && Half(0x0001FFFF) == 0x0000FFFF
    ensures Half(0x0000FFFF) == 0x00007FFF && Half(0x00007FFF) == 0x00003FFF && Half(0x00003FFF) == 0x00001FFF && Half(0x00001FFF) == 0x00000FFF
    ensures Half(0x00000FFF) == 0x000007FF && Half(0x000007FF) == 0x000003FF && Half(0x000003FF) == 0x000001FF && Half(0x000001FF) == 0x000000FF
    ensures Half(0x000000FF) == 0x0000007F && Half(0x0000007F) == 0x0000003F && Half(0x0000003F) == 0x0000001F && Half(0x0000001F) == 0x0000000F
    ensures Half(0x0000000F) == 0x00000007 && Half(0x00000007) == 0x00000003 && Half(0x00000003) == 0x00000001 && Half(0x00000001) == 0x00000000
  {
  }

  lemma OnesShifts()
    ensures Halves(ONES, 0) == 0xFFFFFFFF && Halves(ONES, 1) == 0x7FFFFFFF && Halves(ONES, 2) == 0x3FFFFFFF && Halves(ONES, 3) == 0x1FFFFFFF
    ensures Halves(ONES, 4) == 0x0FFFFFFF && Halves(ONES, 5) == 0x07FFFFFF && Halves(ONES, 6) == 0x03FFFFFF && Halves(ONES, 7) == 0x01FFFFFF
    ensures Halves(ONES, 8) == 0x00FFFFFF && Halves(ONES, 9) == 0x007FFFFF && Halves(ONES, 10) == 0x003FFFFF && Halves(ONES, 11) == 0x001FFFFF
    ensures Halves(ONES, 12) == 0x000FFFFF && Halves(ONES, 13) == 0x0007FFFF && Halves(ONES, 14) == 0x0003FFFF && Halves(ONES, 15) == 0x0001FFFF
    ensures Halves(ONES, 16) == 0x0000FFFF && Halves(ONES, 17) == 0x00007FFF && Halves(ONES, 18) == 0x00003FFF && Halves(ONES, 19) == 0x00001FFF
    ensures Halves(ONES, 20) == 0x00000FFF && Halves(ONES, 21) == 0x000007FF && Halves(ONES, 22) == 0x000003FF && Halves(ONES, 23) == 0x000001FF
    ensures Halves(ONES, 24) == 0x000000FF && Halves(ONES, 25) == 0x0000007F && Halves(ONES, 26) == 0x0000003F && Halves(ONES, 27) == 0x0000001F
    ensures Halves(ONES, 28) == 0x0000000F && Halves(ONES, 29) == 0x00000007 && Halves(ONES, 30) == 0x00000003 && Halves(ONES, 31) == 0x00000001
  {
    OnesHalves();
    assert Halves(ONES, 0) == 0xFFFFFFFF;
    hide Half, Halves;
    NextHalf(ONES, 0, 0xFFFFFFFF); NextHalf(ONES, 1, 0x7FFFFFFF); NextHalf(ONES, 2, 0x3FFFFFFF); NextHalf(ONES, 3, 0x1FFFFFFF);
    NextHalf(ONES, 4, 0x0FFFFFFF); NextHalf(ONES, 5, 0x07FFFFFF); NextHalf(ONES, 6, 0x03FFFFFF); NextHalf(ONES, 7, 0x01FFFFFF);
    NextHalf(ONES, 8, 0x00FFFFFF); NextHalf(ONES, 9, 0x007FFFFF); NextHalf(ONES, 10, 0x003FFFFF); NextHalf(ONES, 11, 0x001FFFFF);
    NextHalf(ONES, 12, 0x000FFFFF); NextHalf(ONES, 13, 0x0007FFFF); NextHalf(ONES, 14, 0x0003FFFF); NextHalf(ONES, 15, 0x0001FFFF);
    NextHalf(ONES, 16, 0x0000FFFF); NextHalf(ONES, 17, 0x00007FFF); NextHalf(ONES, 18, 0x00003FFF); NextHalf(ONES, 19, 0x00001FFF);
    NextHalf(ONES, 20, 0x00000FFF); NextHalf(ONES, 21, 0x000007FF); NextHalf(ONES, 22, 0x000003FF); NextHalf(ONES, 23, 0x000001FF);
    NextHalf(ONES, 24, 0x000000FF); NextHalf(ONES, 25, 0x0000007F); NextHalf(ONES, 26, 0x0000003F); NextHalf(ONES, 27, 0x0000001F);
    NextHalf(ONES, 28, 0x0000000F); NextHalf(ONES, 29, 0x00000007); NextHalf(ONES, 30, 0x00000003);
  }

  lemma OnesOdds()
    ensures Odd(0xFFFFFFFF) && Odd(0x7FFFFFFF) && Odd(0x3FFFFFFF) && Odd(0x1FFFFFFF) && Odd(0x0FFFFFFF) && Odd(0x07FFFFFF) && Odd(0x03FFFFFF) && Odd(0x01FFFFFF)
    ensures Odd(0x00FFFFFF) && Odd(0x007FFFFF) && Odd(0x003FFFFF) && Odd(0x001FFFFF) && Odd(0x000FFFFF) && Odd(0x0007FFFF) && Odd(0x0003FFFF) && Odd(0x0001FFFF)
    ensures Odd(0x0000FFFF) && Odd(0x00007FFF) && Odd(0x00003FFF) && Odd(0x00001FFF) && Odd(0x00000FFF) && Odd(0x000007FF) && Odd(0x000003FF) && Odd(0x000001FF)
    ensures Odd(0x000000FF) && Odd(0x0000007F) && Odd(0x0000003F) && Odd(0x0000001F) && Odd(0x0000000F) && Odd(0x00000007) && Odd(0x00000003) && Odd(0x00000001)
  {
  }

  lemma OnesBit(k: nat)
    requires k < 32
    ensures BitAt(ONES, k)
  {
    OnesShifts();
    OnesOdds();
    hide Halves, Odd;
    if k < 16 {
      assert k in {0, 1, 2, 3, 4, 5, 6, 7, 8, 9, 10, 11, 12, 13, 14, 15};
    } else {
      assert k in {16, 17, 18, 19, 20, 21, 22, 23, 24, 25, 26, 27, 28, 29, 30, 31};
    }
  }

  // ---- The check value ---------------------------------------------------------------------------------

  const NINE_DIGITS: seq<Word> := [0x31, 0x32, 0x33, 0x34, 0x35, 0x36, 0x37, 0x38, 0x39]

  lemma Digit1()
    ensures ShiftBits(0xffffffff, 0x31, 8) == 0x7c231048
  {
  }

  lemma Digit2()
    ensures ShiftBits(0x7c231048, 0x32, 8) == 0xb0acbb32
  {
  }

  lemma Digit3()
    ensures ShiftBits(0xb0acbb32, 0x33, 8) == 0x77b79c2d
  {
  }

  lemma Digit4()
    ensures ShiftBits(0x77b79c2d, 0x34, 8) == 0x641c1f5c
  {
  }

  lemma Digit5()
    ensures ShiftBits(0x641c1f5c, 0x35, 8) == 0x340ac5e3
  {
  }

  lemma Digit6()
    ensures ShiftBits(0x340ac5e3, 0x36, 8) == 0xf68d2c9e
  {
  }

  lemma Digit7()
    ensures ShiftBits(0xf68d2c9e, 0x37, 8) == 0xaffc9660
  {
  }

  lemma Digit8()
    ensures ShiftBits(0xaffc9660, 0x38, 8) == 0x651f2550
  {
  }

  lemma Digit9()
    ensures ShiftBits(0x651f2550, 0x39, 8) == 0x340bc6d9
  {
  }

  lemma NextByte(c: Word, m: seq<Word>, k: nat, x: Word)
    requires k < |m| && Register(c, m[..k]) == x
    ensures Register(c, m[..k + 1]) == ShiftBits(x, m[k], 8)
  {
    hide ShiftBits;
    assert m[..k + 1][..k] == m[..k];
  }

  lemma CheckRegister()
    ensures Register(ONES, NINE_DIGITS) == 0x340bc6d9
  {
    hide ShiftBits, Register;
    var m := NINE_DIGITS;
    assert m[..0] == [] && Register(ONES, m[..0]) == ONES by { NoBytes(); }
    Digit1();
    NextByte(ONES, m, 0, 0xffffffff);
    Digit2();
    NextByte(ONES, m, 1, 0x7c231048);
    Digit3();
    NextByte(ONES, m, 2, 0xb0acbb32);
    Digit4();
    NextByte(ONES, m, 3, 0x77b79c2d);
    Digit5();
    NextByte(ONES, m, 4, 0x641c1f5c);
    Digit6();
    NextByte(ONES, m, 5, 0x340ac5e3);
    Digit7();
    NextByte(ONES, m, 6, 0xf68d2c9e);
    Digit8();
    NextByte(ONES, m, 7, 0xaffc9660);
    Digit9();
    NextByte(ONES, m, 8, 0x651f2550);
    assert m[..9] == m;
  }

  lemma NoBytes()
    ensures Register(ONES, []) == ONES
  {
  }

  lemma CheckText()
    ensures Xor(0x340bc6d9, ONES) == 0xcbf43926 && HexWord(0xcbf43926) == "cbf43926"
  {
  }

  /** The CRC of "123456789" is the published check value. */
  lemma CheckValue()
    ensures HexWord(Crc(NINE_DIGITS)) == "cbf43926"
  {
    hide HexWord, Register, Xor;
    CheckRegister();
    CheckText();
  }
}
