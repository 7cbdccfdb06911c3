/**
 The published example of FIPS 180-4: the digest of "abc", computed from the specification word by word and round by
 round. It fixes the constants, the functions, the byte order, the padding and the printing.
 */
module Sha256Example {
  import opened Base
  import opened Hex
  import opened Words
  import opened Sha256Spec
  import opened Sha256

  const ABC: seq<Byte> := [0x61, 0x62, 0x63]

  function Block(): (b: seq<Byte>)
    ensures |b| == 64
  {
    ABC + [0x80] + Zeros(52) + [0, 0, 0, 0, 0, 0, 0, 0x18]
  }

  lemma PaddedAbc()
    ensures Pad(ABC) == Block()
  {
    assert BigEndian64(24) == [0, 0, 0, 0, 0, 0, 0, 0x18];
    assert ZeroCount(3) == 52;
  }

  // ---- The message schedule ----------------------------------------------------------------------------

  lemma Joins()
    ensures Join(0, false) == 0 && Join(0, true) == 1 && Join(1, true) == 3 && Join(3, false) == 6 && Join(6, false) == 12
    ensures Join(12, false) == 24 && Join(24, false) == 48 && Join(24, true) == 49
    ensures Join(48, true) == 0x61 && Join(49, false) == 0x62 && Join(49, true) == 0x63
    ensures Join(1, false) == 2 && Join(2, false) == 4 && Join(4, false) == 8 && Join(8, false) == 16
    ensures Join(16, false) == 32 && Join(32, false) == 64 && Join(64, false) == 0x80
  {
  }

  lemma ByteWords()
    ensures ToWord(0x61, 8) == 0x61 && ToWord(0x62, 8) == 0x62 && ToWord(0x63, 8) == 0x63
    ensures ToWord(0x80, 8) == 0x80 && ToWord(0x18, 8) == 0x18 && ToWord(0, 8) == 0
  {
    hide Join;
    Joins();
    assert ToWord(0, 1) == 0 && ToWord(0, 2) == 0 && ToWord(0, 3) == 0 && ToWord(0, 4) == 0;
    assert ToWord(0, 5) == 0 && ToWord(0, 6) == 0 && ToWord(0, 7) == 0;
    assert ToWord(1, 2) == 1 && ToWord(3, 3) == 3 && ToWord(6, 4) == 6 && ToWord(12, 5) == 12 && ToWord(24, 6) == 24;
    assert ToWord(48, 7) == 48 && ToWord(49, 7) == 49;
    assert ToWord(1, 4) == 1 && ToWord(3, 5) == 3 && ToWord(6, 6) == 6 && ToWord(12, 7) == 12;
    assert ToWord(1, 1) == 1 && ToWord(2, 2) == 2 && ToWord(4, 3) == 4 && ToWord(8, 4) == 8;
    assert ToWord(16, 5) == 16 && ToWord(32, 6) == 32 && ToWord(64, 7) == 64;
  }

  lemma WordOf(t: nat, b0: Byte, b1: Byte, b2: Byte, b3: Byte)
    requires t < 16 && Block()[t * 4] == b0 && Block()[t * 4 + 1] == b1 && Block()[t * 4 + 2] == b2 && Block()[t * 4 + 3] == b3
    ensures Schedule(Block(), t) == ClientWord(b0, b1, b2, b3)
  {
    hide ClientWord, Schedule;
    ClientBlockWord(Block(), t);
  }

  lemma Shifted()
    ensures (0x61 << 24) | (0x62 << 16) | (0x63 << 8) | 0x80 == 0x61626380 as Word
    ensures (0 << 24) | (0 << 16) | (0 << 8) | 0x18 == 0x18 as Word
    ensures (0 << 24) | (0 << 16) | (0 << 8) | 0 == 0 as Word
  {
  }

  lemma FirstWords()
    ensures Schedule(Block(), 0) == 0x61626380 && Schedule(Block(), 15) == 0x18
    ensures forall t :: 1 <= t < 15 ==> Schedule(Block(), t) == 0
  {
    hide Schedule, ToWord;
    ByteWords();
    Shifted();
    WordOf(0, 0x61, 0x62, 0x63, 0x80);
    WordOf(15, 0, 0, 0, 0x18);
    forall t | 1 <= t < 15
      ensures Schedule(Block(), t) == 0
    {
      WordOf(t, 0, 0, 0, 0);
    }
  }

  lemma NextWord(t: nat, x2: Word, x7: Word, x15: Word, x16: Word, x: Word)
    requires 16 <= t < 64 && Schedule(Block(), t - 2) == x2 && Schedule(Block(), t - 7) == x7
    requires Schedule(Block(), t - 15) == x15 && Schedule(Block(), t - 16) == x16
    requires Sum4(SmallSigma1(x2), x7, SmallSigma0(x15), x16) == x
    ensures Schedule(Block(), t) == x
  {
    hide Schedule, Block, Sum4, SmallSigma0, SmallSigma1;
    ScheduleStep(Block(), t);
  }

  lemma Words16To23()
    ensures Schedule(Block(), 16) == 0x61626380 && Schedule(Block(), 17) == 0x000f0000
    ensures Schedule(Block(), 18) == 0x7da86405 && Schedule(Block(), 19) == 0x600003c6
    ensures Schedule(Block(), 20) == 0x3e9d7b78 && Schedule(Block(), 21) == 0x0183fc00
    ensures Schedule(Block(), 22) == 0x12dcbfdb && Schedule(Block(), 23) == 0xe2e2c38e
  {
    hide Schedule, Block;
    FirstWords();
    NextWord(16, 0x00000000, 0x00000000, 0x00000000, 0x61626380, 0x61626380);
    NextWord(17, 0x00000018, 0x00000000, 0x00000000, 0x00000000, 0x000f0000);
    NextWord(18, 0x61626380, 0x00000000, 0x00000000, 0x00000000, 0x7da86405);
    NextWord(19, 0x000f0000, 0x00000000, 0x00000000, 0x00000000, 0x600003c6);
    NextWord(20, 0x7da86405, 0x00000000, 0x00000000, 0x00000000, 0x3e9d7b78);
    NextWord(21, 0x600003c6, 0x00000000, 0x00000000, 0x00000000, 0x0183fc00);
    NextWord(22, 0x3e9d7b78, 0x00000018, 0x00000000, 0x00000000, 0x12dcbfdb);
    NextWord(23, 0x0183fc00, 0x61626380, 0x00000000, 0x00000000, 0xe2e2c38e);
  }

  lemma Words24To31()
    ensures Schedule(Block(), 24) == 0xc8215c1a && Schedule(Block(), 25) == 0xb73679a2
    ensures Schedule(Block(), 26) == 0xe5bc3909 && Schedule(Block(), 27) == 0x32663c5b
    ensures Schedule(Block(), 28) == 0x9d209d67 && Schedule(Block(), 29) == 0xec8726cb
    ensures Schedule(Block(), 30) == 0x702138a4 && Schedule(Block(), 31) == 0xd3b7973b
  {
    hide Schedule, Block;
    FirstWords();
    Words16To23();
    NextWord(24, 0x12dcbfdb, 0x000f0000, 0x00000000, 0x00000000, 0xc8215c1a);
    NextWord(25, 0xe2e2c38e, 0x7da86405, 0x00000000, 0x00000000, 0xb73679a2);
    NextWord(26, 0xc8215c1a, 0x600003c6, 0x00000000, 0x00000000, 0xe5bc3909);
    NextWord(27, 0xb73679a2, 0x3e9d7b78, 0x00000000, 0x00000000, 0x32663c5b);
    NextWord(28, 0xe5bc3909, 0x0183fc00, 0x00000000, 0x00000000, 0x9d209d67);
    NextWord(29, 0x32663c5b, 0x12dcbfdb, 0x00000000, 0x00000000, 0xec8726cb);
    NextWord(30, 0x9d209d67, 0xe2e2c38e, 0x00000018, 0x00000000, 0x702138a4);
    NextWord(31, 0xec8726cb, 0xc8215c1a, 0x61626380, 0x00000018, 0xd3b7973b);
  }

  lemma Words32To39()
    ensures Schedule(Block(), 32) == 0x93f5997f && Schedule(Block(), 33) == 0x3b68ba73
    ensures Schedule(Block(), 34) == 0xaff4ffc1 && Schedule(Block(), 35) == 0xf10a5c62
    ensures Schedule(Block(), 36) == 0x0a8b3996 && Schedule(Block(), 37) == 0x72af830a
    ensures Schedule(Block(), 38) == 0x9409e33e && Schedule(Block(), 39) == 0x24641522
  {
    hide Schedule, Block;
    Words16To23();
    Words24To31();
    NextWord(32, 0x702138a4, 0xb73679a2, 0x000f0000, 0x61626380, 0x93f5997f);
    NextWord(33, 0xd3b7973b, 0xe5bc3909, 0x7da86405, 0x000f0000, 0x3b68ba73);
    NextWord(34, 0x93f5997f, 0x32663c5b, 0x600003c6, 0x7da86405, 0xaff4ffc1);
    NextWord(35, 0x3b68ba73, 0x9d209d67, 0x3e9d7b78, 0x600003c6, 0xf10a5c62);
    NextWord(36, 0xaff4ffc1, 0xec8726cb, 0x0183fc00, 0x3e9d7b78, 0x0a8b3996);
    NextWord(37, 0xf10a5c62, 0x702138a4, 0x12dcbfdb, 0x0183fc00, 0x72af830a);
    NextWord(38, 0x0a8b3996, 0xd3b7973b, 0xe2e2c38e, 0x12dcbfdb, 0x9409e33e);
    NextWord(39, 0x72af830a, 0x93f5997f, 0xc8215c1a, 0xe2e2c38e, 0x24641522);
  }

  lemma Words40To47()
    ensures Schedule(Block(), 40) == 0x9f47bf94 && Schedule(Block(), 41) == 0xf0a64f5a
    ensures Schedule(Block(), 42) == 0x3e246a79 && Schedule(Block(), 43) == 0x27333ba3
    ensures Schedule(Block(), 44) == 0x0c4763f2 && Schedule(Block(), 45) == 0x840abf27
    ensures Schedule(Block(), 46) == 0x7a290d5d && Schedule(Block(), 47) == 0x065c43da
  {
    hide Schedule, Block;
    Words24To31();
    Words32To39();
    NextWord(40, 0x9409e33e, 0x3b68ba73, 0xb73679a2, 0xc8215c1a, 0x9f47bf94);
    NextWord(41, 0x24641522, 0xaff4ffc1, 0xe5bc3909, 0xb73679a2, 0xf0a64f5a);
    NextWord(42, 0x9f47bf94, 0xf10a5c62, 0x32663c5b, 0xe5bc3909, 0x3e246a79);
    NextWord(43, 0xf0a64f5a, 0x0a8b3996, 0x9d209d67, 0x32663c5b, 0x27333ba3);
    NextWord(44, 0x3e246a79, 0x72af830a, 0xec8726cb, 0x9d209d67, 0x0c4763f2);
    NextWord(45, 0x27333ba3, 0x9409e33e, 0x702138a4, 0xec8726cb, 0x840abf27);
    NextWord(46, 0x0c4763f2, 0x24641522, 0xd3b7973b, 0x702138a4, 0x7a290d5d);
    NextWord(47, 0x840abf27, 0x9f47bf94, 0x93f5997f, 0xd3b7973b, 0x065c43da);
  }

  lemma Words48To55()
    ensures Schedule(Block(), 48) == 0xfb3e89cb && Schedule(Block(), 49) == 0xcc7617db
    ensures Schedule(Block(), 50) == 0xb9e66c34 && Schedule(Block(), 51) == 0xa9993667
    ensures Schedule(Block(), 52) == 0x84badedd && Schedule(Block(), 53) == 0xc21462bc
    ensures Schedule(Block(), 54) == 0x1487472c && Schedule(Block(), 55) == 0xb20f7a99
  {
    hide Schedule, Block;
    Words32To39();
    Words40To47();
    NextWord(48, 0x7a290d5d, 0xf0a64f5a, 0x3b68ba73, 0x93f5997f, 0xfb3e89cb);
    NextWord(49, 0x065c43da, 0x3e246a79, 0xaff4ffc1, 0x3b68ba73, 0xcc7617db);
    NextWord(50, 0xfb3e89cb, 0x27333ba3, 0xf10a5c62, 0xaff4ffc1, 0xb9e66c34);
    NextWord(51, 0xcc7617db, 0x0c4763f2, 0x0a8b3996, 0xf10a5c62, 0xa9993667);
    NextWord(52, 0xb9e66c34, 0x840abf27, 0x72af830a, 0x0a8b3996, 0x84badedd);
    NextWord(53, 0xa9993667, 0x7a290d5d, 0x9409e33e, 0x72af830a, 0xc21462bc);
    NextWord(54, 0x84badedd, 0x065c43da, 0x24641522, 0x9409e33e, 0x1487472c);
    NextWord(55, 0xc21462bc, 0xfb3e89cb, 0x9f47bf94, 0x24641522, 0xb20f7a99);
  }

  lemma Words56To63()
    ensures Schedule(Block(), 56) == 0xef57b9cd && Schedule(Block(), 57) == 0xebe6b238
    ensures Schedule(Block(), 58) == 0x9fe3095e && Schedule(Block(), 59) == 0x78bc8d4b
    ensures Schedule(Block(), 60) == 0xa43fcf15 && Schedule(Block(), 61) == 0x668b2ff8
    ensures Schedule(Block(), 62) == 0xeeaba2cc && Schedule(Block(), 63) == 0x12b1edeb
  {
    hide Schedule, Block;
    Words40To47();
    Words48To55();
    NextWord(56, 0x1487472c, 0xcc7617db, 0xf0a64f5a, 0x9f47bf94, 0xef57b9cd);
    NextWord(57, 0xb20f7a99, 0xb9e66c34, 0x3e246a79, 0xf0a64f5a, 0xebe6b238);
    NextWord(58, 0xef57b9cd, 0xa9993667, 0x27333ba3, 0x3e246a79, 0x9fe3095e);
    NextWord(59, 0xebe6b238, 0x84badedd, 0x0c4763f2, 0x27333ba3, 0x78bc8d4b);
    NextWord(60, 0x9fe3095e, 0xc21462bc, 0x840abf27, 0x0c4763f2, 0xa43fcf15);
    NextWord(61, 0x78bc8d4b, 0x1487472c, 0x7a290d5d, 0x840abf27, 0x668b2ff8);
    NextWord(62, 0xa43fcf15, 0xb20f7a99, 0x065c43da, 0x7a290d5d, 0xeeaba2cc);
    NextWord(63, 0x668b2ff8, 0xef57b9cd, 0xfb3e89cb, 0x065c43da, 0x12b1edeb);
  }

  // ---- The rounds --------------------------------------------------------------------------------------

  function KAt(t: nat): Word
    requires t < 64
  {
    K[t]
  }

  lemma KRow(t: nat)
    requires t < 64
    ensures KAt(t) == if t < 16 then K0[t] else if t < 32 then K16[t - 16] else if t < 48 then K32[t - 32] else K48[t - 48]
  {
  }

  lemma Constants0To15()
    ensures KAt(0) == 0x428a2f98 && KAt(1) == 0x71374491 && KAt(2) == 0xb5c0fbcf && KAt(3) == 0xe9b5dba5
    ensures KAt(4) == 0x3956c25b && KAt(5) == 0x59f111f1 && KAt(6) == 0x923f82a4 && KAt(7) == 0xab1c5ed5
    ensures KAt(8) == 0xd807aa98 && KAt(9) == 0x12835b01 && KAt(10) == 0x243185be && KAt(11) == 0x550c7dc3
    ensures KAt(12) == 0x72be5d74 && KAt(13) == 0x80deb1fe && KAt(14) == 0x9bdc06a7 && KAt(15) == 0xc19bf174
  {
    hide KAt;
    forall t | 0 <= t < 16
      ensures KAt(t) == K0[t - 0]
    {
      KRow(t);
    }
  }

  lemma Constants16To31()
    ensures KAt(16) == 0xe49b69c1 && KAt(17) == 0xefbe4786 && KAt(18) == 0x0fc19dc6 && KAt(19) == 0x240ca1cc
    ensures KAt(20) == 0x2de92c6f && KAt(21) == 0x4a7484aa && KAt(22) == 0x5cb0a9dc && KAt(23) == 0x76f988da
    ensures KAt(24) == 0x983e5152 && KAt(25) == 0xa831c66d && KAt(26) == 0xb00327c8 && KAt(27) == 0xbf597fc7
    ensures KAt(28) == 0xc6e00bf3 && KAt(29) == 0xd5a79147 && KAt(30) == 0x06ca6351 && KAt(31) == 0x14292967
  {
    hide KAt;
    forall t | 16 <= t < 32
      ensures KAt(t) == K16[t - 16]
    {
      KRow(t);
    }
  }

  lemma Constants32To47()
    ensures KAt(32) == 0x27b70a85 && KAt(33) == 0x2e1b2138 && KAt(34) == 0x4d2c6dfc && KAt(35) == 0x53380d13
    ensures KAt(36) == 0x650a7354 && KAt(37) == 0x766a0abb && KAt(38) == 0x81c2c92e && KAt(39) == 0x92722c85
    ensures KAt(40) == 0xa2bfe8a1 && KAt(41) == 0xa81a664b && KAt(42) == 0xc24b8b70 && KAt(43) == 0xc76c51a3
    ensures KAt(44) == 0xd192e819 && KAt(45) == 0xd6990624 && KAt(46) == 0xf40e3585 && KAt(47) == 0x106aa070
  {
    hide KAt;
    forall t | 32 <= t < 48
      ensures KAt(t) == K32[t - 32]
    {
      KRow(t);
    }
  }

  lemma Constants48To63()
    ensures KAt(48) == 0x19a4c116 && KAt(49) == 0x1e376c08 && KAt(50) == 0x2748774c && KAt(51) == 0x34b0bcb5
    ensures KAt(52) == 0x391c0cb3 && KAt(53) == 0x4ed8aa4a && KAt(54) == 0x5b9cca4f && KAt(55) == 0x682e6ff3
    ensures KAt(56) == 0x748f82ee && KAt(57) == 0x78a5636f && KAt(58) == 0x84c87814 && KAt(59) == 0x8cc70208
    ensures KAt(60) == 0x90befffa && KAt(61) == 0xa4506ceb && KAt(62) == 0xbef9a3f7 && KAt(63) == 0xc67178f2
  {
    hide KAt;
    forall t | 48 <= t < 64
      ensures KAt(t) == K48[t - 48]
    {
      KRow(t);
    }
  }

  lemma NextRound(t: nat, v: Hash, k: Word, w: Word, a: Word, e: Word)
    requires t < 64 && Rounds(H0, Block(), t) == v && KAt(t) == k && Schedule(Block(), t) == w
    requires Round(v, k, w) == Hash(a, v.a, v.b, v.c, e, v.e, v.f, v.g)
    ensures Rounds(H0, Block(), t + 1) == Hash(a, v.a, v.b, v.c, e, v.e, v.f, v.g)
  {
    hide Schedule, Rounds, Round, Block;
    RoundsStep(H0, Block(), t);
  }

  lemma Rounds0To3()
    ensures Rounds(H0, Block(), 4) == Hash(0xd550f666, 0xc8c347a7, 0x5a6ad9ad, 0x5d6aebcd, 0x24e00850, 0xf92939eb, 0x78ce7989, 0xfa2a4622)
  {
    hide Schedule, Rounds, KAt, Block;
    FirstWords();
    Constants0To15();
    RoundsStep(H0, Block(), 0);
    NextRound(0, Hash(0x6a09e667, 0xbb67ae85, 0x3c6ef372, 0xa54ff53a, 0x510e527f, 0x9b05688c, 0x1f83d9ab, 0x5be0cd19), 0x428a2f98, 0x61626380, 0x5d6aebcd, 0xfa2a4622);
    NextRound(1, Hash(0x5d6aebcd, 0x6a09e667, 0xbb67ae85, 0x3c6ef372, 0xfa2a4622, 0x510e527f, 0x9b05688c, 0x1f83d9ab), 0x71374491, 0x00000000, 0x5a6ad9ad, 0x78ce7989);
    NextRound(2, Hash(0x5a6ad9ad, 0x5d6aebcd, 0x6a09e667, 0xbb67ae85, 0x78ce7989, 0xfa2a4622, 0x510e527f, 0x9b05688c), 0xb5c0fbcf, 0x00000000, 0xc8c347a7, 0xf92939eb);
    NextRound(3, Hash(0xc8c347a7, 0x5a6ad9ad, 0x5d6aebcd, 0x6a09e667, 0xf92939eb, 0x78ce7989, 0xfa2a4622, 0x510e527f), 0xe9b5dba5, 0x00000000, 0xd550f666, 0x24e00850);
  }

  lemma Rounds4To7()
    ensures Rounds(H0, Block(), 8) == Hash(0x85a07b5f, 0xe5030380, 0x2b4209f5, 0x04409a6a, 0x0c657a79, 0x9b27a401, 0x714260ad, 0x43ada245)
  {
    hide Schedule, Rounds, KAt, Block;
    FirstWords();
    Constants0To15();
    Rounds0To3();
    NextRound(4, Hash(0xd550f666, 0xc8c347a7, 0x5a6ad9ad, 0x5d6aebcd, 0x24e00850, 0xf92939eb, 0x78ce7989, 0xfa2a4622), 0x3956c25b, 0x00000000, 0x04409a6a, 0x43ada245);
    NextRound(5, Hash(0x04409a6a, 0xd550f666, 0xc8c347a7, 0x5a6ad9ad, 0x43ada245, 0x24e00850, 0xf92939eb, 0x78ce7989), 0x59f111f1, 0x00000000, 0x2b4209f5, 0x714260ad);
    NextRound(6, Hash(0x2b4209f5, 0x04409a6a, 0xd550f666, 0xc8c347a7, 0x714260ad, 0x43ada245, 0x24e00850, 0xf92939eb), 0x923f82a4, 0x00000000, 0xe5030380, 0x9b27a401);
    NextRound(7, Hash(0xe5030380, 0x2b4209f5, 0x04409a6a, 0xd550f666, 0x9b27a401, 0x714260ad, 0x43ada245, 0x24e00850), 0xab1c5ed5, 0x00000000, 0x85a07b5f, 0x0c657a79);
  }

  lemma Rounds8To11()
    ensures Rounds(H0, Block(), 12) == Hash(0xf71fc5a9, 0x4798a3f4, 0x8c87346b, 0x8e04ecb9, 0x816fd6e9, 0x436b23e8, 0x1cc92596, 0x32ca2d8c)
  {
    hide Schedule, Rounds, KAt, Block;
    FirstWords();
    Constants0To15();
    Rounds4To7();
    NextRound(8, Hash(0x85a07b5f, 0xe5030380, 0x2b4209f5, 0x04409a6a, 0x0c657a79, 0x9b27a401, 0x714260ad, 0x43ada245), 0xd807aa98, 0x00000000, 0x8e04ecb9, 0x32ca2d8c);
    NextRound(9, Hash(0x8e04ecb9, 0x85a07b5f, 0xe5030380, 0x2b4209f5, 0x32ca2d8c, 0x0c657a79, 0x9b27a401, 0x714260ad), 0x12835b01, 0x00000000, 0x8c87346b, 0x1cc92596);
    NextRound(10, Hash(0x8c87346b, 0x8e04ecb9, 0x85a07b5f, 0xe5030380, 0x1cc92596, 0x32ca2d8c, 0x0c657a79, 0x9b27a401), 0x243185be, 0x00000000, 0x4798a3f4, 0x436b23e8);
    NextRound(11, Hash(0x4798a3f4, 0x8c87346b, 0x8e04ecb9, 0x85a07b5f, 0x436b23e8, 0x1cc92596, 0x32ca2d8c, 0x0c657a79), 0x550c7dc3, 0x00000000, 0xf71fc5a9, 0x816fd6e9);
  }

  lemma Rounds12To15()
    ensures Rounds(H0, Block(), 16) == Hash(0xb0fa238e, 0xc0645fde, 0xd932eb16, 0x87912990, 0x07590dcd, 0x0b92f20c, 0x745a48de, 0x1e578218)
  {
    hide Schedule, Rounds, KAt, Block;
    FirstWords();
    Constants0To15();
    Rounds8To11();
    NextRound(12, Hash(0xf71fc5a9, 0x4798a3f4, 0x8c87346b, 0x8e04ecb9, 0x816fd6e9, 0x436b23e8, 0x1cc92596, 0x32ca2d8c), 0x72be5d74, 0x00000000, 0x87912990, 0x1e578218);
    NextRound(13, Hash(0x87912990, 0xf71fc5a9, 0x4798a3f4, 0x8c87346b, 0x1e578218, 0x816fd6e9, 0x436b23e8, 0x1cc92596), 0x80deb1fe, 0x00000000, 0xd932eb16, 0x745a48de);
    NextRound(14, Hash(0xd932eb16, 0x87912990, 0xf71fc5a9, 0x4798a3f4, 0x745a48de, 0x1e578218, 0x816fd6e9, 0x436b23e8), 0x9bdc06a7, 0x00000000, 0xc0645fde, 0x0b92f20c);
    NextRound(15, Hash(0xc0645fde, 0xd932eb16, 0x87912990, 0xf71fc5a9, 0x0b92f20c, 0x745a48de, 0x1e578218, 0x816fd6e9), 0xc19bf174, 0x00000018, 0xb0fa238e, 0x07590dcd);
  }

  lemma Rounds16To19()
    ensures Rounds(H0, Block(), 20) == Hash(0xe1f20c33, 0xfe777bbf, 0xc2fbd9d1, 0x21da9a9b, 0xb0638179, 0xcc899961, 0x846ee454, 0x8034229c)
  {
    hide Schedule, Rounds, KAt, Block;
    Words16To23();
    Constants16To31();
    Rounds12To15();
    NextRound(16, Hash(0xb0fa238e, 0xc0645fde, 0xd932eb16, 0x87912990, 0x07590dcd, 0x0b92f20c, 0x745a48de, 0x1e578218), 0xe49b69c1, 0x61626380, 0x21da9a9b, 0x8034229c);
    NextRound(17, Hash(0x21da9a9b, 0xb0fa238e, 0xc0645fde, 0xd932eb16, 0x8034229c, 0x07590dcd, 0x0b92f20c, 0x745a48de), 0xefbe4786, 0x000f0000, 0xc2fbd9d1, 0x846ee454);
    NextRound(18, Hash(0xc2fbd9d1, 0x21da9a9b, 0xb0fa238e, 0xc0645fde, 0x846ee454, 0x8034229c, 0x07590dcd, 0x0b92f20c), 0x0fc19dc6, 0x7da86405, 0xfe777bbf, 0xcc899961);
    NextRound(19, Hash(0xfe777bbf, 0xc2fbd9d1, 0x21da9a9b, 0xb0fa238e, 0xcc899961, 0x846ee454, 0x8034229c, 0x07590dcd), 0x240ca1cc, 0x600003c6, 0xe1f20c33, 0xb0638179);
  }

  lemma Rounds20To23()
    ensures Rounds(H0, Block(), 24) == Hash(0xc5d53d8d, 0xa7a3623f, 0xc2606d6d, 0x9dc68b63, 0xaa47c347, 0x49f5114a, 0xe1257970, 0x8ada8930)
  {
    hide Schedule, Rounds, KAt, Block;
    Words16To23();
    Constants16To31();
    Rounds16To19();
    NextRound(20, Hash(0xe1f20c33, 0xfe777bbf, 0xc2fbd9d1, 0x21da9a9b, 0xb0638179, 0xcc899961, 0x846ee454, 0x8034229c), 0x2de92c6f, 0x3e9d7b78, 0x9dc68b63, 0x8ada8930);
    NextRound(21, Hash(0x9dc68b63, 0xe1f20c33, 0xfe777bbf, 0xc2fbd9d1, 0x8ada8930, 0xb0638179, 0xcc899961, 0x846ee454), 0x4a7484aa, 0x0183fc00, 0xc2606d6d, 0xe1257970);
    NextRound(22, Hash(0xc2606d6d, 0x9dc68b63, 0xe1f20c33, 0xfe777bbf, 0xe1257970, 0x8ada8930, 0xb0638179, 0xcc899961), 0x5cb0a9dc, 0x12dcbfdb, 0xa7a3623f, 0x49f5114a);
    NextRound(23, Hash(0xa7a3623f, 0xc2606d6d, 0x9dc68b63, 0xe1f20c33, 0x49f5114a, 0xe1257970, 0x8ada8930, 0xb0638179), 0x76f988da, 0xe2e2c38e, 0xc5d53d8d, 0xaa47c347);
  }

  lemma Rounds24To27()
    ensures Rounds(H0, Block(), 28) == Hash(0x77d37528, 0xb62ec4bc, 0xcde8037d, 0x1c2c2838, 0xedffbff8, 0xc74c6516, 0x14383d8e, 0x2823ef91)
  {
    hide Schedule, Rounds, KAt, Block;
    Words24To31();
    Constants16To31();
    Rounds20To23();
    NextRound(24, Hash(0xc5d53d8d, 0xa7a3623f, 0xc2606d6d, 0x9dc68b63, 0xaa47c347, 0x49f5114a, 0xe1257970, 0x8ada8930), 0x983e5152, 0xc8215c1a, 0x1c2c2838, 0x2823ef91);
    NextRound(25, Hash(0x1c2c2838, 0xc5d53d8d, 0xa7a3623f, 0xc2606d6d, 0x2823ef91, 0xaa47c347, 0x49f5114a, 0xe1257970), 0xa831c66d, 0xb73679a2, 0xcde8037d, 0x14383d8e);
    NextRound(26, Hash(0xcde8037d, 0x1c2c2838, 0xc5d53d8d, 0xa7a3623f, 0x14383d8e, 0x2823ef91, 0xaa47c347, 0x49f5114a), 0xb00327c8, 0xe5bc3909, 0xb62ec4bc, 0xc74c6516);
    NextRound(27, Hash(0xb62ec4bc, 0xcde8037d, 0x1c2c2838, 0xc5d53d8d, 0xc74c6516, 0x14383d8e, 0x2823ef91, 0xaa47c347), 0xbf597fc7, 0x32663c5b, 0x77d37528, 0xedffbff8);
  }

  lemma Rounds28To31()
    ensures Rounds(H0, Block(), 32) == Hash(0x73b33bf5, 0xea992a22, 0xa0060b30, 0x363482c9, 0xba591112, 0x0109ab3a, 0xade79437, 0x6112a3b7)
  {
    hide Schedule, Rounds, KAt, Block;
    Words24To31();
    Constants16To31();
    Rounds24To27();
    NextRound(28, Hash(0x77d37528, 0xb62ec4bc, 0xcde8037d, 0x1c2c2838, 0xedffbff8, 0xc74c6516, 0x14383d8e, 0x2823ef91), 0xc6e00bf3, 0x9d209d67, 0x363482c9, 0x6112a3b7);
    NextRound(29, Hash(0x363482c9, 0x77d37528, 0xb62ec4bc, 0xcde8037d, 0x6112a3b7, 0xedffbff8, 0xc74c6516, 0x14383d8e), 0xd5a79147, 0xec8726cb, 0xa0060b30, 0xade79437);
    NextRound(30, Hash(0xa0060b30, 0x363482c9, 0x77d37528, 0xb62ec4bc, 0xade79437, 0x6112a3b7, 0xedffbff8, 0xc74c6516), 0x06ca6351, 0x702138a4, 0xea992a22, 0x0109ab3a);
    NextRound(31, Hash(0xea992a22, 0xa0060b30, 0x363482c9, 0x77d37528, 0x0109ab3a, 0xade79437, 0x6112a3b7, 0xedffbff8), 0x14292967, 0xd3b7973b, 0x73b33bf5, 0xba591112);
  }

  lemma Rounds32To35()
    ensures Rounds(H0, Block(), 36) == Hash(0x65a0cfe4, 0xa9a7738c, 0xfe604df5, 0x98e12507, 0xf4b002d6, 0x085f3833, 0x59249dd3, 0x9cd9f5f6)
  {
    hide Schedule, Rounds, KAt, Block;
    Words32To39();
    Constants32To47();
    Rounds28To31();
    NextRound(32, Hash(0x73b33bf5, 0xea992a22, 0xa0060b30, 0x363482c9, 0xba591112, 0x0109ab3a, 0xade79437, 0x6112a3b7), 0x27b70a85, 0x93f5997f, 0x98e12507, 0x9cd9f5f6);
    NextRound(33, Hash(0x98e12507, 0x73b33bf5, 0xea992a22, 0xa0060b30, 0x9cd9f5f6, 0xba591112, 0x0109ab3a, 0xade79437), 0x2e1b2138, 0x3b68ba73, 0xfe604df5, 0x59249dd3);
    NextRound(34, Hash(0xfe604df5, 0x98e12507, 0x73b33bf5, 0xea992a22, 0x59249dd3, 0x9cd9f5f6, 0xba591112, 0x0109ab3a), 0x4d2c6dfc, 0xaff4ffc1, 0xa9a7738c, 0x085f3833);
    NextRound(35, Hash(0xa9a7738c, 0xfe604df5, 0x98e12507, 0x73b33bf5, 0x085f3833, 0x59249dd3, 0x9cd9f5f6, 0xba591112), 0x53380d13, 0xf10a5c62, 0x65a0cfe4, 0xf4b002d6);
  }

  lemma Rounds36To39()
    ensures Rounds(H0, Block(), 40) == Hash(0x79ea687a, 0x6dc57a8a, 0x34df1604, 0x41a65cb1, 0x1efbc0a0, 0xf0781bc8, 0xa507a53d, 0x0772a26b)
  {
    hide Schedule, Rounds, KAt, Block;
    Words32To39();
    Constants32To47();
    Rounds32To35();
    NextRound(36, Hash(0x65a0cfe4, 0xa9a7738c, 0xfe604df5, 0x98e12507, 0xf4b002d6, 0x085f3833, 0x59249dd3, 0x9cd9f5f6), 0x650a7354, 0x0a8b3996, 0x41a65cb1, 0x0772a26b);
    NextRound(37, Hash(0x41a65cb1, 0x65a0cfe4, 0xa9a7738c, 0xfe604df5, 0x0772a26b, 0xf4b002d6, 0x085f3833, 0x59249dd3), 0x766a0abb, 0x72af830a, 0x34df1604, 0xa507a53d);
    NextRound(38, Hash(0x34df1604, 0x41a65cb1, 0x65a0cfe4, 0xa9a7738c, 0xa507a53d, 0x0772a26b, 0xf4b002d6, 0x085f3833), 0x81c2c92e, 0x9409e33e, 0x6dc57a8a, 0xf0781bc8);
    NextRound(39, Hash(0x6dc57a8a, 0x34df1604, 0x41a65cb1, 0x65a0cfe4, 0xf0781bc8, 0xa507a53d, 0x0772a26b, 0xf4b002d6), 0x92722c85, 0x24641522, 0x79ea687a, 0x1efbc0a0);
  }

  lemma Rounds40To43()
    ensures Rounds(H0, Block(), 44) == Hash(0x9d4baf93, 0x17aa0dfe, 0xdf46652f, 0xd6670766, 0xfda24c2e, 0xdecd4715, 0x838b2711, 0x26352d63)
  {
    hide Schedule, Rounds, KAt, Block;
    Words40To47();
    Constants32To47();
    Rounds36To39();
    NextRound(40, Hash(0x79ea687a, 0x6dc57a8a, 0x34df1604, 0x41a65cb1, 0x1efbc0a0, 0xf0781bc8, 0xa507a53d, 0x0772a26b), 0xa2bfe8a1, 0x9f47bf94, 0xd6670766, 0x26352d63);
    NextRound(41, Hash(0xd6670766, 0x79ea687a, 0x6dc57a8a, 0x34df1604, 0x26352d63, 0x1efbc0a0, 0xf0781bc8, 0xa507a53d), 0xa81a664b, 0xf0a64f5a, 0xdf46652f, 0x838b2711);
    NextRound(42, Hash(0xdf46652f, 0xd6670766, 0x79ea687a, 0x6dc57a8a, 0x838b2711, 0x26352d63, 0x1efbc0a0, 0xf0781bc8), 0xc24b8b70, 0x3e246a79, 0x17aa0dfe, 0xdecd4715);
    NextRound(43, Hash(0x17aa0dfe, 0xdf46652f, 0xd6670766, 0x79ea687a, 0xdecd4715, 0x838b2711, 0x26352d63, 0x1efbc0a0), 0xc76c51a3, 0x27333ba3, 0x9d4baf93, 0xfda24c2e);
  }

  lemma Rounds44To47()
    ensures Rounds(H0, Block(), 48) == Hash(0x4172328d, 0xa14c14b0, 0x72ab4b91, 0x26628815, 0xfecf0bc6, 0xd57b94a9, 0xb7755da1, 0xa80f11f0)
  {
    hide Schedule, Rounds, KAt, Block;
    Words40To47();
    Constants32To47();
    Rounds40To43();
    NextRound(44, Hash(0x9d4baf93, 0x17aa0dfe, 0xdf46652f, 0xd6670766, 0xfda24c2e, 0xdecd4715, 0x838b2711, 0x26352d63), 0xd192e819, 0x0c4763f2, 0x26628815, 0xa80f11f0);
    NextRound(45, Hash(0x26628815, 0x9d4baf93, 0x17aa0dfe, 0xdf46652f, 0xa80f11f0, 0xfda24c2e, 0xdecd4715, 0x838b2711), 0xd6990624, 0x840abf27, 0x72ab4b91, 0xb7755da1);
    NextRound(46, Hash(0x72ab4b91, 0x26628815, 0x9d4baf93, 0x17aa0dfe, 0xb7755da1, 0xa80f11f0, 0xfda24c2e, 0xdecd4715), 0xf40e3585, 0x7a290d5d, 0xa14c14b0, 0xd57b94a9);
    NextRound(47, Hash(0xa14c14b0, 0x72ab4b91, 0x26628815, 0x9d4baf93, 0xd57b94a9, 0xb7755da1, 0xa80f11f0, 0xfda24c2e), 0x106aa070, 0x065c43da, 0x4172328d, 0xfecf0bc6);
  }

  lemma Rounds48To51()
    ensures Rounds(H0, Block(), 52) == Hash(0x886e7a22, 0x7a0508a1, 0xf11bfaa8, 0x05757ceb, 0x49231c1e, 0x52f1ccf7, 0x6e5c390c, 0xbd714038)
  {
    hide Schedule, Rounds, KAt, Block;
    Words48To55();
    Constants48To63();
    Rounds44To47();
    NextRound(48, Hash(0x4172328d, 0xa14c14b0, 0x72ab4b91, 0x26628815, 0xfecf0bc6, 0xd57b94a9, 0xb7755da1, 0xa80f11f0), 0x19a4c116, 0xfb3e89cb, 0x05757ceb, 0xbd714038);
    NextRound(49, Hash(0x05757ceb, 0x4172328d, 0xa14c14b0, 0x72ab4b91, 0xbd714038, 0xfecf0bc6, 0xd57b94a9, 0xb7755da1), 0x1e376c08, 0xcc7617db, 0xf11bfaa8, 0x6e5c390c);
    NextRound(50, Hash(0xf11bfaa8, 0x05757ceb, 0x4172328d, 0xa14c14b0, 0x6e5c390c, 0xbd714038, 0xfecf0bc6, 0xd57b94a9), 0x2748774c, 0xb9e66c34, 0x7a0508a1, 0x52f1ccf7);
    NextRound(51, Hash(0x7a0508a1, 0xf11bfaa8, 0x05757ceb, 0x4172328d, 0x52f1ccf7, 0x6e5c390c, 0xbd714038, 0xfecf0bc6), 0x34b0bcb5, 0xa9993667, 0x886e7a22, 0x49231c1e);
  }

  lemma Rounds52To55()
    ensures Rounds(H0, Block(), 56) == Hash(0x38cc9913, 0x3ec45cdb, 0xf5702fdb, 0x101fd28f, 0x54cb266b, 0xe50e1b4f, 0x9f4787c3, 0x529e7d00)
  {
    hide Schedule, Rounds, KAt, Block;
    Words48To55();
    Constants48To63();
    Rounds48To51();
    NextRound(52, Hash(0x886e7a22, 0x7a0508a1, 0xf11bfaa8, 0x05757ceb, 0x49231c1e, 0x52f1ccf7, 0x6e5c390c, 0xbd714038), 0x391c0cb3, 0x84badedd, 0x101fd28f, 0x529e7d00);
    NextRound(53, Hash(0x101fd28f, 0x886e7a22, 0x7a0508a1, 0xf11bfaa8, 0x529e7d00, 0x49231c1e, 0x52f1ccf7, 0x6e5c390c), 0x4ed8aa4a, 0xc21462bc, 0xf5702fdb, 0x9f4787c3);
    NextRound(54, Hash(0xf5702fdb, 0x101fd28f, 0x886e7a22, 0x7a0508a1, 0x9f4787c3, 0x529e7d00, 0x49231c1e, 0x52f1ccf7), 0x5b9cca4f, 0x1487472c, 0x3ec45cdb, 0xe50e1b4f);
    NextRound(55, Hash(0x3ec45cdb, 0xf5702fdb, 0x101fd28f, 0x886e7a22, 0xe50e1b4f, 0x9f4787c3, 0x529e7d00, 0x49231c1e), 0x682e6ff3, 0xb20f7a99, 0x38cc9913, 0x54cb266b);
  }

  lemma Rounds56To59()
    ensures Rounds(H0, Block(), 60) == Hash(0xb6ae8fff, 0xffb70472, 0xc062d46f, 0xfcd1887b, 0xb21bad3d, 0x6d83bfc6, 0x7e44008e, 0x9b5e906c)
  {
    hide Schedule, Rounds, KAt, Block;
    Words56To63();
    Constants48To63();
    Rounds52To55();
    NextRound(56, Hash(0x38cc9913, 0x3ec45cdb, 0xf5702fdb, 0x101fd28f, 0x54cb266b, 0xe50e1b4f, 0x9f4787c3, 0x529e7d00), 0x748f82ee, 0xef57b9cd, 0xfcd1887b, 0x9b5e906c);
    NextRound(57, Hash(0xfcd1887b, 0x38cc9913, 0x3ec45cdb, 0xf5702fdb, 0x9b5e906c, 0x54cb266b, 0xe50e1b4f, 0x9f4787c3), 0x78a5636f, 0xebe6b238, 0xc062d46f, 0x7e44008e);
    NextRound(58, Hash(0xc062d46f, 0xfcd1887b, 0x38cc9913, 0x3ec45cdb, 0x7e44008e, 0x9b5e906c, 0x54cb266b, 0xe50e1b4f), 0x84c87814, 0x9fe3095e, 0xffb70472, 0x6d83bfc6);
    NextRound(59, Hash(0xffb70472, 0xc062d46f, 0xfcd1887b, 0x38cc9913, 0x6d83bfc6, 0x7e44008e, 0x9b5e906c, 0x54cb266b), 0x8cc70208, 0x78bc8d4b, 0xb6ae8fff, 0xb21bad3d);
  }

  lemma Rounds60To63()
    ensures Rounds(H0, Block(), 64) == Hash(0x506e3058, 0xd39a2165, 0x04d24d6c, 0xb85e2ce9, 0x5ef50f24, 0xfb121210, 0x948d25b6, 0x961f4894)
  {
    hide Schedule, Rounds, KAt, Block;
    Words56To63();
    Constants48To63();
    Rounds56To59();
    NextRound(60, Hash(0xb6ae8fff, 0xffb70472, 0xc062d46f, 0xfcd1887b, 0xb21bad3d, 0x6d83bfc6, 0x7e44008e, 0x9b5e906c), 0x90befffa, 0xa43fcf15, 0xb85e2ce9, 0x961f4894);
    NextRound(61, Hash(0xb85e2ce9, 0xb6ae8fff, 0xffb70472, 0xc062d46f, 0x961f4894, 0xb21bad3d, 0x6d83bfc6, 0x7e44008e), 0xa4506ceb, 0x668b2ff8, 0x04d24d6c, 0x948d25b6);
    NextRound(62, Hash(0x04d24d6c, 0xb85e2ce9, 0xb6ae8fff, 0xffb70472, 0x948d25b6, 0x961f4894, 0xb21bad3d, 0x6d83bfc6), 0xbef9a3f7, 0xeeaba2cc, 0xd39a2165, 0xfb121210);
    NextRound(63, Hash(0xd39a2165, 0x04d24d6c, 0xb85e2ce9, 0xb6ae8fff, 0xfb121210, 0x948d25b6, 0x961f4894, 0xb21bad3d), 0xc67178f2, 0x12b1edeb, 0x506e3058, 0x5ef50f24);
  }

  // ---- The digest --------------------------------------------------------------------------------------

  lemma LastSums()
    ensures AddHash(H0, Hash(0x506e3058, 0xd39a2165, 0x04d24d6c, 0xb85e2ce9, 0x5ef50f24, 0xfb121210, 0x948d25b6, 0x961f4894)) ==
            Hash(0xba7816bf, 0x8f01cfea, 0x414140de, 0x5dae2223, 0xb00361a3, 0x96177a9c, 0xb410ff61, 0xf20015ad)
  {
  }

  lemma AbcHash()
    ensures Digest(ABC) == Hash(0xba7816bf, 0x8f01cfea, 0x414140de, 0x5dae2223, 0xb00361a3, 0x96177a9c, 0xb410ff61, 0xf20015ad)
  {
    hide Rounds, Schedule, AddHash;
    PaddedAbc();
    Rounds60To63();
    LastSums();
    assert Block()[..0] == [] && Block()[0..] == Block();
    assert HashBlocks([]) == H0;
    assert HashBlocks(Block()) == CompressBlock(H0, Block());
  }

  lemma Text0()
    ensures HexWord(0xba7816bf) == "ba7816bf"
    ensures HexWord(0x8f01cfea) == "8f01cfea"
    ensures HexWord(0x414140de) == "414140de"
    ensures HexWord(0x5dae2223) == "5dae2223"
  {
  }

  lemma Text4()
    ensures HexWord(0xb00361a3) == "b00361a3"
    ensures HexWord(0x96177a9c) == "96177a9c"
    ensures HexWord(0xb410ff61) == "b410ff61"
    ensures HexWord(0xf20015ad) == "f20015ad"
  {
  }

  lemma Texts()
    ensures "ba7816bf" + "8f01cfea" + "414140de" + "5dae2223" == "ba7816bf8f01cfea414140de5dae2223"
    ensures "b00361a3" + "96177a9c" + "b410ff61" + "f20015ad" == "b00361a396177a9cb410ff61f20015ad"
  {
  }

  /** The digest of "abc" is the published one. */
  lemma AbcDigest()
    ensures HexHash(Digest(ABC)) == "ba7816bf8f01cfea414140de5dae2223" + "b00361a396177a9cb410ff61f20015ad"
  {
    hide HexWord, Digest;
    AbcHash();
    Text0();
    Text4();
    Texts();
    var s, t := "ba7816bf8f01cfea414140de5dae2223", "b00361a396177a9cb410ff61f20015ad";
    assert s + t == "ba7816bf" + "8f01cfea" + "414140de" + "5dae2223" + "b00361a3" + "96177a9c" + "b410ff61" + "f20015ad";
  }
}
