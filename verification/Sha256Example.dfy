/**
 The example of FIPS 180-4 for SHA-256: the digest of "abc", on which every constant, rotation, round and byte of
 output has its effect. Each line of the rounds is one step of the standard's computation, in its own words.
 */
module Sha256Example {
  import opened HashPadding
  import opened Sha256

  const ABC: seq<Byte> := [0x61, 0x62, 0x63]

  /** The one padded block of "abc", as words. */
  const M: seq<Word> := [
    0x61626380, 0x00000000, 0x00000000, 0x00000000, 0x00000000, 0x00000000, 0x00000000, 0x00000000,
    0x00000000, 0x00000000, 0x00000000, 0x00000000, 0x00000000, 0x00000000, 0x00000000, 0x00000018]

  // ------------------------------------------------------------------ the functions, with their shifts written out

  function Xor3(a: Word, b: Word, c: Word): Word { a ^ b ^ c }

  lemma Rotations(x: Word)
    ensures RotateRight(x, 2) == (x >> 2) | (x << 30)
    ensures RotateRight(x, 6) == (x >> 6) | (x << 26)
    ensures RotateRight(x, 7) == (x >> 7) | (x << 25)
    ensures RotateRight(x, 11) == (x >> 11) | (x << 21)
    ensures RotateRight(x, 13) == (x >> 13) | (x << 19)
    ensures RotateRight(x, 17) == (x >> 17) | (x << 15)
    ensures RotateRight(x, 18) == (x >> 18) | (x << 14)
    ensures RotateRight(x, 19) == (x >> 19) | (x << 13)
    ensures RotateRight(x, 22) == (x >> 22) | (x << 10)
    ensures RotateRight(x, 25) == (x >> 25) | (x << 7)
  {
  }

  function Upper0(x: Word): Word {
    Xor3((x >> 2) | (x << 30), (x >> 13) | (x << 19), (x >> 22) | (x << 10))
  }

  function Upper1(x: Word): Word {
    Xor3((x >> 6) | (x << 26), (x >> 11) | (x << 21), (x >> 25) | (x << 7))
  }

  function Lower0(x: Word): Word {
    Xor3((x >> 7) | (x << 25), (x >> 18) | (x << 14), x >> 3)
  }

  function Lower1(x: Word): Word {
    Xor3((x >> 17) | (x << 15), (x >> 19) | (x << 13), x >> 10)
  }

  lemma UpperSigma0Folds(x: Word)
    ensures UpperSigma0(x) == Xor3(RotateRight(x, 2), RotateRight(x, 13), RotateRight(x, 22))
  {
    hide RotateRight;
  }

  lemma UpperSigma0Is(x: Word)
    ensures UpperSigma0(x) == Upper0(x)
  {
    UpperSigma0Folds(x);
    Rotations(x);
    hide UpperSigma0, RotateRight, Xor3;
  }

  lemma UpperSigma1Folds(x: Word)
    ensures UpperSigma1(x) == Xor3(RotateRight(x, 6), RotateRight(x, 11), RotateRight(x, 25))
  {
    hide RotateRight;
  }

  lemma UpperSigma1Is(x: Word)
    ensures UpperSigma1(x) == Upper1(x)
  {
    UpperSigma1Folds(x);
    Rotations(x);
    hide UpperSigma1, RotateRight, Xor3;
  }

  lemma LowerSigma0Folds(x: Word)
    ensures LowerSigma0(x) == Xor3(RotateRight(x, 7), RotateRight(x, 18), x >> 3)
  {
    hide RotateRight;
  }

  lemma LowerSigma0Is(x: Word)
    ensures LowerSigma0(x) == Lower0(x)
  {
    LowerSigma0Folds(x);
    Rotations(x);
    hide LowerSigma0, RotateRight, Xor3;
  }

  lemma LowerSigma1Folds(x: Word)
    ensures LowerSigma1(x) == Xor3(RotateRight(x, 17), RotateRight(x, 19), x >> 10)
  {
    hide RotateRight;
  }

  lemma LowerSigma1Is(x: Word)
    ensures LowerSigma1(x) == Lower1(x)
  {
    LowerSigma1Folds(x);
    Rotations(x);
    hide LowerSigma1, RotateRight, Xor3;
  }

  // ------------------------------------------------------------------ one step

  lemma Lengths()
    ensures |M| == 16 && |INITIAL| == 8 && |K| == ROUNDS
  {
  }

  /** Word `t` of the schedule is `w`, as it follows from earlier words. */
  ghost predicate WordIs(t: nat, w: Word) {
    Lengths();
    if t < 16 then M[t] == w
    else exists w16, w15, w7, w2 ::
           && WordIs(t - 16, w16) && WordIs(t - 15, w15) && WordIs(t - 7, w7) && WordIs(t - 2, w2)
           && w == Sum4(LowerSigma1(w2), w7, LowerSigma0(w15), w16)
  }

  /** After `t` rounds the working variables have these values, as they follow from those before. */
  ghost predicate After(t: nat, s: Working)
    requires t <= ROUNDS
  {
    Lengths();
    if t == 0 then s == Load(INITIAL)
    else exists before, w {:trigger After(t - 1, before), WordIs(t - 1, w)} ::
           After(t - 1, before) && WordIs(t - 1, w) && s == Round(before, K[t - 1], w)
  }

  lemma {:induction false} WordIsScheduled(t: nat, w: Word)
    requires WordIs(t, w)
    ensures |M| == 16 && Scheduled(M, t) == w
  {
    hide LowerSigma0, LowerSigma1, Sum4, M;
    Lengths();
    if t >= 16 {
      var w16, w15, w7, w2 :|
        && WordIs(t - 16, w16) && WordIs(t - 15, w15) && WordIs(t - 7, w7) && WordIs(t - 2, w2)
        && w == Sum4(LowerSigma1(w2), w7, LowerSigma0(w15), w16);
      WordIsScheduled(t - 16, w16);
      WordIsScheduled(t - 15, w15);
      WordIsScheduled(t - 7, w7);
      WordIsScheduled(t - 2, w2);
    }
  }

  lemma {:induction false} AfterIsRounds(t: nat, s: Working)
    requires t <= ROUNDS && After(t, s)
    ensures |M| == 16 && |INITIAL| == 8 && Rounds(Load(INITIAL), M, t) == s
  {
    hide Round, Load, Scheduled, WordIs, K, M, INITIAL;
    Lengths();
    if t > 0 {
      var before, w :| After(t - 1, before) && WordIs(t - 1, w) && s == Round(before, K[t - 1], w);
      AfterIsRounds(t - 1, before);
      WordIsScheduled(t - 1, w);
    }
  }

  lemma First(t: nat, w: Word)
    requires t < 16 && (Lengths(); M[t] == w)
    ensures WordIs(t, w)
  {
  }

  /** The next word of the schedule. */
  lemma Extend(t: nat, w16: Word, w15: Word, w7: Word, w2: Word, w: Word)
    requires t >= 16 && WordIs(t - 16, w16) && WordIs(t - 15, w15) && WordIs(t - 7, w7) && WordIs(t - 2, w2)
    requires Sum4(Lower1(w2), w7, Lower0(w15), w16) == w
    ensures WordIs(t, w)
  {
    hide LowerSigma0, LowerSigma1, Lower0, Lower1, M, Sum4;
    LowerSigma0Is(w15);
    LowerSigma1Is(w2);
  }

  function Temporary1(s: Working, k: Word, w: Word): Word {
    Add(Add(Add(Add(s.h, Upper1(s.e)), Ch(s.e, s.f, s.g)), k), w)
  }

  function Temporary2(s: Working): Word {
    Add(Upper0(s.a), Maj(s.a, s.b, s.c))
  }

  lemma RoundIs(s: Working, k: Word, w: Word)
    ensures var t1, t2 := Temporary1(s, k, w), Temporary2(s);
      Round(s, k, w) == Working(Add(t1, t2), s.a, s.b, s.c, Add(s.d, t1), s.e, s.f, s.g)
  {
    hide UpperSigma0, UpperSigma1, Upper0, Upper1, Ch, Maj, Add;
    UpperSigma0Is(s.a);
    UpperSigma1Is(s.e);
  }

  /** The next round, with its constant, its word, and the two new values. */
  lemma Step(t: nat, s: Working, k: Word, w: Word, first: Word, fifth: Word) returns (r: Working)
    requires t < ROUNDS && After(t, s) && WordIs(t, w) && (Lengths(); K[t] == k)
    requires Add(Temporary1(s, k, w), Temporary2(s)) == first && Add(s.d, Temporary1(s, k, w)) == fifth
    ensures r == Working(first, s.a, s.b, s.c, fifth, s.e, s.f, s.g) && After(t + 1, r)
  {
    hide Temporary1, Temporary2, Add, Round, WordIs, K;
    Lengths();
    RoundIs(s, k, w);
    r := Working(first, s.a, s.b, s.c, fifth, s.e, s.f, s.g);
    assert r == Round(s, K[t], w);
  }

  // ------------------------------------------------------------------ the computation

  lemma BlockWords()
    ensures |M| == 16
    ensures M[0] == 0x61626380 && M[1] == 0x00000000 && M[2] == 0x00000000 && M[3] == 0x00000000
    ensures M[4] == 0x00000000 && M[5] == 0x00000000 && M[6] == 0x00000000 && M[7] == 0x00000000
    ensures M[8] == 0x00000000 && M[9] == 0x00000000 && M[10] == 0x00000000 && M[11] == 0x00000000
    ensures M[12] == 0x00000000 && M[13] == 0x00000000 && M[14] == 0x00000000 && M[15] == 0x00000018
  {
  }

  lemma Constants0()
    ensures |K| == ROUNDS
    ensures K[0] == 0x428a2f98 && K[1] == 0x71374491 && K[2] == 0xb5c0fbcf && K[3] == 0xe9b5dba5
    ensures K[4] == 0x3956c25b && K[5] == 0x59f111f1 && K[6] == 0x923f82a4 && K[7] == 0xab1c5ed5
    ensures K[8] == 0xd807aa98 && K[9] == 0x12835b01 && K[10] == 0x243185be && K[11] == 0x550c7dc3
    ensures K[12] == 0x72be5d74 && K[13] == 0x80deb1fe && K[14] == 0x9bdc06a7 && K[15] == 0xc19bf174
  {
  }

  lemma Constants16()
    ensures |K| == ROUNDS
    ensures K[16] == 0xe49b69c1 && K[17] == 0xefbe4786 && K[18] == 0x0fc19dc6 && K[19] == 0x240ca1cc
    ensures K[20] == 0x2de92c6f && K[21] == 0x4a7484aa && K[22] == 0x5cb0a9dc && K[23] == 0x76f988da
    ensures K[24] == 0x983e5152 && K[25] == 0xa831c66d && K[26] == 0xb00327c8 && K[27] == 0xbf597fc7
    ensures K[28] == 0xc6e00bf3 && K[29] == 0xd5a79147 && K[30] == 0x06ca6351 && K[31] == 0x14292967
  {
  }

  lemma Constants32()
    ensures |K| == ROUNDS
    ensures K[32] == 0x27b70a85 && K[33] == 0x2e1b2138 && K[34] == 0x4d2c6dfc && K[35] == 0x53380d13
    ensures K[36] == 0x650a7354 && K[37] == 0x766a0abb && K[38] == 0x81c2c92e && K[39] == 0x92722c85
    ensures K[40] == 0xa2bfe8a1 && K[41] == 0xa81a664b && K[42] == 0xc24b8b70 && K[43] == 0xc76c51a3
    ensures K[44] == 0xd192e819 && K[45] == 0xd6990624 && K[46] == 0xf40e3585 && K[47] == 0x106aa070
  {
  }

  lemma Constants48()
    ensures |K| == ROUNDS
    ensures K[48] == 0x19a4c116 && K[49] == 0x1e376c08 && K[50] == 0x2748774c && K[51] == 0x34b0bcb5
    ensures K[52] == 0x391c0cb3 && K[53] == 0x4ed8aa4a && K[54] == 0x5b9cca4f && K[55] == 0x682e6ff3
    ensures K[56] == 0x748f82ee && K[57] == 0x78a5636f && K[58] == 0x84c87814 && K[59] == 0x8cc70208
    ensures K[60] == 0x90befffa && K[61] == 0xa4506ceb && K[62] == 0xbef9a3f7 && K[63] == 0xc67178f2
  {
  }

  lemma Words16()
    ensures WordIs(16, 0x61626380) && WordIs(17, 0x000f0000) && WordIs(18, 0x7da86405) && WordIs(19, 0x600003c6)
    ensures WordIs(20, 0x3e9d7b78) && WordIs(21, 0x0183fc00) && WordIs(22, 0x12dcbfdb) && WordIs(23, 0xe2e2c38e)
    ensures WordIs(24, 0xc8215c1a) && WordIs(25, 0xb73679a2) && WordIs(26, 0xe5bc3909) && WordIs(27, 0x32663c5b)
    ensures WordIs(28, 0x9d209d67) && WordIs(29, 0xec8726cb) && WordIs(30, 0x702138a4) && WordIs(31, 0xd3b7973b)
  {
    hide WordIs, M;
    BlockWords();
    First(0, 0x61626380);
    First(1, 0x00000000);
    First(2, 0x00000000);
    First(3, 0x00000000);
    First(4, 0x00000000);
    First(5, 0x00000000);
    First(6, 0x00000000);
    First(7, 0x00000000);
    First(8, 0x00000000);
    First(9, 0x00000000);
    First(10, 0x00000000);
    First(11, 0x00000000);
    First(12, 0x00000000);
    First(13, 0x00000000);
    First(14, 0x00000000);
    First(15, 0x00000018);
    Extend(16, 0x61626380, 0x00000000, 0x00000000, 0x00000000, 0x61626380);
    Extend(17, 0x00000000, 0x00000000, 0x00000000, 0x00000018, 0x000f0000);
    Extend(18, 0x00000000, 0x00000000, 0x00000000, 0x61626380, 0x7da86405);
    Extend(19, 0x00000000, 0x00000000, 0x00000000, 0x000f0000, 0x600003c6);
    Extend(20, 0x00000000, 0x00000000, 0x00000000, 0x7da86405, 0x3e9d7b78);
    Extend(21, 0x00000000, 0x00000000, 0x00000000, 0x600003c6, 0x0183fc00);
    Extend(22, 0x00000000, 0x00000000, 0x00000018, 0x3e9d7b78, 0x12dcbfdb);
    Extend(23, 0x00000000, 0x00000000, 0x61626380, 0x0183fc00, 0xe2e2c38e);
    Extend(24, 0x00000000, 0x00000000, 0x000f0000, 0x12dcbfdb, 0xc8215c1a);
    Extend(25, 0x00000000, 0x00000000, 0x7da86405, 0xe2e2c38e, 0xb73679a2);
    Extend(26, 0x00000000, 0x00000000, 0x600003c6, 0xc8215c1a, 0xe5bc3909);
    Extend(27, 0x00000000, 0x00000000, 0x3e9d7b78, 0xb73679a2, 0x32663c5b);
    Extend(28, 0x00000000, 0x00000000, 0x0183fc00, 0xe5bc3909, 0x9d209d67);
    Extend(29, 0x00000000, 0x00000000, 0x12dcbfdb, 0x32663c5b, 0xec8726cb);
    Extend(30, 0x00000000, 0x00000018, 0xe2e2c38e, 0x9d209d67, 0x702138a4);
    Extend(31, 0x00000018, 0x61626380, 0xc8215c1a, 0xec8726cb, 0xd3b7973b);
  }

  lemma Words32()
    ensures WordIs(32, 0x93f5997f) && WordIs(33, 0x3b68ba73) && WordIs(34, 0xaff4ffc1) && WordIs(35, 0xf10a5c62)
    ensures WordIs(36, 0x0a8b3996) && WordIs(37, 0x72af830a) && WordIs(38, 0x9409e33e) && WordIs(39, 0x24641522)
    ensures WordIs(40, 0x9f47bf94) && WordIs(41, 0xf0a64f5a) && WordIs(42, 0x3e246a79) && WordIs(43, 0x27333ba3)
    ensures WordIs(44, 0x0c4763f2) && WordIs(45, 0x840abf27) && WordIs(46, 0x7a290d5d) && WordIs(47, 0x065c43da)
  {
    hide WordIs, M;
    Words16();
    Extend(32, 0x61626380, 0x000f0000, 0xb73679a2, 0x702138a4, 0x93f5997f);
    Extend(33, 0x000f0000, 0x7da86405, 0xe5bc3909, 0xd3b7973b, 0x3b68ba73);
    Extend(34, 0x7da86405, 0x600003c6, 0x32663c5b, 0x93f5997f, 0xaff4ffc1);
    Extend(35, 0x600003c6, 0x3e9d7b78, 0x9d209d67, 0x3b68ba73, 0xf10a5c62);
    Extend(36, 0x3e9d7b78, 0x0183fc00, 0xec8726cb, 0xaff4ffc1, 0x0a8b3996);
    Extend(37, 0x0183fc00, 0x12dcbfdb, 0x702138a4, 0xf10a5c62, 0x72af830a);
    Extend(38, 0x12dcbfdb, 0xe2e2c38e, 0xd3b7973b, 0x0a8b3996, 0x9409e33e);
    Extend(39, 0xe2e2c38e, 0xc8215c1a, 0x93f5997f, 0x72af830a, 0x24641522);
    Extend(40, 0xc8215c1a, 0xb73679a2, 0x3b68ba73, 0x9409e33e, 0x9f47bf94);
    Extend(41, 0xb73679a2, 0xe5bc3909, 0xaff4ffc1, 0x24641522, 0xf0a64f5a);
    Extend(42, 0xe5bc3909, 0x32663c5b, 0xf10a5c62, 0x9f47bf94, 0x3e246a79);
    Extend(43, 0x32663c5b, 0x9d209d67, 0x0a8b3996, 0xf0a64f5a, 0x27333ba3);
    Extend(44, 0x9d209d67, 0xec8726cb, 0x72af830a, 0x3e246a79, 0x0c4763f2);
    Extend(45, 0xec8726cb, 0x702138a4, 0x9409e33e, 0x27333ba3, 0x840abf27);
    Extend(46, 0x702138a4, 0xd3b7973b, 0x24641522, 0x0c4763f2, 0x7a290d5d);
    Extend(47, 0xd3b7973b, 0x93f5997f, 0x9f47bf94, 0x840abf27, 0x065c43da);
  }

  lemma Words48()
    ensures WordIs(48, 0xfb3e89cb) && WordIs(49, 0xcc7617db) && WordIs(50, 0xb9e66c34) && WordIs(51, 0xa9993667)
    ensures WordIs(52, 0x84badedd) && WordIs(53, 0xc21462bc) && WordIs(54, 0x1487472c) && WordIs(55, 0xb20f7a99)
    ensures WordIs(56, 0xef57b9cd) && WordIs(57, 0xebe6b238) && WordIs(58, 0x9fe3095e) && WordIs(59, 0x78bc8d4b)
    ensures WordIs(60, 0xa43fcf15) && WordIs(61, 0x668b2ff8) && WordIs(62, 0xeeaba2cc) && WordIs(63, 0x12b1edeb)
  {
    hide WordIs, M;
    Words32();
    Extend(48, 0x93f5997f, 0x3b68ba73, 0xf0a64f5a, 0x7a290d5d, 0xfb3e89cb);
    Extend(49, 0x3b68ba73, 0xaff4ffc1, 0x3e246a79, 0x065c43da, 0xcc7617db);
    Extend(50, 0xaff4ffc1, 0xf10a5c62, 0x27333ba3, 0xfb3e89cb, 0xb9e66c34);
    Extend(51, 0xf10a5c62, 0x0a8b3996, 0x0c4763f2, 0xcc7617db, 0xa9993667);
    Extend(52, 0x0a8b3996, 0x72af830a, 0x840abf27, 0xb9e66c34, 0x84badedd);
    Extend(53, 0x72af830a, 0x9409e33e, 0x7a290d5d, 0xa9993667, 0xc21462bc);
    Extend(54, 0x9409e33e, 0x24641522, 0x065c43da, 0x84badedd, 0x1487472c);
    Extend(55, 0x24641522, 0x9f47bf94, 0xfb3e89cb, 0xc21462bc, 0xb20f7a99);
    Extend(56, 0x9f47bf94, 0xf0a64f5a, 0xcc7617db, 0x1487472c, 0xef57b9cd);
    Extend(57, 0xf0a64f5a, 0x3e246a79, 0xb9e66c34, 0xb20f7a99, 0xebe6b238);
    Extend(58, 0x3e246a79, 0x27333ba3, 0xa9993667, 0xef57b9cd, 0x9fe3095e);
    Extend(59, 0x27333ba3, 0x0c4763f2, 0x84badedd, 0xebe6b238, 0x78bc8d4b);
    Extend(60, 0x0c4763f2, 0x840abf27, 0xc21462bc, 0x9fe3095e, 0xa43fcf15);
    Extend(61, 0x840abf27, 0x7a290d5d, 0x1487472c, 0x78bc8d4b, 0x668b2ff8);
    Extend(62, 0x7a290d5d, 0x065c43da, 0xb20f7a99, 0xa43fcf15, 0xeeaba2cc);
    Extend(63, 0x065c43da, 0xfb3e89cb, 0xef57b9cd, 0x668b2ff8, 0x12b1edeb);
  }

  lemma Rounds0()
    ensures After(0, Working(0x6a09e667, 0xbb67ae85, 0x3c6ef372, 0xa54ff53a, 0x510e527f, 0x9b05688c, 0x1f83d9ab,
      0x5be0cd19))
  {
  }

  lemma Rounds16()
    ensures After(16, Working(0xb0fa238e, 0xc0645fde, 0xd932eb16, 0x87912990, 0x07590dcd, 0x0b92f20c, 0x745a48de,
      0x1e578218))
  {
    hide After, WordIs, M, K;
    Constants0();
    Rounds0();
    BlockWords();
    First(0, 0x61626380);
    First(1, 0x00000000);
    First(2, 0x00000000);
    First(3, 0x00000000);
    First(4, 0x00000000);
    First(5, 0x00000000);
    First(6, 0x00000000);
    First(7, 0x00000000);
    First(8, 0x00000000);
    First(9, 0x00000000);
    First(10, 0x00000000);
    First(11, 0x00000000);
    First(12, 0x00000000);
    First(13, 0x00000000);
    First(14, 0x00000000);
    First(15, 0x00000018);
    var s := Working(0x6a09e667, 0xbb67ae85, 0x3c6ef372, 0xa54ff53a, 0x510e527f, 0x9b05688c, 0x1f83d9ab,
      0x5be0cd19);
    s := Step(0, s, 0x428a2f98, 0x61626380, 0x5d6aebcd, 0xfa2a4622);
    s := Step(1, s, 0x71374491, 0x00000000, 0x5a6ad9ad, 0x78ce7989);
    s := Step(2, s, 0xb5c0fbcf, 0x00000000, 0xc8c347a7, 0xf92939eb);
    s := Step(3, s, 0xe9b5dba5, 0x00000000, 0xd550f666, 0x24e00850);
    s := Step(4, s, 0x3956c25b, 0x00000000, 0x04409a6a, 0x43ada245);
    s := Step(5, s, 0x59f111f1, 0x00000000, 0x2b4209f5, 0x714260ad);
    s := Step(6, s, 0x923f82a4, 0x00000000, 0xe5030380, 0x9b27a401);
    s := Step(7, s, 0xab1c5ed5, 0x00000000, 0x85a07b5f, 0x0c657a79);
    s := Step(8, s, 0xd807aa98, 0x00000000, 0x8e04ecb9, 0x32ca2d8c);
    s := Step(9, s, 0x12835b01, 0x00000000, 0x8c87346b, 0x1cc92596);
    s := Step(10, s, 0x243185be, 0x00000000, 0x4798a3f4, 0x436b23e8);
    s := Step(11, s, 0x550c7dc3, 0x00000000, 0xf71fc5a9, 0x816fd6e9);
    s := Step(12, s, 0x72be5d74, 0x00000000, 0x87912990, 0x1e578218);
    s := Step(13, s, 0x80deb1fe, 0x00000000, 0xd932eb16, 0x745a48de);
    s := Step(14, s, 0x9bdc06a7, 0x00000000, 0xc0645fde, 0x0b92f20c);
    s := Step(15, s, 0xc19bf174, 0x00000018, 0xb0fa238e, 0x07590dcd);
  }

  lemma Rounds32()
    ensures After(32, Working(0x73b33bf5, 0xea992a22, 0xa0060b30, 0x363482c9, 0xba591112, 0x0109ab3a, 0xade79437,
      0x6112a3b7))
  {
    hide After, WordIs, M, K;
    Constants16();
    Rounds16();
    Words16();
    var s := Working(0xb0fa238e, 0xc0645fde, 0xd932eb16, 0x87912990, 0x07590dcd, 0x0b92f20c, 0x745a48de,
      0x1e578218);
    s := Step(16, s, 0xe49b69c1, 0x61626380, 0x21da9a9b, 0x8034229c);
    s := Step(17, s, 0xefbe4786, 0x000f0000, 0xc2fbd9d1, 0x846ee454);
    s := Step(18, s, 0x0fc19dc6, 0x7da86405, 0xfe777bbf, 0xcc899961);
    s := Step(19, s, 0x240ca1cc, 0x600003c6, 0xe1f20c33, 0xb0638179);
    s := Step(20, s, 0x2de92c6f, 0x3e9d7b78, 0x9dc68b63, 0x8ada8930);
    s := Step(21, s, 0x4a7484aa, 0x0183fc00, 0xc2606d6d, 0xe1257970);
    s := Step(22, s, 0x5cb0a9dc, 0x12dcbfdb, 0xa7a3623f, 0x49f5114a);
    s := Step(23, s, 0x76f988da, 0xe2e2c38e, 0xc5d53d8d, 0xaa47c347);
    s := Step(24, s, 0x983e5152, 0xc8215c1a, 0x1c2c2838, 0x2823ef91);
    s := Step(25, s, 0xa831c66d, 0xb73679a2, 0xcde8037d, 0x14383d8e);
    s := Step(26, s, 0xb00327c8, 0xe5bc3909, 0xb62ec4bc, 0xc74c6516);
    s := Step(27, s, 0xbf597fc7, 0x32663c5b, 0x77d37528, 0xedffbff8);
    s := Step(28, s, 0xc6e00bf3, 0x9d209d67, 0x363482c9, 0x6112a3b7);
    s := Step(29, s, 0xd5a79147, 0xec8726cb, 0xa0060b30, 0xade79437);
    s := Step(30, s, 0x06ca6351, 0x702138a4, 0xea992a22, 0x0109ab3a);
    s := Step(31, s, 0x14292967, 0xd3b7973b, 0x73b33bf5, 0xba591112);
  }

  lemma Rounds48()
    ensures After(48, Working(0x4172328d, 0xa14c14b0, 0x72ab4b91, 0x26628815, 0xfecf0bc6, 0xd57b94a9, 0xb7755da1,
      0xa80f11f0))
  {
    hide After, WordIs, M, K;
    Constants32();
    Rounds32();
    Words32();
    var s := Working(0x73b33bf5, 0xea992a22, 0xa0060b30, 0x363482c9, 0xba591112, 0x0109ab3a, 0xade79437,
      0x6112a3b7);
    s := Step(32, s, 0x27b70a85, 0x93f5997f, 0x98e12507, 0x9cd9f5f6);
    s := Step(33, s, 0x2e1b2138, 0x3b68ba73, 0xfe604df5, 0x59249dd3);
    s := Step(34, s, 0x4d2c6dfc, 0xaff4ffc1, 0xa9a7738c, 0x085f3833);
    s := Step(35, s, 0x53380d13, 0xf10a5c62, 0x65a0cfe4, 0xf4b002d6);
    s := Step(36, s, 0x650a7354, 0x0a8b3996, 0x41a65cb1, 0x0772a26b);
    s := Step(37, s, 0x766a0abb, 0x72af830a, 0x34df1604, 0xa507a53d);
    s := Step(38, s, 0x81c2c92e, 0x9409e33e, 0x6dc57a8a, 0xf0781bc8);
    s := Step(39, s, 0x92722c85, 0x24641522, 0x79ea687a, 0x1efbc0a0);
    s := Step(40, s, 0xa2bfe8a1, 0x9f47bf94, 0xd6670766, 0x26352d63);
    s := Step(41, s, 0xa81a664b, 0xf0a64f5a, 0xdf46652f, 0x838b2711);
    s := Step(42, s, 0xc24b8b70, 0x3e246a79, 0x17aa0dfe, 0xdecd4715);
    s := Step(43, s, 0xc76c51a3, 0x27333ba3, 0x9d4baf93, 0xfda24c2e);
    s := Step(44, s, 0xd192e819, 0x0c4763f2, 0x26628815, 0xa80f11f0);
    s := Step(45, s, 0xd6990624, 0x840abf27, 0x72ab4b91, 0xb7755da1);
    s := Step(46, s, 0xf40e3585, 0x7a290d5d, 0xa14c14b0, 0xd57b94a9);
    s := Step(47, s, 0x106aa070, 0x065c43da, 0x4172328d, 0xfecf0bc6);
  }

  lemma Rounds64()
    ensures After(64, Working(0x506e3058, 0xd39a2165, 0x04d24d6c, 0xb85e2ce9, 0x5ef50f24, 0xfb121210, 0x948d25b6,
      0x961f4894))
  {
    hide After, WordIs, M, K;
    Constants48();
    Rounds48();
    Words48();
    var s := Working(0x4172328d, 0xa14c14b0, 0x72ab4b91, 0x26628815, 0xfecf0bc6, 0xd57b94a9, 0xb7755da1,
      0xa80f11f0);
    s := Step(48, s, 0x19a4c116, 0xfb3e89cb, 0x05757ceb, 0xbd714038);
    s := Step(49, s, 0x1e376c08, 0xcc7617db, 0xf11bfaa8, 0x6e5c390c);
    s := Step(50, s, 0x2748774c, 0xb9e66c34, 0x7a0508a1, 0x52f1ccf7);
    s := Step(51, s, 0x34b0bcb5, 0xa9993667, 0x886e7a22, 0x49231c1e);
    s := Step(52, s, 0x391c0cb3, 0x84badedd, 0x101fd28f, 0x529e7d00);
    s := Step(53, s, 0x4ed8aa4a, 0xc21462bc, 0xf5702fdb, 0x9f4787c3);
    s := Step(54, s, 0x5b9cca4f, 0x1487472c, 0x3ec45cdb, 0xe50e1b4f);
    s := Step(55, s, 0x682e6ff3, 0xb20f7a99, 0x38cc9913, 0x54cb266b);
    s := Step(56, s, 0x748f82ee, 0xef57b9cd, 0xfcd1887b, 0x9b5e906c);
    s := Step(57, s, 0x78a5636f, 0xebe6b238, 0xc062d46f, 0x7e44008e);
    s := Step(58, s, 0x84c87814, 0x9fe3095e, 0xffb70472, 0x6d83bfc6);
    s := Step(59, s, 0x8cc70208, 0x78bc8d4b, 0xb6ae8fff, 0xb21bad3d);
    s := Step(60, s, 0x90befffa, 0xa43fcf15, 0xb85e2ce9, 0x961f4894);
    s := Step(61, s, 0xa4506ceb, 0x668b2ff8, 0x04d24d6c, 0x948d25b6);
    s := Step(62, s, 0xbef9a3f7, 0xeeaba2cc, 0xd39a2165, 0xfb121210);
    s := Step(63, s, 0xc67178f2, 0x12b1edeb, 0x506e3058, 0x5ef50f24);
  }

  // ------------------------------------------------------------------ the digest

  /** The end mark, the least number of zeros, and the twenty-four bits of the message. */
  const BLOCK_BYTES: seq<Byte> := ABC + [0x80] + Zeros(59) + [24]

  lemma {:induction false} SmallBigEndian(n: nat, count: nat)
    requires n < 256 && count > 0
    ensures BigEndian(n, count) == Zeros(count - 1) + [n]
  {
    if count > 1 {
      ZeroBigEndian(count - 1);
      assert BigEndian(n, count) == BigEndian(0, count - 1) + [n];
    } else {
      assert BigEndian(n, 1) == BigEndian(n / 256, 0) + [n];
    }
  }

  lemma {:induction false} ZeroBigEndian(count: nat)
    ensures BigEndian(0, count) == Zeros(count)
  {
    if count > 0 { ZeroBigEndian(count - 1); }
  }

  lemma PaddedAbc()
    ensures Padded(ABC, BLOCK, 8) == BLOCK_BYTES && |BLOCK_BYTES| == BLOCK
  {
    assert ZeroCount(3, BLOCK, 8) == 52 by {
      assert Fits(3, 52, BLOCK, 8);
    }
    SmallBigEndian(24, 8);
  }

  lemma BytesOfBlock(i: nat)
    requires i < BLOCK
    ensures |BLOCK_BYTES| == BLOCK
    ensures BLOCK_BYTES[i] == if i == 0 then 0x61 else if i == 1 then 0x62 else if i == 2 then 0x63
                              else if i == 3 then 0x80 else if i == BLOCK - 1 then 24 else 0
  {
  }

  lemma WordOfBlock(i: nat)
    requires i < 16
    ensures |BLOCK_BYTES| == BLOCK && |M| == 16 && WordAt(BLOCK_BYTES, 4 * i) == M[i]
  {
    BlockWords();
    hide M, BLOCK_BYTES;
    BytesOfBlock(4 * i);
    BytesOfBlock(4 * i + 1);
    BytesOfBlock(4 * i + 2);
    BytesOfBlock(4 * i + 3);
  }

  lemma {:induction false} WordsOfBlock(count: nat)
    requires count <= 16
    ensures |BLOCK_BYTES| == BLOCK && |M| == 16 && Words(BLOCK_BYTES[..4 * count], count) == M[..count]
  {
    hide WordAt, M, BLOCK_BYTES;
    if count > 0 {
      WordOfBlock(count - 1);
      WordsOfBlock(count - 1);
      var part, last := BLOCK_BYTES[..4 * count], 4 * (count - 1);
      assert part[..last] == BLOCK_BYTES[..last];
      SameWord(BLOCK_BYTES, part, 0, last);
      assert M[..count] == M[..count - 1] + [M[count - 1]];
    } else {
      WordOfBlock(0);
      assert BLOCK_BYTES[..0] == [];
    }
  }

  /** The hash value after the one block. */
  const HASH: seq<Word> := [
    0xba7816bf, 0x8f01cfea, 0x414140de, 0x5dae2223, 0xb00361a3, 0x96177a9c, 0xb410ff61, 0xf20015ad]

  /** The digest in the example of the standard. */
  lemma DigestOfAbc()
    ensures Digest(ABC) ==
      [0xba, 0x78, 0x16, 0xbf]
      + [0x8f, 0x01, 0xcf, 0xea]
      + [0x41, 0x41, 0x40, 0xde]
      + [0x5d, 0xae, 0x22, 0x23]
      + [0xb0, 0x03, 0x61, 0xa3]
      + [0x96, 0x17, 0x7a, 0x9c]
      + [0xb4, 0x10, 0xff, 0x61]
      + [0xf2, 0x00, 0x15, 0xad]
  {
    hide Words, Padded, M, After, Rounds;
    Lengths();
    assert Compressed(INITIAL, M) == HASH by {
      Rounds64();
      AfterIsRounds(64, Working(0x506e3058, 0xd39a2165, 0x04d24d6c, 0xb85e2ce9, 0x5ef50f24, 0xfb121210, 0x948d25b6,
        0x961f4894));
    }
    hide Compressed, INITIAL, HASH;
    PaddedAbc();
    WordsOfBlock(16);
    assert M[..16] == M && BLOCK_BYTES[..4 * 16] == BLOCK_BYTES && BLOCK_BYTES[BLOCK..] == [];
    ChainStep(INITIAL, BLOCK_BYTES);
    ChainEnds(HASH);
    OutputOfHash();
  }

  lemma Shifted(w: Word)
    ensures ByteOf(w, 24) == ((w >> 24) & 0xff) as bv8 as int
    ensures ByteOf(w, 16) == ((w >> 16) & 0xff) as bv8 as int
    ensures ByteOf(w, 8) == ((w >> 8) & 0xff) as bv8 as int
    ensures ByteOf(w, 0) == (w & 0xff) as bv8 as int
  {
  }

  lemma Bytes(w: Word, b0: Byte, b1: Byte, b2: Byte, b3: Byte)
    requires ((w >> 24) & 0xff) as bv8 as int == b0
    requires ((w >> 16) & 0xff) as bv8 as int == b1
    requires ((w >> 8) & 0xff) as bv8 as int == b2
    requires (w & 0xff) as bv8 as int == b3
    ensures WordBytes(w) == [b0, b1, b2, b3]
  {
    Shifted(w);
    hide ByteOf;
  }

  lemma OutputPrefix(i: nat)
    requires i < 8
    ensures |HASH| == 8 && Output(HASH[..i + 1]) == Output(HASH[..i]) + WordBytes(HASH[i])
  {
    HashWords();
    hide HASH, WordBytes;
    assert HASH[..i + 1][..i] == HASH[..i];
  }

  lemma HashWords()
    ensures |HASH| == 8
    ensures HASH[0] == 0xba7816bf && HASH[1] == 0x8f01cfea
    ensures HASH[2] == 0x414140de && HASH[3] == 0x5dae2223
    ensures HASH[4] == 0xb00361a3 && HASH[5] == 0x96177a9c
    ensures HASH[6] == 0xb410ff61 && HASH[7] == 0xf20015ad
  {
  }

  lemma HashBytes()
    ensures |HASH| == 8
    ensures WordBytes(HASH[0]) == [0xba, 0x78, 0x16, 0xbf]
    ensures WordBytes(HASH[1]) == [0x8f, 0x01, 0xcf, 0xea]
    ensures WordBytes(HASH[2]) == [0x41, 0x41, 0x40, 0xde]
    ensures WordBytes(HASH[3]) == [0x5d, 0xae, 0x22, 0x23]
    ensures WordBytes(HASH[4]) == [0xb0, 0x03, 0x61, 0xa3]
    ensures WordBytes(HASH[5]) == [0x96, 0x17, 0x7a, 0x9c]
    ensures WordBytes(HASH[6]) == [0xb4, 0x10, 0xff, 0x61]
    ensures WordBytes(HASH[7]) == [0xf2, 0x00, 0x15, 0xad]
  {
    HashWords();
    hide WordBytes, HASH;
    Bytes(0xba7816bf, 0xba, 0x78, 0x16, 0xbf);
    Bytes(0x8f01cfea, 0x8f, 0x01, 0xcf, 0xea);
    Bytes(0x414140de, 0x41, 0x41, 0x40, 0xde);
    Bytes(0x5dae2223, 0x5d, 0xae, 0x22, 0x23);
    Bytes(0xb00361a3, 0xb0, 0x03, 0x61, 0xa3);
    Bytes(0x96177a9c, 0x96, 0x17, 0x7a, 0x9c);
    Bytes(0xb410ff61, 0xb4, 0x10, 0xff, 0x61);
    Bytes(0xf20015ad, 0xf2, 0x00, 0x15, 0xad);
  }

  lemma OutputInWords()
    ensures |HASH| == 8 && Output(HASH) ==
      WordBytes(HASH[0]) + WordBytes(HASH[1]) + WordBytes(HASH[2]) + WordBytes(HASH[3])
      + WordBytes(HASH[4]) + WordBytes(HASH[5]) + WordBytes(HASH[6]) + WordBytes(HASH[7])
  {
    HashWords();
    hide WordBytes, Output, HASH;
    OutputPrefix(0);
    OutputPrefix(1);
    OutputPrefix(2);
    OutputPrefix(3);
    OutputPrefix(4);
    OutputPrefix(5);
    OutputPrefix(6);
    OutputPrefix(7);
    assert HASH[..8] == HASH && HASH[..0] == [];
    OutputNothing();
    assert [] + WordBytes(HASH[0]) == WordBytes(HASH[0]);
  }

  lemma OutputOfHash()
    ensures Output(HASH) ==
      [0xba, 0x78, 0x16, 0xbf]
      + [0x8f, 0x01, 0xcf, 0xea]
      + [0x41, 0x41, 0x40, 0xde]
      + [0x5d, 0xae, 0x22, 0x23]
      + [0xb0, 0x03, 0x61, 0xa3]
      + [0x96, 0x17, 0x7a, 0x9c]
      + [0xb4, 0x10, 0xff, 0x61]
      + [0xf2, 0x00, 0x15, 0xad]
  {
    hide WordBytes, Output, HASH;
    HashBytes();
    OutputInWords();
  }

  lemma OutputNothing()
    ensures Output([]) == []
  {
  }
}
