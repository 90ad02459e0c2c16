/**
 The example of FIPS 180-4 for SHA-512: the digest of "abc", on which every constant, rotation, round and byte of
 output has its effect. Each line of the rounds is one step of the standard's computation, in its own words.
 */
module Sha512Example {
  import opened HashPadding
  import opened Sha512

  const ABC: seq<Byte> := [0x61, 0x62, 0x63]

  /** The one padded block of "abc", as words. */
  const M: seq<Word> := [
    0x6162638000000000, 0x0000000000000000, 0x0000000000000000, 0x0000000000000000,
    0x0000000000000000, 0x0000000000000000, 0x0000000000000000, 0x0000000000000000,
    0x0000000000000000, 0x0000000000000000, 0x0000000000000000, 0x0000000000000000,
    0x0000000000000000, 0x0000000000000000, 0x0000000000000000, 0x0000000000000018]

  // ------------------------------------------------------------------ the functions, with their shifts written out

  function Xor3(a: Word, b: Word, c: Word): Word { a ^ b ^ c }

  lemma Rotations(x: Word)
    ensures RotateRight(x, 1) == (x >> 1) | (x << 63)
    ensures RotateRight(x, 8) == (x >> 8) | (x << 56)
    ensures RotateRight(x, 14) == (x >> 14) | (x << 50)
    ensures RotateRight(x, 18) == (x >> 18) | (x << 46)
    ensures RotateRight(x, 19) == (x >> 19) | (x << 45)
    ensures RotateRight(x, 28) == (x >> 28) | (x << 36)
    ensures RotateRight(x, 34) == (x >> 34) | (x << 30)
    ensures RotateRight(x, 39) == (x >> 39) | (x << 25)
    ensures RotateRight(x, 41) == (x >> 41) | (x << 23)
    ensures RotateRight(x, 61) == (x >> 61) | (x << 3)
  {
  }

  function Upper0(x: Word): Word {
    Xor3((x >> 28) | (x << 36), (x >> 34) | (x << 30), (x >> 39) | (x << 25))
  }

  function Upper1(x: Word): Word {
    Xor3((x >> 14) | (x << 50), (x >> 18) | (x << 46), (x >> 41) | (x << 23))
  }

  function Lower0(x: Word): Word {
    Xor3((x >> 1) | (x << 63), (x >> 8) | (x << 56), x >> 7)
  }

  function Lower1(x: Word): Word {
    Xor3((x >> 19) | (x << 45), (x >> 61) | (x << 3), x >> 6)
  }

  lemma UpperSigma0Folds(x: Word)
    ensures UpperSigma0(x) == Xor3(RotateRight(x, 28), RotateRight(x, 34), RotateRight(x, 39))
  {
    hide RotateRight;
  }

  lemma UpperSigma0Is(x: Word)
    ensures UpperSigma0(x) == Upper0(x)
  {
    UpperSigma0Folds(x);
    Rotations(x);
    hide UpperSigma0, RotateRight, Xor3;
  }

  lemma UpperSigma1Folds(x: Word)
    ensures UpperSigma1(x) == Xor3(RotateRight(x, 14), RotateRight(x, 18), RotateRight(x, 41))
  {
    hide RotateRight;
  }

  lemma UpperSigma1Is(x: Word)
    ensures UpperSigma1(x) == Upper1(x)
  {
    UpperSigma1Folds(x);
    Rotations(x);
    hide UpperSigma1, RotateRight, Xor3;
  }

  lemma LowerSigma0Folds(x: Word)
    ensures LowerSigma0(x) == Xor3(RotateRight(x, 1), RotateRight(x, 8), x >> 7)
  {
    hide RotateRight;
  }

  lemma LowerSigma0Is(x: Word)
    ensures LowerSigma0(x) == Lower0(x)
  {
    LowerSigma0Folds(x);
    Rotations(x);
    hide LowerSigma0, RotateRight, Xor3;
  }

  lemma LowerSigma1Folds(x: Word)
    ensures LowerSigma1(x) == Xor3(RotateRight(x, 19), RotateRight(x, 61), x >> 6)
  {
    hide RotateRight;
  }

  lemma LowerSigma1Is(x: Word)
    ensures LowerSigma1(x) == Lower1(x)
  {
    LowerSigma1Folds(x);
    Rotations(x);
    hide LowerSigma1, RotateRight, Xor3;
  }

  // ------------------------------------------------------------------ one step

  lemma Lengths()
    ensures |M| == 16 && |INITIAL| == 8 && |K| == ROUNDS
  {
  }

  /** Word `t` of the schedule is `w`, as it follows from earlier words. */
  ghost predicate WordIs(t: nat, w: Word) {
    Lengths();
    if t < 16 then M[t] == w
    else exists w16, w15, w7, w2 ::
           && WordIs(t - 16, w16) && WordIs(t - 15, w15) && WordIs(t - 7, w7) && WordIs(t - 2, w2)
           && w == Sum4(LowerSigma1(w2), w7, LowerSigma0(w15), w16)
  }

  /** After `t` rounds the working variables have these values, as they follow from those before. */
  ghost predicate After(t: nat, s: Working)
    requires t <= ROUNDS
  {
    Lengths();
    if t == 0 then s == Load(INITIAL)
    else exists before, w {:trigger After(t - 1, before), WordIs(t - 1, w)} ::
           After(t - 1, before) && WordIs(t - 1, w) && s == Round(before, K[t - 1], w)
  }

  lemma {:induction false} WordIsScheduled(t: nat, w: Word)
    requires WordIs(t, w)
    ensures |M| == 16 && Scheduled(M, t) == w
  {
    hide LowerSigma0, LowerSigma1, Sum4, M;
    Lengths();
    if t >= 16 {
      var w16, w15, w7, w2 :|
        && WordIs(t - 16, w16) && WordIs(t - 15, w15) && WordIs(t - 7, w7) && WordIs(t - 2, w2)
        && w == Sum4(LowerSigma1(w2), w7, LowerSigma0(w15), w16);
      WordIsScheduled(t - 16, w16);
      WordIsScheduled(t - 15, w15);
      WordIsScheduled(t - 7, w7);
      WordIsScheduled(t - 2, w2);
    }
  }

  lemma {:induction false} AfterIsRounds(t: nat, s: Working)
    requires t <= ROUNDS && After(t, s)
    ensures |M| == 16 && |INITIAL| == 8 && Rounds(Load(INITIAL), M, t) == s
  {
    hide Round, Load, Scheduled, WordIs, K, M, INITIAL;
    Lengths();
    if t > 0 {
      var before, w :| After(t - 1, before) && WordIs(t - 1, w) && s == Round(before, K[t - 1], w);
      AfterIsRounds(t - 1, before);
      WordIsScheduled(t - 1, w);
    }
  }

  lemma First(t: nat, w: Word)
    requires t < 16 && (Lengths(); M[t] == w)
    ensures WordIs(t, w)
  {
  }

  /** The next word of the schedule. */
  lemma Extend(t: nat, w16: Word, w15: Word, w7: Word, w2: Word, w: Word)
    requires t >= 16 && WordIs(t - 16, w16) && WordIs(t - 15, w15) && WordIs(t - 7, w7) && WordIs(t - 2, w2)
    requires Sum4(Lower1(w2), w7, Lower0(w15), w16) == w
    ensures WordIs(t, w)
  {
    hide LowerSigma0, LowerSigma1, Lower0, Lower1, M, Sum4;
    LowerSigma0Is(w15);
    LowerSigma1Is(w2);
  }

  function Temporary1(s: Working, k: Word, w: Word): Word {
    Add(Add(Add(Add(s.h, Upper1(s.e)), Ch(s.e, s.f, s.g)), k), w)
  }

  function Temporary2(s: Working): Word {
    Add(Upper0(s.a), Maj(s.a, s.b, s.c))
  }

  lemma RoundIs(s: Working, k: Word, w: Word)
    ensures var t1, t2 := Temporary1(s, k, w), Temporary2(s);
      Round(s, k, w) == Working(Add(t1, t2), s.a, s.b, s.c, Add(s.d, t1), s.e, s.f, s.g)
  {
    hide UpperSigma0, UpperSigma1, Upper0, Upper1, Ch, Maj, Add;
    UpperSigma0Is(s.a);
    UpperSigma1Is(s.e);
  }

  /** The next round, with its constant, its word, and the two new values. */
  lemma Step(t: nat, s: Working, k: Word, w: Word, first: Word, fifth: Word) returns (r: Working)
    requires t < ROUNDS && After(t, s) && WordIs(t, w) && (Lengths(); K[t] == k)
    requires Add(Temporary1(s, k, w), Temporary2(s)) == first && Add(s.d, Temporary1(s, k, w)) == fifth
    ensures r == Working(first, s.a, s.b, s.c, fifth, s.e, s.f, s.g) && After(t + 1, r)
  {
    hide Temporary1, Temporary2, Add, Round, WordIs, K;
    Lengths();
    RoundIs(s, k, w);
    r := Working(first, s.a, s.b, s.c, fifth, s.e, s.f, s.g);
    assert r == Round(s, K[t], w);
  }

  // ------------------------------------------------------------------ the computation

  lemma BlockWords()
    ensures |M| == 16
    ensures M[0] == 0x6162638000000000 && M[1] == 0x0000000000000000
    ensures M[2] == 0x0000000000000000 && M[3] == 0x0000000000000000
    ensures M[4] == 0x0000000000000000 && M[5] == 0x0000000000000000
    ensures M[6] == 0x0000000000000000 && M[7] == 0x0000000000000000
    ensures M[8] == 0x0000000000000000 && M[9] == 0x0000000000000000
    ensures M[10] == 0x0000000000000000 && M[11] == 0x0000000000000000
    ensures M[12] == 0x0000000000000000 && M[13] == 0x0000000000000000
    ensures M[14] == 0x0000000000000000 && M[15] == 0x0000000000000018
  {
  }

  lemma Constants0()
    ensures |K| == ROUNDS
    ensures K[0] == 0x428a2f98d728ae22 && K[1] == 0x7137449123ef65cd
    ensures K[2] == 0xb5c0fbcfec4d3b2f && K[3] == 0xe9b5dba58189dbbc
    ensures K[4] == 0x3956c25bf348b538 && K[5] == 0x59f111f1b605d019
    ensures K[6] == 0x923f82a4af194f9b && K[7] == 0xab1c5ed5da6d8118
    ensures K[8] == 0xd807aa98a3030242 && K[9] == 0x12835b0145706fbe
    ensures K[10] == 0x243185be4ee4b28c && K[11] == 0x550c7dc3d5ffb4e2
    ensures K[12] == 0x72be5d74f27b896f && K[13] == 0x80deb1fe3b1696b1
    ensures K[14] == 0x9bdc06a725c71235 && K[15] == 0xc19bf174cf692694
  {
  }

  lemma Constants16()
    ensures |K| == ROUNDS
    ensures K[16] == 0xe49b69c19ef14ad2 && K[17] == 0xefbe4786384f25e3
    ensures K[18] == 0x0fc19dc68b8cd5b5 && K[19] == 0x240ca1cc77ac9c65
    ensures K[20] == 0x2de92c6f592b0275 && K[21] == 0x4a7484aa6ea6e483
    ensures K[22] == 0x5cb0a9dcbd41fbd4 && K[23] == 0x76f988da831153b5
    ensures K[24] == 0x983e5152ee66dfab && K[25] == 0xa831c66d2db43210
    ensures K[26] == 0xb00327c898fb213f && K[27] == 0xbf597fc7beef0ee4
    ensures K[28] == 0xc6e00bf33da88fc2 && K[29] == 0xd5a79147930aa725
    ensures K[30] == 0x06ca6351e003826f && K[31] == 0x142929670a0e6e70
  {
  }

  lemma Constants32()
    ensures |K| == ROUNDS
    ensures K[32] == 0x27b70a8546d22ffc && K[33] == 0x2e1b21385c26c926
    ensures K[34] == 0x4d2c6dfc5ac42aed && K[35] == 0x53380d139d95b3df
    ensures K[36] == 0x650a73548baf63de && K[37] == 0x766a0abb3c77b2a8
    ensures K[38] == 0x81c2c92e47edaee6 && K[39] == 0x92722c851482353b
    ensures K[40] == 0xa2bfe8a14cf10364 && K[41] == 0xa81a664bbc423001
    ensures K[42] == 0xc24b8b70d0f89791 && K[43] == 0xc76c51a30654be30
    ensures K[44] == 0xd192e819d6ef5218 && K[45] == 0xd69906245565a910
    ensures K[46] == 0xf40e35855771202a && K[47] == 0x106aa07032bbd1b8
  {
  }

  lemma Constants48()
    ensures |K| == ROUNDS
    ensures K[48] == 0x19a4c116b8d2d0c8 && K[49] == 0x1e376c085141ab53
    ensures K[50] == 0x2748774cdf8eeb99 && K[51] == 0x34b0bcb5e19b48a8
    ensures K[52] == 0x391c0cb3c5c95a63 && K[53] == 0x4ed8aa4ae3418acb
    ensures K[54] == 0x5b9cca4f7763e373 && K[55] == 0x682e6ff3d6b2b8a3
    ensures K[56] == 0x748f82ee5defb2fc && K[57] == 0x78a5636f43172f60
    ensures K[58] == 0x84c87814a1f0ab72 && K[59] == 0x8cc702081a6439ec
    ensures K[60] == 0x90befffa23631e28 && K[61] == 0xa4506cebde82bde9
    ensures K[62] == 0xbef9a3f7b2c67915 && K[63] == 0xc67178f2e372532b
  {
  }

  lemma Constants64()
    ensures |K| == ROUNDS
    ensures K[64] == 0xca273eceea26619c && K[65] == 0xd186b8c721c0c207
    ensures K[66] == 0xeada7dd6cde0eb1e && K[67] == 0xf57d4f7fee6ed178
    ensures K[68] == 0x06f067aa72176fba && K[69] == 0x0a637dc5a2c898a6
    ensures K[70] == 0x113f9804bef90dae && K[71] == 0x1b710b35131c471b
    ensures K[72] == 0x28db77f523047d84 && K[73] == 0x32caab7b40c72493
    ensures K[74] == 0x3c9ebe0a15c9bebc && K[75] == 0x431d67c49c100d4c
    ensures K[76] == 0x4cc5d4becb3e42b6 && K[77] == 0x597f299cfc657e2a
    ensures K[78] == 0x5fcb6fab3ad6faec && K[79] == 0x6c44198c4a475817
  {
  }

  lemma Words16()
    ensures WordIs(16, 0x6162638000000000) && WordIs(17, 0x00030000000000c0)
    ensures WordIs(18, 0x0a9699a24c700003) && WordIs(19, 0x00000c0060000603)
    ensures WordIs(20, 0x549ef62639858996) && WordIs(21, 0x00c0003300003c00)
    ensures WordIs(22, 0x1497007a8a0e9dbc) && WordIs(23, 0x62e56500cc0780f0)
    ensures WordIs(24, 0x7760dd475a538797) && WordIs(25, 0xf1554b711c1c0003)
    ensures WordIs(26, 0xca2993a4345d9ff2) && WordIs(27, 0x5e0e66b5c783dd32)
    ensures WordIs(28, 0xe25a625d00494b62) && WordIs(29, 0x9f44486fb1e4fbd2)
    ensures WordIs(30, 0xb31b8c2b06085f2f) && WordIs(31, 0x0e987660934142f6)
  {
    hide WordIs, M;
    BlockWords();
    First(0, 0x6162638000000000);
    First(1, 0x0000000000000000);
    First(2, 0x0000000000000000);
    First(3, 0x0000000000000000);
    First(4, 0x0000000000000000);
    First(5, 0x0000000000000000);
    First(6, 0x0000000000000000);
    First(7, 0x0000000000000000);
    First(8, 0x0000000000000000);
    First(9, 0x0000000000000000);
    First(10, 0x0000000000000000);
    First(11, 0x0000000000000000);
    First(12, 0x0000000000000000);
    First(13, 0x0000000000000000);
    First(14, 0x0000000000000000);
    First(15, 0x0000000000000018);
    Extend(16, 0x6162638000000000, 0x0000000000000000, 0x0000000000000000, 0x0000000000000000, 0x6162638000000000);
    Extend(17, 0x0000000000000000, 0x0000000000000000, 0x0000000000000000, 0x0000000000000018, 0x00030000000000c0);
    Extend(18, 0x0000000000000000, 0x0000000000000000, 0x0000000000000000, 0x6162638000000000, 0x0a9699a24c700003);
    Extend(19, 0x0000000000000000, 0x0000000000000000, 0x0000000000000000, 0x00030000000000c0, 0x00000c0060000603);
    Extend(20, 0x0000000000000000, 0x0000000000000000, 0x0000000000000000, 0x0a9699a24c700003, 0x549ef62639858996);
    Extend(21, 0x0000000000000000, 0x0000000000000000, 0x0000000000000000, 0x00000c0060000603, 0x00c0003300003c00);
    Extend(22, 0x0000000000000000, 0x0000000000000000, 0x0000000000000018, 0x549ef62639858996, 0x1497007a8a0e9dbc);
    Extend(23, 0x0000000000000000, 0x0000000000000000, 0x6162638000000000, 0x00c0003300003c00, 0x62e56500cc0780f0);
    Extend(24, 0x0000000000000000, 0x0000000000000000, 0x00030000000000c0, 0x1497007a8a0e9dbc, 0x7760dd475a538797);
    Extend(25, 0x0000000000000000, 0x0000000000000000, 0x0a9699a24c700003, 0x62e56500cc0780f0, 0xf1554b711c1c0003);
    Extend(26, 0x0000000000000000, 0x0000000000000000, 0x00000c0060000603, 0x7760dd475a538797, 0xca2993a4345d9ff2);
    Extend(27, 0x0000000000000000, 0x0000000000000000, 0x549ef62639858996, 0xf1554b711c1c0003, 0x5e0e66b5c783dd32);
    Extend(28, 0x0000000000000000, 0x0000000000000000, 0x00c0003300003c00, 0xca2993a4345d9ff2, 0xe25a625d00494b62);
    Extend(29, 0x0000000000000000, 0x0000000000000000, 0x1497007a8a0e9dbc, 0x5e0e66b5c783dd32, 0x9f44486fb1e4fbd2);
    Extend(30, 0x0000000000000000, 0x0000000000000018, 0x62e56500cc0780f0, 0xe25a625d00494b62, 0xb31b8c2b06085f2f);
    Extend(31, 0x0000000000000018, 0x6162638000000000, 0x7760dd475a538797, 0x9f44486fb1e4fbd2, 0x0e987660934142f6);
  }

  lemma Words32()
    ensures WordIs(32, 0xa4af2cfd09fbb924) && WordIs(33, 0xad289e2e0bd53186)
    ensures WordIs(34, 0x3c74563aa2f9673e) && WordIs(35, 0x6ccdcd14cc14b53f)
    ensures WordIs(36, 0xc3f925b337f22bde) && WordIs(37, 0x5bcc77a75ad95b54)
    ensures WordIs(38, 0x3ec2257adca09a52) && WordIs(39, 0x28246960001fc5eb)
    ensures WordIs(40, 0x04e33a75ce2be88a) && WordIs(41, 0x7d5314b3c359e0e7)
    ensures WordIs(42, 0xaef7a285ff251266) && WordIs(43, 0x0b8472581deea04f)
    ensures WordIs(44, 0xb174e26eddc7b033) && WordIs(45, 0x5d63bae58ddd88de)
    ensures WordIs(46, 0x4c044007b744ccbb) && WordIs(47, 0xe6a9aa4d74dc7d43)
  {
    hide WordIs, M;
    Words16();
    Extend(32, 0x6162638000000000, 0x00030000000000c0, 0xf1554b711c1c0003, 0xb31b8c2b06085f2f, 0xa4af2cfd09fbb924);
    Extend(33, 0x00030000000000c0, 0x0a9699a24c700003, 0xca2993a4345d9ff2, 0x0e987660934142f6, 0xad289e2e0bd53186);
    Extend(34, 0x0a9699a24c700003, 0x00000c0060000603, 0x5e0e66b5c783dd32, 0xa4af2cfd09fbb924, 0x3c74563aa2f9673e);
    Extend(35, 0x00000c0060000603, 0x549ef62639858996, 0xe25a625d00494b62, 0xad289e2e0bd53186, 0x6ccdcd14cc14b53f);
    Extend(36, 0x549ef62639858996, 0x00c0003300003c00, 0x9f44486fb1e4fbd2, 0x3c74563aa2f9673e, 0xc3f925b337f22bde);
    Extend(37, 0x00c0003300003c00, 0x1497007a8a0e9dbc, 0xb31b8c2b06085f2f, 0x6ccdcd14cc14b53f, 0x5bcc77a75ad95b54);
    Extend(38, 0x1497007a8a0e9dbc, 0x62e56500cc0780f0, 0x0e987660934142f6, 0xc3f925b337f22bde, 0x3ec2257adca09a52);
    Extend(39, 0x62e56500cc0780f0, 0x7760dd475a538797, 0xa4af2cfd09fbb924, 0x5bcc77a75ad95b54, 0x28246960001fc5eb);
    Extend(40, 0x7760dd475a538797, 0xf1554b711c1c0003, 0xad289e2e0bd53186, 0x3ec2257adca09a52, 0x04e33a75ce2be88a);
    Extend(41, 0xf1554b711c1c0003, 0xca2993a4345d9ff2, 0x3c74563aa2f9673e, 0x28246960001fc5eb, 0x7d5314b3c359e0e7);
    Extend(42, 0xca2993a4345d9ff2, 0x5e0e66b5c783dd32, 0x6ccdcd14cc14b53f, 0x04e33a75ce2be88a, 0xaef7a285ff251266);
    Extend(43, 0x5e0e66b5c783dd32, 0xe25a625d00494b62, 0xc3f925b337f22bde, 0x7d5314b3c359e0e7, 0x0b8472581deea04f);
    Extend(44, 0xe25a625d00494b62, 0x9f44486fb1e4fbd2, 0x5bcc77a75ad95b54, 0xaef7a285ff251266, 0xb174e26eddc7b033);
    Extend(45, 0x9f44486fb1e4fbd2, 0xb31b8c2b06085f2f, 0x3ec2257adca09a52, 0x0b8472581deea04f, 0x5d63bae58ddd88de);
    Extend(46, 0xb31b8c2b06085f2f, 0x0e987660934142f6, 0x28246960001fc5eb, 0xb174e26eddc7b033, 0x4c044007b744ccbb);
    Extend(47, 0x0e987660934142f6, 0xa4af2cfd09fbb924, 0x04e33a75ce2be88a, 0x5d63bae58ddd88de, 0xe6a9aa4d74dc7d43);
  }

  lemma Words48()
    ensures WordIs(48, 0xebeaf1237248019c) && WordIs(49, 0x361e80b2d00f3193)
    ensures WordIs(50, 0x2e9839125df3b175) && WordIs(51, 0x3319629293ad5363)
    ensures WordIs(52, 0x9cbc5d89ac1b89d5) && WordIs(53, 0x275e23ffeeca50b7)
    ensures WordIs(54, 0x3b80d680bf69ef58) && WordIs(55, 0x0d0696933945a125)
    ensures WordIs(56, 0x7533eabcb786ff00) && WordIs(57, 0xb89826cee6fbf0e5)
    ensures WordIs(58, 0x249b4fbcad623e9f) && WordIs(59, 0x4aea9df2b02d6f1e)
    ensures WordIs(60, 0x2cc57475a55e8d8f) && WordIs(61, 0xb2574ae938d8be89)
    ensures WordIs(62, 0xc1b35a57b16d6aea) && WordIs(63, 0xcc4918b5949206bb)
  {
    hide WordIs, M;
    Words32();
    Extend(48, 0xa4af2cfd09fbb924, 0xad289e2e0bd53186, 0x7d5314b3c359e0e7, 0x4c044007b744ccbb, 0xebeaf1237248019c);
    Extend(49, 0xad289e2e0bd53186, 0x3c74563aa2f9673e, 0xaef7a285ff251266, 0xe6a9aa4d74dc7d43, 0x361e80b2d00f3193);
    Extend(50, 0x3c74563aa2f9673e, 0x6ccdcd14cc14b53f, 0x0b8472581deea04f, 0xebeaf1237248019c, 0x2e9839125df3b175);
    Extend(51, 0x6ccdcd14cc14b53f, 0xc3f925b337f22bde, 0xb174e26eddc7b033, 0x361e80b2d00f3193, 0x3319629293ad5363);
    Extend(52, 0xc3f925b337f22bde, 0x5bcc77a75ad95b54, 0x5d63bae58ddd88de, 0x2e9839125df3b175, 0x9cbc5d89ac1b89d5);
    Extend(53, 0x5bcc77a75ad95b54, 0x3ec2257adca09a52, 0x4c044007b744ccbb, 0x3319629293ad5363, 0x275e23ffeeca50b7);
    Extend(54, 0x3ec2257adca09a52, 0x28246960001fc5eb, 0xe6a9aa4d74dc7d43, 0x9cbc5d89ac1b89d5, 0x3b80d680bf69ef58);
    Extend(55, 0x28246960001fc5eb, 0x04e33a75ce2be88a, 0xebeaf1237248019c, 0x275e23ffeeca50b7, 0x0d0696933945a125);
    Extend(56, 0x04e33a75ce2be88a, 0x7d5314b3c359e0e7, 0x361e80b2d00f3193, 0x3b80d680bf69ef58, 0x7533eabcb786ff00);
    Extend(57, 0x7d5314b3c359e0e7, 0xaef7a285ff251266, 0x2e9839125df3b175, 0x0d0696933945a125, 0xb89826cee6fbf0e5);
    Extend(58, 0xaef7a285ff251266, 0x0b8472581deea04f, 0x3319629293ad5363, 0x7533eabcb786ff00, 0x249b4fbcad623e9f);
    Extend(59, 0x0b8472581deea04f, 0xb174e26eddc7b033, 0x9cbc5d89ac1b89d5, 0xb89826cee6fbf0e5, 0x4aea9df2b02d6f1e);
    Extend(60, 0xb174e26eddc7b033, 0x5d63bae58ddd88de, 0x275e23ffeeca50b7, 0x249b4fbcad623e9f, 0x2cc57475a55e8d8f);
    Extend(61, 0x5d63bae58ddd88de, 0x4c044007b744ccbb, 0x3b80d680bf69ef58, 0x4aea9df2b02d6f1e, 0xb2574ae938d8be89);
    Extend(62, 0x4c044007b744ccbb, 0xe6a9aa4d74dc7d43, 0x0d0696933945a125, 0x2cc57475a55e8d8f, 0xc1b35a57b16d6aea);
    Extend(63, 0xe6a9aa4d74dc7d43, 0xebeaf1237248019c, 0x7533eabcb786ff00, 0xb2574ae938d8be89, 0xcc4918b5949206bb);
  }

  lemma Words64()
    ensures WordIs(64, 0x5099c3add79f90ec) && WordIs(65, 0x5ea81d78e7660bf1)
    ensures WordIs(66, 0xebee6267405ac2a9) && WordIs(67, 0xb01f21926108a4ab)
    ensures WordIs(68, 0x786433dd2fe65556) && WordIs(69, 0xc54a6eaa24a0552c)
    ensures WordIs(70, 0xb3c8f1530bdbaa9e) && WordIs(71, 0xbb8abfe56f469338)
    ensures WordIs(72, 0xf63d4265cc1c5a78) && WordIs(73, 0xbe8355ea73129afb)
    ensures WordIs(74, 0x49e2db8ebdcfbeb5) && WordIs(75, 0x82269d4a883a3d99)
    ensures WordIs(76, 0xfdf53df3011f362b) && WordIs(77, 0x464af5671d71c12e)
    ensures WordIs(78, 0xe449b68198ec611c) && WordIs(79, 0x92aeeed1a7bcf7d2)
  {
    hide WordIs, M;
    Words48();
    Extend(64, 0xebeaf1237248019c, 0x361e80b2d00f3193, 0xb89826cee6fbf0e5, 0xc1b35a57b16d6aea, 0x5099c3add79f90ec);
    Extend(65, 0x361e80b2d00f3193, 0x2e9839125df3b175, 0x249b4fbcad623e9f, 0xcc4918b5949206bb, 0x5ea81d78e7660bf1);
    Extend(66, 0x2e9839125df3b175, 0x3319629293ad5363, 0x4aea9df2b02d6f1e, 0x5099c3add79f90ec, 0xebee6267405ac2a9);
    Extend(67, 0x3319629293ad5363, 0x9cbc5d89ac1b89d5, 0x2cc57475a55e8d8f, 0x5ea81d78e7660bf1, 0xb01f21926108a4ab);
    Extend(68, 0x9cbc5d89ac1b89d5, 0x275e23ffeeca50b7, 0xb2574ae938d8be89, 0xebee6267405ac2a9, 0x786433dd2fe65556);
    Extend(69, 0x275e23ffeeca50b7, 0x3b80d680bf69ef58, 0xc1b35a57b16d6aea, 0xb01f21926108a4ab, 0xc54a6eaa24a0552c);
    Extend(70, 0x3b80d680bf69ef58, 0x0d0696933945a125, 0xcc4918b5949206bb, 0x786433dd2fe65556, 0xb3c8f1530bdbaa9e);
    Extend(71, 0x0d0696933945a125, 0x7533eabcb786ff00, 0x5099c3add79f90ec, 0xc54a6eaa24a0552c, 0xbb8abfe56f469338);
    Extend(72, 0x7533eabcb786ff00, 0xb89826cee6fbf0e5, 0x5ea81d78e7660bf1, 0xb3c8f1530bdbaa9e, 0xf63d4265cc1c5a78);
    Extend(73, 0xb89826cee6fbf0e5, 0x249b4fbcad623e9f, 0xebee6267405ac2a9, 0xbb8abfe56f469338, 0xbe8355ea73129afb);
    Extend(74, 0x249b4fbcad623e9f, 0x4aea9df2b02d6f1e, 0xb01f21926108a4ab, 0xf63d4265cc1c5a78, 0x49e2db8ebdcfbeb5);
    Extend(75, 0x4aea9df2b02d6f1e, 0x2cc57475a55e8d8f, 0x786433dd2fe65556, 0xbe8355ea73129afb, 0x82269d4a883a3d99);
    Extend(76, 0x2cc57475a55e8d8f, 0xb2574ae938d8be89, 0xc54a6eaa24a0552c, 0x49e2db8ebdcfbeb5, 0xfdf53df3011f362b);
    Extend(77, 0xb2574ae938d8be89, 0xc1b35a57b16d6aea, 0xb3c8f1530bdbaa9e, 0x82269d4a883a3d99, 0x464af5671d71c12e);
    Extend(78, 0xc1b35a57b16d6aea, 0xcc4918b5949206bb, 0xbb8abfe56f469338, 0xfdf53df3011f362b, 0xe449b68198ec611c);
    Extend(79, 0xcc4918b5949206bb, 0x5099c3add79f90ec, 0xf63d4265cc1c5a78, 0x464af5671d71c12e, 0x92aeeed1a7bcf7d2);
  }

  lemma Rounds0()
    ensures After(0, Working(0x6a09e667f3bcc908, 0xbb67ae8584caa73b, 0x3c6ef372fe94f82b, 0xa54ff53a5f1d36f1,
      0x510e527fade682d1, 0x9b05688c2b3e6c1f, 0x1f83d9abfb41bd6b, 0x5be0cd19137e2179))
  {
  }

  lemma Rounds16()
    ensures After(16, Working(0x0ae07c86b1181c75, 0xfa967eed85a08028, 0x44249631255d2ca0, 0x5e41214388186c14,
      0xa77b7c035dd4c161, 0x874bfe5f6aae9f2f, 0x860acf9effba6f61, 0xcdf3bff2883fc9d9))
  {
    hide After, WordIs, M, K;
    Constants0();
    Rounds0();
    BlockWords();
    First(0, 0x6162638000000000);
    First(1, 0x0000000000000000);
    First(2, 0x0000000000000000);
    First(3, 0x0000000000000000);
    First(4, 0x0000000000000000);
    First(5, 0x0000000000000000);
    First(6, 0x0000000000000000);
    First(7, 0x0000000000000000);
    First(8, 0x0000000000000000);
    First(9, 0x0000000000000000);
    First(10, 0x0000000000000000);
    First(11, 0x0000000000000000);
    First(12, 0x0000000000000000);
    First(13, 0x0000000000000000);
    First(14, 0x0000000000000000);
    First(15, 0x0000000000000018);
    var s := Working(0x6a09e667f3bcc908, 0xbb67ae8584caa73b, 0x3c6ef372fe94f82b, 0xa54ff53a5f1d36f1,
      0x510e527fade682d1, 0x9b05688c2b3e6c1f, 0x1f83d9abfb41bd6b, 0x5be0cd19137e2179);
    s := Step(0, s, 0x428a2f98d728ae22, 0x6162638000000000, 0xf6afceb8bcfcddf5, 0x58cb02347ab51f91);
    s := Step(1, s, 0x7137449123ef65cd, 0x0000000000000000, 0x1320f8c9fb872cc0, 0xc3d4ebfd48650ffa);
    s := Step(2, s, 0xb5c0fbcfec4d3b2f, 0x0000000000000000, 0xebcffc07203d91f3, 0xdfa9b239f2697812);
    s := Step(3, s, 0xe9b5dba58189dbbc, 0x0000000000000000, 0x5a83cb3e80050e82, 0x0b47b4bb1928990e);
    s := Step(4, s, 0x3956c25bf348b538, 0x0000000000000000, 0xb680953951604860, 0x745aca4a342ed2e2);
    s := Step(5, s, 0x59f111f1b605d019, 0x0000000000000000, 0xaf573b02403e89cd, 0x96f60209b6dc35ba);
    s := Step(6, s, 0x923f82a4af194f9b, 0x0000000000000000, 0xc4875b0c7abc076b, 0x5a6c781f54dcc00c);
    s := Step(7, s, 0xab1c5ed5da6d8118, 0x0000000000000000, 0x8093d195e0054fa3, 0x86f67263a0f0ec0a);
    s := Step(8, s, 0xd807aa98a3030242, 0x0000000000000000, 0xf1eca5544cb89225, 0xd0403c398fc40002);
    s := Step(9, s, 0x12835b0145706fbe, 0x0000000000000000, 0x81782d4a5db48f03, 0x00091f460be46c52);
    s := Step(10, s, 0x243185be4ee4b28c, 0x0000000000000000, 0x69854c4aa0f25b59, 0xd375471bde1ba3f4);
    s := Step(11, s, 0x550c7dc3d5ffb4e2, 0x0000000000000000, 0xdb0a9963f80c2eaa, 0x475975b91a7a462c);
    s := Step(12, s, 0x72be5d74f27b896f, 0x0000000000000000, 0x5e41214388186c14, 0xcdf3bff2883fc9d9);
    s := Step(13, s, 0x80deb1fe3b1696b1, 0x0000000000000000, 0x44249631255d2ca0, 0x860acf9effba6f61);
    s := Step(14, s, 0x9bdc06a725c71235, 0x0000000000000000, 0xfa967eed85a08028, 0x874bfe5f6aae9f2f);
    s := Step(15, s, 0xc19bf174cf692694, 0x0000000000000018, 0x0ae07c86b1181c75, 0xa77b7c035dd4c161);
  }

  lemma Rounds32()
    ensures After(32, Working(0xff4d3f1f0d46a736, 0x4c4fbbb75f1873a6, 0x74bf40f869094c63, 0xe62349090f47d30a,
      0x3cd388e119e8162e, 0x73e025d91b9efea3, 0xf0aec2fe1437f085, 0x0fcdf99710f21584))
  {
    hide After, WordIs, M, K;
    Constants16();
    Rounds16();
    Words16();
    var s := Working(0x0ae07c86b1181c75, 0xfa967eed85a08028, 0x44249631255d2ca0, 0x5e41214388186c14,
      0xa77b7c035dd4c161, 0x874bfe5f6aae9f2f, 0x860acf9effba6f61, 0xcdf3bff2883fc9d9);
    s := Step(16, s, 0xe49b69c19ef14ad2, 0x6162638000000000, 0xcaf81a425d800537, 0x2deecc6b39d64d78);
    s := Step(17, s, 0xefbe4786384f25e3, 0x00030000000000c0, 0x4725be249ad19e6b, 0xf47e8353f8047455);
    s := Step(18, s, 0x0fc19dc68b8cd5b5, 0x0a9699a24c700003, 0x3c4b4104168e3edb, 0x29695fd88d81dbd0);
    s := Step(19, s, 0x240ca1cc77ac9c65, 0x00000c0060000603, 0x9a3fb4d38ab6cf06, 0xf14998dd5f70767e);
    s := Step(20, s, 0x2de92c6f592b0275, 0x549ef62639858996, 0x8dc5ae65569d3855, 0x4bb9e66d1145bfdc);
    s := Step(21, s, 0x4a7484aa6ea6e483, 0x00c0003300003c00, 0xda34d6673d452dcf, 0x8e30ff09ad488753);
    s := Step(22, s, 0x5cb0a9dcbd41fbd4, 0x1497007a8a0e9dbc, 0x3e2644567b709a78, 0x0ac2b11da8f571c6);
    s := Step(23, s, 0x76f988da831153b5, 0x62e56500cc0780f0, 0x4f6877b58fe55484, 0xc66005f87db55233);
    s := Step(24, s, 0x983e5152ee66dfab, 0x7760dd475a538797, 0x9aff71163fa3a940, 0xd3ecf13769180e6f);
    s := Step(25, s, 0xa831c66d2db43210, 0xf1554b711c1c0003, 0x0bc5f791f8e6816b, 0x6ddf1fd7edcce336);
    s := Step(26, s, 0xb00327c898fb213f, 0xca2993a4345d9ff2, 0x884c3bc27bc4f941, 0xe6e48c9a8e948365);
    s := Step(27, s, 0xbf597fc7beef0ee4, 0x5e0e66b5c783dd32, 0xeab4a9e5771b8d09, 0x09068a4e255a0dac);
    s := Step(28, s, 0xc6e00bf33da88fc2, 0xe25a625d00494b62, 0xe62349090f47d30a, 0x0fcdf99710f21584);
    s := Step(29, s, 0xd5a79147930aa725, 0x9f44486fb1e4fbd2, 0x74bf40f869094c63, 0xf0aec2fe1437f085);
    s := Step(30, s, 0x06ca6351e003826f, 0xb31b8c2b06085f2f, 0x4c4fbbb75f1873a6, 0x73e025d91b9efea3);
    s := Step(31, s, 0x142929670a0e6e70, 0x0e987660934142f6, 0xff4d3f1f0d46a736, 0x3cd388e119e8162e);
  }

  lemma Rounds48()
    ensures After(48, Working(0x6b69fc1bb482feac, 0xf61e672694de2d67, 0x021fbadbabab5ac6, 0xc47c9d5c7ea8a234,
      0x35264334c03ac8ad, 0xc6bc35740d8daa9a, 0xe95c2a57572d64d9, 0x858d832ae0e8911c))
  {
    hide After, WordIs, M, K;
    Constants32();
    Rounds32();
    Words32();
    var s := Working(0xff4d3f1f0d46a736, 0x4c4fbbb75f1873a6, 0x74bf40f869094c63, 0xe62349090f47d30a,
      0x3cd388e119e8162e, 0x73e025d91b9efea3, 0xf0aec2fe1437f085, 0x0fcdf99710f21584);
    s := Step(32, s, 0x27b70a8546d22ffc, 0xa4af2cfd09fbb924, 0xa0509015ca08c8d4, 0xe1034573654a106f);
    s := Step(33, s, 0x2e1b21385c26c926, 0xad289e2e0bd53186, 0x60d4e6995ed91fe6, 0xefabbd8bf47c041a);
    s := Step(34, s, 0x4d2c6dfc5ac42aed, 0x3c74563aa2f9673e, 0x2c59ec7743632621, 0x0fbae670fa780fd3);
    s := Step(35, s, 0x53380d139d95b3df, 0x6ccdcd14cc14b53f, 0x1a081afc59fdbc2c, 0xf098082f502b44cd);
    s := Step(36, s, 0x650a73548baf63de, 0xc3f925b337f22bde, 0x88df85b0bbe77514, 0x8fbfd0162bbf4675);
    s := Step(37, s, 0x766a0abb3c77b2a8, 0x5bcc77a75ad95b54, 0x002bb8e4cd989567, 0x66adcfa249ac7bbd);
    s := Step(38, s, 0x81c2c92e47edaee6, 0x3ec2257adca09a52, 0xb3bb8542b3376de5, 0xb49596c20feba7de);
    s := Step(39, s, 0x92722c851482353b, 0x28246960001fc5eb, 0x8e01e125b855d225, 0x0c710a47ba6a567b);
    s := Step(40, s, 0xa2bfe8a14cf10364, 0x04e33a75ce2be88a, 0xb01521dd6a6be12c, 0x169008b3a4bb170b);
    s := Step(41, s, 0xa81a664bbc423001, 0x7d5314b3c359e0e7, 0xe96f89dd48cbd851, 0xf0996439e7b50cb1);
    s := Step(42, s, 0xc24b8b70d0f89791, 0xaef7a285ff251266, 0xbc05ba8de5d3c480, 0x639cb938e14dc190);
    s := Step(43, s, 0xc76c51a30654be30, 0x0b8472581deea04f, 0x35d7e7f41defcbd5, 0xcc5100997f5710f2);
    s := Step(44, s, 0xd192e819d6ef5218, 0xb174e26eddc7b033, 0xc47c9d5c7ea8a234, 0x858d832ae0e8911c);
    s := Step(45, s, 0xd69906245565a910, 0x5d63bae58ddd88de, 0x021fbadbabab5ac6, 0xe95c2a57572d64d9);
    s := Step(46, s, 0xf40e35855771202a, 0x4c044007b744ccbb, 0xf61e672694de2d67, 0xc6bc35740d8daa9a);
    s := Step(47, s, 0x106aa07032bbd1b8, 0xe6a9aa4d74dc7d43, 0x6b69fc1bb482feac, 0x35264334c03ac8ad);
  }

  lemma Rounds64()
    ensures After(64, Working(0xab44e86276478d85, 0xa81dedbb9f19e643, 0xcfcd928c5424e2b6, 0x3857dfd2fc37d3ba,
      0xcd881ee59ca6bc53, 0x84058865d60a05fa, 0x09aee5bda1644de5, 0xa6af4e9c9f807e51))
  {
    hide After, WordIs, M, K;
    Constants48();
    Rounds48();
    Words48();
    var s := Working(0x6b69fc1bb482feac, 0xf61e672694de2d67, 0x021fbadbabab5ac6, 0xc47c9d5c7ea8a234,
      0x35264334c03ac8ad, 0xc6bc35740d8daa9a, 0xe95c2a57572d64d9, 0x858d832ae0e8911c);
    s := Step(48, s, 0x19a4c116b8d2d0c8, 0xebeaf1237248019c, 0x571f323d96b3a047, 0x271580ed6c3e5650);
    s := Step(49, s, 0x1e376c085141ab53, 0x361e80b2d00f3193, 0xca9bd862c5050918, 0xdfe091dab182e645);
    s := Step(50, s, 0x2748774cdf8eeb99, 0x2e9839125df3b175, 0x813a43dd2c502043, 0x07a0d8ef821c5e1a);
    s := Step(51, s, 0x34b0bcb5e19b48a8, 0x3319629293ad5363, 0xd43f83727325dd77, 0x483f80a82eaee23e);
    s := Step(52, s, 0x391c0cb3c5c95a63, 0x9cbc5d89ac1b89d5, 0x03df11b32d42e203, 0x504f94e40591cffa);
    s := Step(53, s, 0x4ed8aa4ae3418acb, 0x275e23ffeeca50b7, 0xd63f68037ddf06aa, 0xa6781efe1aa1ce02);
    s := Step(54, s, 0x5b9cca4f7763e373, 0x3b80d680bf69ef58, 0xf650857b5babda4d, 0x9ccfb31a86df0f86);
    s := Step(55, s, 0x682e6ff3d6b2b8a3, 0x0d0696933945a125, 0x63b460e42748817e, 0xc6b4dd2a9931c509);
    s := Step(56, s, 0x748f82ee5defb2fc, 0x7533eabcb786ff00, 0x7a52912943d52b05, 0xd2e89bbd91e00be0);
    s := Step(57, s, 0x78a5636f43172f60, 0xb89826cee6fbf0e5, 0x4b81c3aec976ea4b, 0x70505988124351ac);
    s := Step(58, s, 0x84c87814a1f0ab72, 0x249b4fbcad623e9f, 0x581ecb3355dcd9b8, 0x6a3c9b0f71c8bf36);
    s := Step(59, s, 0x8cc702081a6439ec, 0x4aea9df2b02d6f1e, 0x2c074484ef1eac8c, 0x4797cde4ed370692);
    s := Step(60, s, 0x90befffa23631e28, 0x2cc57475a55e8d8f, 0x3857dfd2fc37d3ba, 0xa6af4e9c9f807e51);
    s := Step(61, s, 0xa4506cebde82bde9, 0xb2574ae938d8be89, 0xcfcd928c5424e2b6, 0x09aee5bda1644de5);
    s := Step(62, s, 0xbef9a3f7b2c67915, 0xc1b35a57b16d6aea, 0xa81dedbb9f19e643, 0x84058865d60a05fa);
    s := Step(63, s, 0xc67178f2e372532b, 0xcc4918b5949206bb, 0xab44e86276478d85, 0xcd881ee59ca6bc53);
  }

  lemma Rounds80()
    ensures After(80, Working(0x73a54f399fa4b1b2, 0x10d9c4c4295599f6, 0xd67806db8b148677, 0x654ef9abec389ca9,
      0xd08446aa79693ed7, 0x9bb4d39778c07f9e, 0x25c96a7768fb2aa3, 0xceb9fc3691ce8326))
  {
    hide After, WordIs, M, K;
    Constants64();
    Rounds64();
    Words64();
    var s := Working(0xab44e86276478d85, 0xa81dedbb9f19e643, 0xcfcd928c5424e2b6, 0x3857dfd2fc37d3ba,
      0xcd881ee59ca6bc53, 0x84058865d60a05fa, 0x09aee5bda1644de5, 0xa6af4e9c9f807e51);
    s := Step(64, s, 0xca273eceea26619c, 0x5099c3add79f90ec, 0x5a806d7e9821a501, 0xaa84b086688a5c45);
    s := Step(65, s, 0xd186b8c721c0c207, 0x5ea81d78e7660bf1, 0xeeb9c21bb0102598, 0x3b5fed0d6a1f96e1);
    s := Step(66, s, 0xeada7dd6cde0eb1e, 0xebee6267405ac2a9, 0x46c4210ab2cc155d, 0x29fab5a7bff53366);
    s := Step(67, s, 0xf57d4f7fee6ed178, 0xb01f21926108a4ab, 0x54ba35cf56a0340e, 0x1c66f46d95690bcf);
    s := Step(68, s, 0x06f067aa72176fba, 0x786433dd2fe65556, 0x181839d609c79748, 0x0ada78ba2d446140);
    s := Step(69, s, 0x0a637dc5a2c898a6, 0xc54a6eaa24a0552c, 0xfb6aaae5d0b6a447, 0xe3711cb6564d112d);
    s := Step(70, s, 0x113f9804bef90dae, 0xb3c8f1530bdbaa9e, 0x7652c579cb60f19c, 0xaff62c9665ff80fa);
    s := Step(71, s, 0x1b710b35131c471b, 0xbb8abfe56f469338, 0xf15e9664b2803575, 0x947c3dfafee570ef);
    s := Step(72, s, 0x28db77f523047d84, 0xf63d4265cc1c5a78, 0x358406d165aee9ab, 0x8c7b5fd91a794ca0);
    s := Step(73, s, 0x32caab7b40c72493, 0xbe8355ea73129afb, 0x20878dcd29cdfaf5, 0x054d3536539948d0);
    s := Step(74, s, 0x3c9ebe0a15c9bebc, 0x49e2db8ebdcfbeb5, 0x33d48dabb5521de2, 0x2ba18245b50de4cf);
    s := Step(75, s, 0x431d67c49c100d4c, 0x82269d4a883a3d99, 0xc8960e6be864b916, 0x995019a6ff3ba3de);
    s := Step(76, s, 0x4cc5d4becb3e42b6, 0xfdf53df3011f362b, 0x654ef9abec389ca9, 0xceb9fc3691ce8326);
    s := Step(77, s, 0x597f299cfc657e2a, 0x464af5671d71c12e, 0xd67806db8b148677, 0x25c96a7768fb2aa3);
    s := Step(78, s, 0x5fcb6fab3ad6faec, 0xe449b68198ec611c, 0x10d9c4c4295599f6, 0x9bb4d39778c07f9e);
    s := Step(79, s, 0x6c44198c4a475817, 0x92aeeed1a7bcf7d2, 0x73a54f399fa4b1b2, 0xd08446aa79693ed7);
  }

  // ------------------------------------------------------------------ the digest

  /** The end mark, the least number of zeros, and the twenty-four bits of the message. */
  const BLOCK_BYTES: seq<Byte> := ABC + [0x80] + Zeros(123) + [24]

  lemma {:induction false} SmallBigEndian(n: nat, count: nat)
    requires n < 256 && count > 0
    ensures BigEndian(n, count) == Zeros(count - 1) + [n]
  {
    if count > 1 {
      ZeroBigEndian(count - 1);
      assert BigEndian(n, count) == BigEndian(0, count - 1) + [n];
    } else {
      assert BigEndian(n, 1) == BigEndian(n / 256, 0) + [n];
    }
  }

  lemma {:induction false} ZeroBigEndian(count: nat)
    ensures BigEndian(0, count) == Zeros(count)
  {
    if count > 0 { ZeroBigEndian(count - 1); }
  }

  lemma PaddedAbc()
    ensures Padded(ABC, BLOCK, 16) == BLOCK_BYTES && |BLOCK_BYTES| == BLOCK
  {
    assert ZeroCount(3, BLOCK, 16) == 108 by {
      assert Fits(3, 108, BLOCK, 16);
    }
    SmallBigEndian(24, 16);
  }

  lemma BytesOfBlock(i: nat)
    requires i < BLOCK
    ensures |BLOCK_BYTES| == BLOCK
    ensures BLOCK_BYTES[i] == if i == 0 then 0x61 else if i == 1 then 0x62 else if i == 2 then 0x63
                              else if i == 3 then 0x80 else if i == BLOCK - 1 then 24 else 0
  {
  }

  lemma WordOfBlock(i: nat)
    requires i < 16
    ensures |BLOCK_BYTES| == BLOCK && |M| == 16 && WordAt(BLOCK_BYTES, 8 * i) == M[i]
  {
    BlockWords();
    PackedWords();
    hide M, BLOCK_BYTES, Packed;
    BytesOfBlock(8 * i);
    BytesOfBlock(8 * i + 1);
    BytesOfBlock(8 * i + 2);
    BytesOfBlock(8 * i + 3);
    BytesOfBlock(8 * i + 4);
    BytesOfBlock(8 * i + 5);
    BytesOfBlock(8 * i + 6);
    BytesOfBlock(8 * i + 7);
  }

  lemma PackedWords()
    ensures Packed(0x61, 0x62, 0x63, 0x80, 0, 0, 0, 0) == 0x6162638000000000
    ensures Packed(0, 0, 0, 0, 0, 0, 0, 24) == 24 && Packed(0, 0, 0, 0, 0, 0, 0, 0) == 0
  {
  }

  lemma {:induction false} WordsOfBlock(count: nat)
    requires count <= 16
    ensures |BLOCK_BYTES| == BLOCK && |M| == 16 && Words(BLOCK_BYTES[..8 * count], count) == M[..count]
  {
    hide WordAt, M, BLOCK_BYTES;
    if count > 0 {
      WordOfBlock(count - 1);
      WordsOfBlock(count - 1);
      var part, last := BLOCK_BYTES[..8 * count], 8 * (count - 1);
      assert part[..last] == BLOCK_BYTES[..last];
      SameWord(BLOCK_BYTES, part, 0, last);
      assert M[..count] == M[..count - 1] + [M[count - 1]];
    } else {
      WordOfBlock(0);
      assert BLOCK_BYTES[..0] == [];
    }
  }

  /** The hash value after the one block. */
  const HASH: seq<Word> := [
    0xddaf35a193617aba, 0xcc417349ae204131, 0x12e6fa4e89a97ea2, 0x0a9eeee64b55d39a,
    0x2192992a274fc1a8, 0x36ba3c23a3feebbd, 0x454d4423643ce80e, 0x2a9ac94fa54ca49f]

  /** The digest in the example of the standard. */
  lemma DigestOfAbc()
    ensures Digest(ABC) ==
      [0xdd, 0xaf, 0x35, 0xa1, 0x93, 0x61, 0x7a, 0xba]
      + [0xcc, 0x41, 0x73, 0x49, 0xae, 0x20, 0x41, 0x31]
      + [0x12, 0xe6, 0xfa, 0x4e, 0x89, 0xa9, 0x7e, 0xa2]
      + [0x0a, 0x9e, 0xee, 0xe6, 0x4b, 0x55, 0xd3, 0x9a]
      + [0x21, 0x92, 0x99, 0x2a, 0x27, 0x4f, 0xc1, 0xa8]
      + [0x36, 0xba, 0x3c, 0x23, 0xa3, 0xfe, 0xeb, 0xbd]
      + [0x45, 0x4d, 0x44, 0x23, 0x64, 0x3c, 0xe8, 0x0e]
      + [0x2a, 0x9a, 0xc9, 0x4f, 0xa5, 0x4c, 0xa4, 0x9f]
  {
    hide Words, Padded, M, After, Rounds;
    Lengths();
    assert Compressed(INITIAL, M) == HASH by {
      Rounds80();
      AfterIsRounds(80, Working(0x73a54f399fa4b1b2, 0x10d9c4c4295599f6, 0xd67806db8b148677, 0x654ef9abec389ca9,
        0xd08446aa79693ed7, 0x9bb4d39778c07f9e, 0x25c96a7768fb2aa3, 0xceb9fc3691ce8326));
    }
    hide Compressed, INITIAL, HASH;
    PaddedAbc();
    WordsOfBlock(16);
    assert M[..16] == M && BLOCK_BYTES[..8 * 16] == BLOCK_BYTES && BLOCK_BYTES[BLOCK..] == [];
    ChainStep(INITIAL, BLOCK_BYTES);
    ChainEnds(HASH);
    OutputOfHash();
  }

  lemma Shifted(w: Word)
    ensures ByteOf(w, 56) == ((w >> 56) & 0xff) as bv8 as int
    ensures ByteOf(w, 48) == ((w >> 48) & 0xff) as bv8 as int
    ensures ByteOf(w, 40) == ((w >> 40) & 0xff) as bv8 as int
    ensures ByteOf(w, 32) == ((w >> 32) & 0xff) as bv8 as int
    ensures ByteOf(w, 24) == ((w >> 24) & 0xff) as bv8 as int
    ensures ByteOf(w, 16) == ((w >> 16) & 0xff) as bv8 as int
    ensures ByteOf(w, 8) == ((w >> 8) & 0xff) as bv8 as int
    ensures ByteOf(w, 0) == (w & 0xff) as bv8 as int
  {
  }

  lemma Bytes(w: Word, b0: Byte, b1: Byte, b2: Byte, b3: Byte, b4: Byte, b5: Byte, b6: Byte, b7: Byte)
    requires ((w >> 56) & 0xff) as bv8 as int == b0
    requires ((w >> 48) & 0xff) as bv8 as int == b1
    requires ((w >> 40) & 0xff) as bv8 as int == b2
    requires ((w >> 32) & 0xff) as bv8 as int == b3
    requires ((w >> 24) & 0xff) as bv8 as int == b4
    requires ((w >> 16) & 0xff) as bv8 as int == b5
    requires ((w >> 8) & 0xff) as bv8 as int == b6
    requires (w & 0xff) as bv8 as int == b7
    ensures WordBytes(w) == [b0, b1, b2, b3, b4, b5, b6, b7]
  {
    Shifted(w);
    hide ByteOf;
  }

  lemma OutputPrefix(i: nat)
    requires i < 8
    ensures |HASH| == 8 && Output(HASH[..i + 1]) == Output(HASH[..i]) + WordBytes(HASH[i])
  {
    HashWords();
    hide HASH, WordBytes;
    assert HASH[..i + 1][..i] == HASH[..i];
  }

  lemma HashWords()
    ensures |HASH| == 8
    ensures HASH[0] == 0xddaf35a193617aba && HASH[1] == 0xcc417349ae204131
    ensures HASH[2] == 0x12e6fa4e89a97ea2 && HASH[3] == 0x0a9eeee64b55d39a
    ensures HASH[4] == 0x2192992a274fc1a8 && HASH[5] == 0x36ba3c23a3feebbd
    ensures HASH[6] == 0x454d4423643ce80e && HASH[7] == 0x2a9ac94fa54ca49f
  {
  }

  lemma HashBytes()
    ensures |HASH| == 8
    ensures WordBytes(HASH[0]) == [0xdd, 0xaf, 0x35, 0xa1, 0x93, 0x61, 0x7a, 0xba]
    ensures WordBytes(HASH[1]) == [0xcc, 0x41, 0x73, 0x49, 0xae, 0x20, 0x41, 0x31]
    ensures WordBytes(HASH[2]) == [0x12, 0xe6, 0xfa, 0x4e, 0x89, 0xa9, 0x7e, 0xa2]
    ensures WordBytes(HASH[3]) == [0x0a, 0x9e, 0xee, 0xe6, 0x4b, 0x55, 0xd3, 0x9a]
    ensures WordBytes(HASH[4]) == [0x21, 0x92, 0x99, 0x2a, 0x27, 0x4f, 0xc1, 0xa8]
    ensures WordBytes(HASH[5]) == [0x36, 0xba, 0x3c, 0x23, 0xa3, 0xfe, 0xeb, 0xbd]
    ensures WordBytes(HASH[6]) == [0x45, 0x4d, 0x44, 0x23, 0x64, 0x3c, 0xe8, 0x0e]
    ensures WordBytes(HASH[7]) == [0x2a, 0x9a, 0xc9, 0x4f, 0xa5, 0x4c, 0xa4, 0x9f]
  {
    HashWords();
    hide WordBytes, HASH;
    Bytes(0xddaf35a193617aba, 0xdd, 0xaf, 0x35, 0xa1, 0x93, 0x61, 0x7a, 0xba);
    Bytes(0xcc417349ae204131, 0xcc, 0x41, 0x73, 0x49, 0xae, 0x20, 0x41, 0x31);
    Bytes(0x12e6fa4e89a97ea2, 0x12, 0xe6, 0xfa, 0x4e, 0x89, 0xa9, 0x7e, 0xa2);
    Bytes(0x0a9eeee64b55d39a, 0x0a, 0x9e, 0xee, 0xe6, 0x4b, 0x55, 0xd3, 0x9a);
    Bytes(0x2192992a274fc1a8, 0x21, 0x92, 0x99, 0x2a, 0x27, 0x4f, 0xc1, 0xa8);
    Bytes(0x36ba3c23a3feebbd, 0x36, 0xba, 0x3c, 0x23, 0xa3, 0xfe, 0xeb, 0xbd);
    Bytes(0x454d4423643ce80e, 0x45, 0x4d, 0x44, 0x23, 0x64, 0x3c, 0xe8, 0x0e);
    Bytes(0x2a9ac94fa54ca49f, 0x2a, 0x9a, 0xc9, 0x4f, 0xa5, 0x4c, 0xa4, 0x9f);
  }

  lemma OutputInWords()
    ensures |HASH| == 8 && Output(HASH) ==
      WordBytes(HASH[0]) + WordBytes(HASH[1]) + WordBytes(HASH[2]) + WordBytes(HASH[3])
      + WordBytes(HASH[4]) + WordBytes(HASH[5]) + WordBytes(HASH[6]) + WordBytes(HASH[7])
  {
    HashWords();
    hide WordBytes, Output, HASH;
    OutputPrefix(0);
    OutputPrefix(1);
    OutputPrefix(2);
    OutputPrefix(3);
    OutputPrefix(4);
    OutputPrefix(5);
    OutputPrefix(6);
    OutputPrefix(7);
    assert HASH[..8] == HASH && HASH[..0] == [];
    OutputNothing();
    assert [] + WordBytes(HASH[0]) == WordBytes(HASH[0]);
  }

  lemma OutputOfHash()
    ensures Output(HASH) ==
      [0xdd, 0xaf, 0x35, 0xa1, 0x93, 0x61, 0x7a, 0xba]
      + [0xcc, 0x41, 0x73, 0x49, 0xae, 0x20, 0x41, 0x31]
      + [0x12, 0xe6, 0xfa, 0x4e, 0x89, 0xa9, 0x7e, 0xa2]
      + [0x0a, 0x9e, 0xee, 0xe6, 0x4b, 0x55, 0xd3, 0x9a]
      + [0x21, 0x92, 0x99, 0x2a, 0x27, 0x4f, 0xc1, 0xa8]
      + [0x36, 0xba, 0x3c, 0x23, 0xa3, 0xfe, 0xeb, 0xbd]
      + [0x45, 0x4d, 0x44, 0x23, 0x64, 0x3c, 0xe8, 0x0e]
      + [0x2a, 0x9a, 0xc9, 0x4f, 0xa5, 0x4c, 0xa4, 0x9f]
  {
    hide WordBytes, Output, HASH;
    HashBytes();
    OutputInWords();
  }

  lemma OutputNothing()
    ensures Output([]) == []
  {
  }
}
