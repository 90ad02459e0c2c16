/** Where the constants of SHA-2 come from: sections 4.2.2, 4.2.3, 5.3.3 and 5.3.5 of FIPS 180-4. */
module ShaConstants {
  import opened HashPadding
  import Sha256
  import Sha512

  // ------------------------------------------------------------------ the first eighty primes

  ghost predicate IsPrime(n: nat) {
    n >= 2 && forall a: nat, b: nat :: a >= 2 && b >= 2 ==> Product(a, b) != n
  }

  function Product(a: nat, b: nat): nat { a * b }

  const P0: seq<nat> := [2, 3, 5, 7, 11, 13, 17, 19, 23, 29, 31, 37, 41, 43, 47, 53]
  const P1: seq<nat> := [59, 61, 67, 71, 73, 79, 83, 89, 97, 101, 103, 107, 109, 113, 127, 131]
  const P2: seq<nat> := [137, 139, 149, 151, 157, 163, 167, 173, 179, 181, 191, 193, 197, 199, 211, 223]
  const P3: seq<nat> := [227, 229, 233, 239, 241, 251, 257, 263, 269, 271, 277, 281, 283, 293, 307, 311]
  const P4: seq<nat> := [313, 317, 331, 337, 347, 349, 353, 359, 367, 373, 379, 383, 389, 397, 401, 409]
  const PRIMES: seq<nat> := P0 + P1 + P2 + P3 + P4

  predicate IsMultiple(n: nat, d: nat)
    requires d > 0
  {
    n % d == 0 && n != d
  }

  /** No prime up to nineteen divides `n`, apart from `n` itself. */
  predicate NoSmallFactor(n: nat) {
    && !IsMultiple(n, 2) && !IsMultiple(n, 3) && !IsMultiple(n, 5) && !IsMultiple(n, 7)
    && !IsMultiple(n, 11) && !IsMultiple(n, 13) && !IsMultiple(n, 17) && !IsMultiple(n, 19)
  }

  lemma HasFactor(d: nat, k: nat, b: nat)
    requires d in {2, 3, 5, 7, 11, 13, 17, 19} && k >= 1 && b >= 2
    ensures !NoSmallFactor(Product(d * k, b))
  {
    Regrouped(d, k, b);
    AtLeastTwo(k, b);
    TimesIsMultiple(Product(d * k, b), d, Product(k, b));
    hide IsMultiple;
  }

  lemma TimesIsMultiple(n: nat, d: nat, m: nat)
    requires d >= 2 && m >= 2 && n == d * m
    ensures IsMultiple(n, d)
  {
    DivisionUnique(n, d, m, 0);
    assert n >= 2 * d;
  }

  lemma Regrouped(d: nat, k: nat, b: nat)
    ensures Product(d * k, b) == d * Product(k, b)
  {
  }

  lemma AtLeastTwo(k: nat, b: nat)
    requires k >= 1 && b >= 2
    ensures Product(k, b) >= 2
  {
  }

  lemma SmallTimes(a: nat, b: nat)
    requires 2 <= a <= 20 && b >= 2
    ensures !NoSmallFactor(Product(a, b))
  {
    hide NoSmallFactor, Product;
    var d := if a % 2 == 0 then 2 else if a % 3 == 0 then 3 else if a % 5 == 0 then 5 else if a % 7 == 0 then 7 else a;
    assert a == d * (a / d);
    HasFactor(d, a / d, b);
  }

  /** Below twenty-one squared a number without a small factor is prime, and any other is not. */
  lemma PrimeIff(n: nat)
    requires 2 <= n < 441
    ensures IsPrime(n) <==> NoSmallFactor(n)
  {
    if NoSmallFactor(n) {
      hide NoSmallFactor, Product;
      forall a: nat, b: nat | a >= 2 && b >= 2
        ensures Product(a, b) != n
      {
        NotTheProduct(n, a, b);
      }
    } else {
      FactorFound(n);
      hide IsPrime;
    }
  }

  lemma NotTheProduct(n: nat, a: nat, b: nat)
    requires n < 441 && NoSmallFactor(n) && a >= 2 && b >= 2
    ensures Product(a, b) != n
  {
    hide NoSmallFactor;
    var s, t := if a <= b then a else b, if a <= b then b else a;
    assert Product(s, t) == Product(a, b);
    hide Product;
    if s > 20 { Squares(s, t); } else { SmallTimes(s, t); }
  }

  lemma FactorFound(n: nat)
    requires n >= 2 && !NoSmallFactor(n)
    ensures !IsPrime(n)
  {
    var d :| d in {2, 3, 5, 7, 11, 13, 17, 19} && IsMultiple(n, d);
    hide NoSmallFactor;
    Divided(n, d);
  }

  lemma Divided(n: nat, d: nat)
    requires n >= 2 && d >= 2 && IsMultiple(n, d)
    ensures !IsPrime(n)
  {
    DivisionHolds(n, d);
    var m := Quotient(n, d);
    assert n == Times(d, m);
    hide IsMultiple, Quotient, Remainder;
    assert m != 0 && m != 1;
    assert Product(d, m) == n;
  }

  lemma Squares(s: nat, t: nat)
    requires 21 <= s <= t
    ensures Product(s, t) >= 441
  {
  }

  // ------------------------------------------------------------------ they are the primes, in order, and all of them

  /** `q` is the next prime after `p`. */
  ghost predicate NextPrime(p: nat, q: nat) {
    p < q && IsPrime(q) && forall n: nat :: p < n < q ==> !IsPrime(n)
  }

  /** Of the numbers from `n` to `q` only the last has no small factor. */
  predicate OnlyLast(n: nat, q: nat)
    requires n <= q
    decreases q - n
  {
    if n == q then NoSmallFactor(q) else !NoSmallFactor(n) && OnlyLast(n + 1, q)
  }

  lemma {:induction false} OnlyLastIsNext(n: nat, q: nat)
    requires 3 <= n <= q < 441 && OnlyLast(n, q)
    ensures NextPrime(n - 1, q)
    decreases q - n
  {
    hide IsPrime, NoSmallFactor;
    PrimeIff(n);
    if n < q { OnlyLastIsNext(n + 1, q); }
  }

  lemma Gaps0()
    ensures OnlyLast(3, 3) && OnlyLast(4, 5) && OnlyLast(6, 7)
  {
  }

  lemma Gaps1()
    ensures OnlyLast(8, 11) && OnlyLast(12, 13) && OnlyLast(14, 17) && OnlyLast(18, 19)
  {
  }

  lemma Gaps2()
    ensures OnlyLast(20, 23) && OnlyLast(24, 29) && OnlyLast(30, 31) && OnlyLast(32, 37)
  {
  }

  lemma Gaps3()
    ensures OnlyLast(38, 41) && OnlyLast(42, 43) && OnlyLast(44, 47) && OnlyLast(48, 53)
  {
  }

  lemma Gaps4()
    ensures OnlyLast(54, 59) && OnlyLast(60, 61) && OnlyLast(62, 67) && OnlyLast(68, 71)
  {
  }

  lemma Gaps5()
    ensures OnlyLast(72, 73) && OnlyLast(74, 79) && OnlyLast(80, 83) && OnlyLast(84, 89)
  {
  }

  lemma Gaps6()
    ensures OnlyLast(90, 97) && OnlyLast(98, 101) && OnlyLast(102, 103) && OnlyLast(104, 107)
  {
  }

  lemma Gaps7()
    ensures OnlyLast(108, 109) && OnlyLast(110, 113) && OnlyLast(114, 127) && OnlyLast(128, 131)
  {
  }

  lemma Gaps8()
    ensures OnlyLast(132, 137) && OnlyLast(138, 139) && OnlyLast(140, 149) && OnlyLast(150, 151)
  {
  }

  lemma Gaps9()
    ensures OnlyLast(152, 157) && OnlyLast(158, 163) && OnlyLast(164, 167) && OnlyLast(168, 173)
  {
  }

  lemma Gaps10()
    ensures OnlyLast(174, 179) && OnlyLast(180, 181) && OnlyLast(182, 191) && OnlyLast(192, 193)
  {
  }

  lemma Gaps11()
    ensures OnlyLast(194, 197) && OnlyLast(198, 199) && OnlyLast(200, 211) && OnlyLast(212, 223)
  {
  }

  lemma Gaps12()
    ensures OnlyLast(224, 227) && OnlyLast(228, 229) && OnlyLast(230, 233) && OnlyLast(234, 239)
  {
  }

  lemma Gaps13()
    ensures OnlyLast(240, 241) && OnlyLast(242, 251) && OnlyLast(252, 257) && OnlyLast(258, 263)
  {
  }

  lemma Gaps14()
    ensures OnlyLast(264, 269) && OnlyLast(270, 271) && OnlyLast(272, 277) && OnlyLast(278, 281)
  {
  }

  lemma Gaps15()
    ensures OnlyLast(282, 283) && OnlyLast(284, 293) && OnlyLast(294, 307) && OnlyLast(308, 311)
  {
  }

  lemma Gaps16()
    ensures OnlyLast(312, 313) && OnlyLast(314, 317) && OnlyLast(318, 331) && OnlyLast(332, 337)
  {
  }

  lemma Gaps17()
    ensures OnlyLast(338, 347) && OnlyLast(348, 349) && OnlyLast(350, 353) && OnlyLast(354, 359)
  {
  }

  lemma Gaps18()
    ensures OnlyLast(360, 367) && OnlyLast(368, 373) && OnlyLast(374, 379) && OnlyLast(380, 383)
  {
  }

  lemma Gaps19()
    ensures OnlyLast(384, 389) && OnlyLast(390, 397) && OnlyLast(398, 401) && OnlyLast(402, 409)
  {
  }

  lemma InOrder0()
    ensures (forall i :: 0 < i < 16 ==> NextPrime(P0[i - 1], P0[i]))
  {
    hide OnlyLast, NextPrime;
    Gaps0();
    Gaps1();
    Gaps2();
    Gaps3();
    forall i | 0 < i < 16
      ensures NextPrime(P0[i - 1], P0[i])
    {
      OnlyLastIsNext(P0[i - 1] + 1, P0[i]);
    }
  }

  lemma InOrder1()
    ensures (forall i :: 0 < i < 16 ==> NextPrime(P1[i - 1], P1[i])) && NextPrime(P0[15], P1[0])
  {
    hide OnlyLast, NextPrime;
    Gaps4();
    Gaps5();
    Gaps6();
    Gaps7();
    forall i | 0 < i < 16
      ensures NextPrime(P1[i - 1], P1[i])
    {
      OnlyLastIsNext(P1[i - 1] + 1, P1[i]);
    }
    OnlyLastIsNext(P0[15] + 1, P1[0]);
  }

  lemma InOrder2()
    ensures (forall i :: 0 < i < 16 ==> NextPrime(P2[i - 1], P2[i])) && NextPrime(P1[15], P2[0])
  {
    hide OnlyLast, NextPrime;
    Gaps8();
    Gaps9();
    Gaps10();
    Gaps11();
    forall i | 0 < i < 16
      ensures NextPrime(P2[i - 1], P2[i])
    {
      OnlyLastIsNext(P2[i - 1] + 1, P2[i]);
    }
    OnlyLastIsNext(P1[15] + 1, P2[0]);
  }

  lemma InOrder3()
    ensures (forall i :: 0 < i < 16 ==> NextPrime(P3[i - 1], P3[i])) && NextPrime(P2[15], P3[0])
  {
    hide OnlyLast, NextPrime;
    Gaps12();
    Gaps13();
    Gaps14();
    Gaps15();
    forall i | 0 < i < 16
      ensures NextPrime(P3[i - 1], P3[i])
    {
      OnlyLastIsNext(P3[i - 1] + 1, P3[i]);
    }
    OnlyLastIsNext(P2[15] + 1, P3[0]);
  }

  lemma InOrder4()
    ensures (forall i :: 0 < i < 16 ==> NextPrime(P4[i - 1], P4[i])) && NextPrime(P3[15], P4[0])
  {
    hide OnlyLast, NextPrime;
    Gaps16();
    Gaps17();
    Gaps18();
    Gaps19();
    forall i | 0 < i < 16
      ensures NextPrime(P4[i - 1], P4[i])
    {
      OnlyLastIsNext(P4[i - 1] + 1, P4[i]);
    }
    OnlyLastIsNext(P3[15] + 1, P4[0]);
  }

  lemma RowLengths()
    ensures |P0| == 16 && |P1| == 16 && |P2| == 16 && |P3| == 16 && |P4| == 16 && P0[0] == 2
  {
  }

  /** The table holds the first eighty primes: two, and after each the next. */
  lemma FirstPrimes()
    ensures |PRIMES| == 80 && PRIMES[0] == 2
    ensures forall i :: 0 < i < 80 ==> NextPrime(PRIMES[i - 1], PRIMES[i])
  {
    hide NextPrime;
    RowLengths();
    InOrder0();
    InOrder1();
    InOrder2();
    InOrder3();
    InOrder4();
    hide P0, P1, P2, P3, P4;
  }

  // ------------------------------------------------------------------ the bits of their roots

  const TWO_64 := 0x1_0000_0000_0000_0000
  const TWO_32 := 0x1_0000_0000

  function Cube(n: nat): nat { n * n * n }

  /** `r` and the word `k` after its point bound the cube root of `p` from below, within one in the last place. */
  predicate CubeRootBetween(p: nat, r: nat, k: nat) {
    Cube(r * TWO_64 + k) <= p * Cube(TWO_64) < Cube(r * TWO_64 + k + 1)
  }

  /** `k` is the first 64 bits of the fractional part of the cube root of `p`. */
  ghost predicate CubeRootBits(p: nat, k: nat) {
    k < TWO_64 && exists r: nat :: CubeRootBetween(p, r, k)
  }

  lemma CubeRoot(p: nat, r: nat, k: nat)
    requires k < TWO_64 && CubeRootBetween(p, r, k)
    ensures CubeRootBits(p, k)
  {
  }

  lemma Roots0()
    ensures CubeRootBits(2, 0x428a2f98d728ae22) && CubeRootBits(3, 0x7137449123ef65cd)
    ensures CubeRootBits(5, 0xb5c0fbcfec4d3b2f) && CubeRootBits(7, 0xe9b5dba58189dbbc)
    ensures CubeRootBits(11, 0x3956c25bf348b538) && CubeRootBits(13, 0x59f111f1b605d019)
    ensures CubeRootBits(17, 0x923f82a4af194f9b) && CubeRootBits(19, 0xab1c5ed5da6d8118)
  {
    hide CubeRootBits;
    CubeRoot(2, 1, 0x428a2f98d728ae22);
    CubeRoot(3, 1, 0x7137449123ef65cd);
    CubeRoot(5, 1, 0xb5c0fbcfec4d3b2f);
    CubeRoot(7, 1, 0xe9b5dba58189dbbc);
    CubeRoot(11, 2, 0x3956c25bf348b538);
    CubeRoot(13, 2, 0x59f111f1b605d019);
    CubeRoot(17, 2, 0x923f82a4af194f9b);
    CubeRoot(19, 2, 0xab1c5ed5da6d8118);
  }

  lemma Roots1()
    ensures CubeRootBits(23, 0xd807aa98a3030242) && CubeRootBits(29, 0x12835b0145706fbe)
    ensures CubeRootBits(31, 0x243185be4ee4b28c) && CubeRootBits(37, 0x550c7dc3d5ffb4e2)
    ensures CubeRootBits(41, 0x72be5d74f27b896f) && CubeRootBits(43, 0x80deb1fe3b1696b1)
    ensures CubeRootBits(47, 0x9bdc06a725c71235) && CubeRootBits(53, 0xc19bf174cf692694)
  {
    hide CubeRootBits;
    CubeRoot(23, 2, 0xd807aa98a3030242);
    CubeRoot(29, 3, 0x12835b0145706fbe);
    CubeRoot(31, 3, 0x243185be4ee4b28c);
    CubeRoot(37, 3, 0x550c7dc3d5ffb4e2);
    CubeRoot(41, 3, 0x72be5d74f27b896f);
    CubeRoot(43, 3, 0x80deb1fe3b1696b1);
    CubeRoot(47, 3, 0x9bdc06a725c71235);
    CubeRoot(53, 3, 0xc19bf174cf692694);
  }

  lemma Roots2()
    ensures CubeRootBits(59, 0xe49b69c19ef14ad2) && CubeRootBits(61, 0xefbe4786384f25e3)
    ensures CubeRootBits(67, 0x0fc19dc68b8cd5b5) && CubeRootBits(71, 0x240ca1cc77ac9c65)
    ensures CubeRootBits(73, 0x2de92c6f592b0275) && CubeRootBits(79, 0x4a7484aa6ea6e483)
    ensures CubeRootBits(83, 0x5cb0a9dcbd41fbd4) && CubeRootBits(89, 0x76f988da831153b5)
  {
    hide CubeRootBits;
    CubeRoot(59, 3, 0xe49b69c19ef14ad2);
    CubeRoot(61, 3, 0xefbe4786384f25e3);
    CubeRoot(67, 4, 0x0fc19dc68b8cd5b5);
    CubeRoot(71, 4, 0x240ca1cc77ac9c65);
    CubeRoot(73, 4, 0x2de92c6f592b0275);
    CubeRoot(79, 4, 0x4a7484aa6ea6e483);
    CubeRoot(83, 4, 0x5cb0a9dcbd41fbd4);
    CubeRoot(89, 4, 0x76f988da831153b5);
  }

  lemma Roots3()
    ensures CubeRootBits(97, 0x983e5152ee66dfab) && CubeRootBits(101, 0xa831c66d2db43210)
    ensures CubeRootBits(103, 0xb00327c898fb213f) && CubeRootBits(107, 0xbf597fc7beef0ee4)
    ensures CubeRootBits(109, 0xc6e00bf33da88fc2) && CubeRootBits(113, 0xd5a79147930aa725)
    ensures CubeRootBits(127, 0x06ca6351e003826f) && CubeRootBits(131, 0x142929670a0e6e70)
  {
    hide CubeRootBits;
    CubeRoot(97, 4, 0x983e5152ee66dfab);
    CubeRoot(101, 4, 0xa831c66d2db43210);
    CubeRoot(103, 4, 0xb00327c898fb213f);
    CubeRoot(107, 4, 0xbf597fc7beef0ee4);
    CubeRoot(109, 4, 0xc6e00bf33da88fc2);
    CubeRoot(113, 4, 0xd5a79147930aa725);
    CubeRoot(127, 5, 0x06ca6351e003826f);
    CubeRoot(131, 5, 0x142929670a0e6e70);
  }

  lemma Roots4()
    ensures CubeRootBits(137, 0x27b70a8546d22ffc) && CubeRootBits(139, 0x2e1b21385c26c926)
    ensures CubeRootBits(149, 0x4d2c6dfc5ac42aed) && CubeRootBits(151, 0x53380d139d95b3df)
    ensures CubeRootBits(157, 0x650a73548baf63de) && CubeRootBits(163, 0x766a0abb3c77b2a8)
    ensures CubeRootBits(167, 0x81c2c92e47edaee6) && CubeRootBits(173, 0x92722c851482353b)
  {
    hide CubeRootBits;
    CubeRoot(137, 5, 0x27b70a8546d22ffc);
    CubeRoot(139, 5, 0x2e1b21385c26c926);
    CubeRoot(149, 5, 0x4d2c6dfc5ac42aed);
    CubeRoot(151, 5, 0x53380d139d95b3df);
    CubeRoot(157, 5, 0x650a73548baf63de);
    CubeRoot(163, 5, 0x766a0abb3c77b2a8);
    CubeRoot(167, 5, 0x81c2c92e47edaee6);
    CubeRoot(173, 5, 0x92722c851482353b);
  }

  lemma Roots5()
    ensures CubeRootBits(179, 0xa2bfe8a14cf10364) && CubeRootBits(181, 0xa81a664bbc423001)
    ensures CubeRootBits(191, 0xc24b8b70d0f89791) && CubeRootBits(193, 0xc76c51a30654be30)
    ensures CubeRootBits(197, 0xd192e819d6ef5218) && CubeRootBits(199, 0xd69906245565a910)
    ensures CubeRootBits(211, 0xf40e35855771202a) && CubeRootBits(223, 0x106aa07032bbd1b8)
  {
    hide CubeRootBits;
    CubeRoot(179, 5, 0xa2bfe8a14cf10364);
    CubeRoot(181, 5, 0xa81a664bbc423001);
    CubeRoot(191, 5, 0xc24b8b70d0f89791);
    CubeRoot(193, 5, 0xc76c51a30654be30);
    CubeRoot(197, 5, 0xd192e819d6ef5218);
    CubeRoot(199, 5, 0xd69906245565a910);
    CubeRoot(211, 5, 0xf40e35855771202a);
    CubeRoot(223, 6, 0x106aa07032bbd1b8);
  }

  lemma Roots6()
    ensures CubeRootBits(227, 0x19a4c116b8d2d0c8) && CubeRootBits(229, 0x1e376c085141ab53)
    ensures CubeRootBits(233, 0x2748774cdf8eeb99) && CubeRootBits(239, 0x34b0bcb5e19b48a8)
    ensures CubeRootBits(241, 0x391c0cb3c5c95a63) && CubeRootBits(251, 0x4ed8aa4ae3418acb)
    ensures CubeRootBits(257, 0x5b9cca4f7763e373) && CubeRootBits(263, 0x682e6ff3d6b2b8a3)
  {
    hide CubeRootBits;
    CubeRoot(227, 6, 0x19a4c116b8d2d0c8);
    CubeRoot(229, 6, 0x1e376c085141ab53);
    CubeRoot(233, 6, 0x2748774cdf8eeb99);
    CubeRoot(239, 6, 0x34b0bcb5e19b48a8);
    CubeRoot(241, 6, 0x391c0cb3c5c95a63);
    CubeRoot(251, 6, 0x4ed8aa4ae3418acb);
    CubeRoot(257, 6, 0x5b9cca4f7763e373);
    CubeRoot(263, 6, 0x682e6ff3d6b2b8a3);
  }

  lemma Roots7()
    ensures CubeRootBits(269, 0x748f82ee5defb2fc) && CubeRootBits(271, 0x78a5636f43172f60)
    ensures CubeRootBits(277, 0x84c87814a1f0ab72) && CubeRootBits(281, 0x8cc702081a6439ec)
    ensures CubeRootBits(283, 0x90befffa23631e28) && CubeRootBits(293, 0xa4506cebde82bde9)
    ensures CubeRootBits(307, 0xbef9a3f7b2c67915) && CubeRootBits(311, 0xc67178f2e372532b)
  {
    hide CubeRootBits;
    CubeRoot(269, 6, 0x748f82ee5defb2fc);
    CubeRoot(271, 6, 0x78a5636f43172f60);
    CubeRoot(277, 6, 0x84c87814a1f0ab72);
    CubeRoot(281, 6, 0x8cc702081a6439ec);
    CubeRoot(283, 6, 0x90befffa23631e28);
    CubeRoot(293, 6, 0xa4506cebde82bde9);
    CubeRoot(307, 6, 0xbef9a3f7b2c67915);
    CubeRoot(311, 6, 0xc67178f2e372532b);
  }

  lemma Roots8()
    ensures CubeRootBits(313, 0xca273eceea26619c) && CubeRootBits(317, 0xd186b8c721c0c207)
    ensures CubeRootBits(331, 0xeada7dd6cde0eb1e) && CubeRootBits(337, 0xf57d4f7fee6ed178)
    ensures CubeRootBits(347, 0x06f067aa72176fba) && CubeRootBits(349, 0x0a637dc5a2c898a6)
    ensures CubeRootBits(353, 0x113f9804bef90dae) && CubeRootBits(359, 0x1b710b35131c471b)
  {
    hide CubeRootBits;
    CubeRoot(313, 6, 0xca273eceea26619c);
    CubeRoot(317, 6, 0xd186b8c721c0c207);
    CubeRoot(331, 6, 0xeada7dd6cde0eb1e);
    CubeRoot(337, 6, 0xf57d4f7fee6ed178);
    CubeRoot(347, 7, 0x06f067aa72176fba);
    CubeRoot(349, 7, 0x0a637dc5a2c898a6);
    CubeRoot(353, 7, 0x113f9804bef90dae);
    CubeRoot(359, 7, 0x1b710b35131c471b);
  }

  lemma Roots9()
    ensures CubeRootBits(367, 0x28db77f523047d84) && CubeRootBits(373, 0x32caab7b40c72493)
    ensures CubeRootBits(379, 0x3c9ebe0a15c9bebc) && CubeRootBits(383, 0x431d67c49c100d4c)
    ensures CubeRootBits(389, 0x4cc5d4becb3e42b6) && CubeRootBits(397, 0x597f299cfc657e2a)
    ensures CubeRootBits(401, 0x5fcb6fab3ad6faec) && CubeRootBits(409, 0x6c44198c4a475817)
  {
    hide CubeRootBits;
    CubeRoot(367, 7, 0x28db77f523047d84);
    CubeRoot(373, 7, 0x32caab7b40c72493);
    CubeRoot(379, 7, 0x3c9ebe0a15c9bebc);
    CubeRoot(383, 7, 0x431d67c49c100d4c);
    CubeRoot(389, 7, 0x4cc5d4becb3e42b6);
    CubeRoot(397, 7, 0x597f299cfc657e2a);
    CubeRoot(401, 7, 0x5fcb6fab3ad6faec);
    CubeRoot(409, 7, 0x6c44198c4a475817);
  }

  lemma Row0()
    ensures |Sha512.K0| == 16 && forall i :: 0 <= i < 16 ==> CubeRootBits(P0[i], Sha512.K0[i] as nat)
  {
    hide CubeRootBits;
    Roots0();
    Roots1();
  }

  lemma Row1()
    ensures |Sha512.K1| == 16 && forall i :: 0 <= i < 16 ==> CubeRootBits(P1[i], Sha512.K1[i] as nat)
  {
    hide CubeRootBits;
    Roots2();
    Roots3();
  }

  lemma Row2()
    ensures |Sha512.K2| == 16 && forall i :: 0 <= i < 16 ==> CubeRootBits(P2[i], Sha512.K2[i] as nat)
  {
    hide CubeRootBits;
    Roots4();
    Roots5();
  }

  lemma Row3()
    ensures |Sha512.K3| == 16 && forall i :: 0 <= i < 16 ==> CubeRootBits(P3[i], Sha512.K3[i] as nat)
  {
    hide CubeRootBits;
    Roots6();
    Roots7();
  }

  lemma Row4()
    ensures |Sha512.K4| == 16 && forall i :: 0 <= i < 16 ==> CubeRootBits(P4[i], Sha512.K4[i] as nat)
  {
    hide CubeRootBits;
    Roots8();
    Roots9();
  }

  /**
   The round constants of SHA-512: the first 64 bits of the fractional parts of the cube roots of the first eighty
   primes.
   */
  lemma Sha512Constants()
    ensures |PRIMES| == 80 && |Sha512.K| == 80
    ensures forall i :: 0 <= i < 80 ==> CubeRootBits(PRIMES[i], Sha512.K[i] as nat)
  {
    hide CubeRootBits;
    RowLengths();
    Row0();
    Row1();
    Row2();
    Row3();
    Row4();
    hide P0, P1, P2, P3, P4, Sha512.K0, Sha512.K1, Sha512.K2, Sha512.K3, Sha512.K4;
  }

  // ------------------------------------------------------------------ the shorter words

  /** `k` is the first 32 bits of the fractional part of the cube root of `p`. */
  ghost predicate CubeRootShort(p: nat, k: nat) {
    k < TWO_32 && exists r: nat :: ShortCubeRootBetween(p, r, k)
  }

  predicate ShortCubeRootBetween(p: nat, r: nat, k: nat) {
    Cube(r * TWO_32 + k) <= p * Cube(TWO_32) < Cube(r * TWO_32 + k + 1)
  }

  lemma CubeGrows(a: nat, b: nat)
    requires a <= b
    ensures Cube(a) <= Cube(b)
  {
    assert a * a <= b * b by { assert (b - a) * (b + a) >= 0; }
    assert a * a * a <= b * b * a;
    assert b * b * a <= b * b * b by { assert b * b * (b - a) >= 0; }
  }

  lemma CubeScaled(y: nat)
    ensures Cube(y * TWO_32) == Cube(y) * Cube(TWO_32)
  {
    assert (y * TWO_32) * (y * TWO_32) * (y * TWO_32) == (y * y * y) * (TWO_32 * TWO_32 * TWO_32);
  }

  /** The upper half of the 64 bits are the 32 bits. */
  lemma UpperHalf(p: nat, k: nat)
    requires CubeRootBits(p, k)
    ensures CubeRootShort(p, k / TWO_32)
  {
    var r: nat :| CubeRootBetween(p, r, k);
    var y, x := r * TWO_32 + k / TWO_32, r * TWO_64 + k;
    assert y * TWO_32 <= x && x + 1 <= (y + 1) * TWO_32;
    CubeGrows(y * TWO_32, x);
    CubeGrows(x + 1, (y + 1) * TWO_32);
    CubeScaled(y);
    CubeScaled(y + 1);
    assert Cube(TWO_64) == Cube(TWO_32) * Cube(TWO_32);
    hide Cube;
    Cancel(Cube(y), p * Cube(TWO_32), Cube(TWO_32));
    Cancel(p * Cube(TWO_32) + 1, Cube(y + 1), Cube(TWO_32));
    assert ShortCubeRootBetween(p, r, k / TWO_32);
  }

  lemma Cancel(a: nat, b: nat, c: nat)
    requires a * c < b * c + c
    ensures a <= b
  {
    if a > b { TimesGrows(b + 1, a, c); }
  }

  lemma TimesGrows(a: nat, b: nat, c: nat)
    requires a <= b
    ensures a * c <= b * c
  {
    assert (b - a) * c >= 0;
  }

  lemma UpperWords0(i: nat)
    requires i < 16
    ensures |Sha256.K0| == |Sha512.K0| == 16 && Sha256.K0[i] as nat == Sha512.K0[i] as nat / TWO_32
  {
  }

  lemma UpperWords1(i: nat)
    requires i < 16
    ensures |Sha256.K1| == |Sha512.K1| == 16 && Sha256.K1[i] as nat == Sha512.K1[i] as nat / TWO_32
  {
  }

  lemma UpperWords2(i: nat)
    requires i < 16
    ensures |Sha256.K2| == |Sha512.K2| == 16 && Sha256.K2[i] as nat == Sha512.K2[i] as nat / TWO_32
  {
  }

  lemma UpperWords3(i: nat)
    requires i < 16
    ensures |Sha256.K3| == |Sha512.K3| == 16 && Sha256.K3[i] as nat == Sha512.K3[i] as nat / TWO_32
  {
  }

  /** Each round constant of SHA-256 is the upper half of that of SHA-512. */
  lemma UpperWord(i: nat)
    requires i < 64
    ensures |Sha256.K| == 64 && |Sha512.K| == 80 && Sha256.K[i] as nat == Sha512.K[i] as nat / TWO_32
  {
    hide Sha512.K0, Sha512.K1, Sha512.K2, Sha512.K3, Sha512.K4, Sha256.K0, Sha256.K1, Sha256.K2, Sha256.K3;
    Sha256.ConstantsLength();
    Sha512.ConstantsLength();
    UpperWords0(if i < 16 then i else 0);
    UpperWords1(if 16 <= i < 32 then i - 16 else 0);
    UpperWords2(if 32 <= i < 48 then i - 32 else 0);
    UpperWords3(if 48 <= i then i - 48 else 0);
  }

  /**
   The round constants of SHA-256: the first 32 bits of the fractional parts of the cube roots of the first sixty-four
   primes.
   */
  lemma Sha256Constants()
    ensures |PRIMES| == 80 && |Sha256.K| == 64
    ensures forall i :: 0 <= i < 64 ==> CubeRootShort(PRIMES[i], Sha256.K[i] as nat)
  {
    Sha512Constants();
    UpperWord(0);
    hide CubeRootBits, CubeRootShort, P0, P1, P2, P3, P4, Sha256.K, Sha512.K, PRIMES;
    forall i | 0 <= i < 64
      ensures CubeRootShort(PRIMES[i], Sha256.K[i] as nat)
    {
      UpperWord(i);
      UpperHalf(PRIMES[i], Sha512.K[i] as nat);
    }
  }

  // ------------------------------------------------------------------ the initial hash values

  function Square(n: nat): nat { n * n }

  predicate SquareRootBetween(p: nat, r: nat, k: nat, unit: nat) {
    Square(r * unit + k) <= p * Square(unit) < Square(r * unit + k + 1)
  }

  /** `k` is the first word of the fractional part of the square root of `p`, for words below `unit`. */
  ghost predicate SquareRootBits(p: nat, k: nat, unit: nat) {
    k < unit && exists r: nat :: SquareRootBetween(p, r, k, unit)
  }

  lemma SquareRoot(p: nat, r: nat, k: nat, unit: nat)
    requires k < unit && SquareRootBetween(p, r, k, unit)
    ensures SquareRootBits(p, k, unit)
  {
  }

  /** The initial hash values: the first bits of the fractional parts of the square roots of the first eight primes. */
  lemma Sha512InitialValue()
    ensures |Sha512.INITIAL| == 8 && |P0| == 16
    ensures forall i :: 0 <= i < 8 ==> SquareRootBits(P0[i], Sha512.INITIAL[i] as nat, TWO_64)
  {
    hide SquareRootBits;
    SquareRoot(2, 1, 0x6a09e667f3bcc908, TWO_64);
    SquareRoot(3, 1, 0xbb67ae8584caa73b, TWO_64);
    SquareRoot(5, 2, 0x3c6ef372fe94f82b, TWO_64);
    SquareRoot(7, 2, 0xa54ff53a5f1d36f1, TWO_64);
    SquareRoot(11, 3, 0x510e527fade682d1, TWO_64);
    SquareRoot(13, 3, 0x9b05688c2b3e6c1f, TWO_64);
    SquareRoot(17, 4, 0x1f83d9abfb41bd6b, TWO_64);
    SquareRoot(19, 4, 0x5be0cd19137e2179, TWO_64);
    hide SquareRootBetween;
  }

  lemma Sha256InitialValue()
    ensures |Sha256.INITIAL| == 8 && |P0| == 16
    ensures forall i :: 0 <= i < 8 ==> SquareRootBits(P0[i], Sha256.INITIAL[i] as nat, TWO_32)
  {
    hide SquareRootBits;
    SquareRoot(2, 1, 0x6a09e667, TWO_32);
    SquareRoot(3, 1, 0xbb67ae85, TWO_32);
    SquareRoot(5, 2, 0x3c6ef372, TWO_32);
    SquareRoot(7, 2, 0xa54ff53a, TWO_32);
    SquareRoot(11, 3, 0x510e527f, TWO_32);
    SquareRoot(13, 3, 0x9b05688c, TWO_32);
    SquareRoot(17, 4, 0x1f83d9ab, TWO_32);
    SquareRoot(19, 4, 0x5be0cd19, TWO_32);
    hide SquareRootBetween;
  }
}
