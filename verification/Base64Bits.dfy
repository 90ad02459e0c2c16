/** The shifts and masks of one base64 group: three bytes and four sextets are the same 24 bits. */
module Base64Bits {

  // ------------------------------------------------------------------ the encoder's expressions

  /** `(combined >> 18) & 63`, where `combined` is `(first << 16) | (second << 8) | third` */
  function Sextet18(first: int, second: int, third: int): int
    requires 0 <= first < 256 && 0 <= second < 256 && 0 <= third < 256
  {
    var combined := ((first as bv8 as bv32) << 16) | ((second as bv8 as bv32) << 8) | (third as bv8 as bv32);
    ((combined >> 18) & 63) as int
  }

  function Sextet12(first: int, second: int, third: int): int
    requires 0 <= first < 256 && 0 <= second < 256 && 0 <= third < 256
  {
    var combined := ((first as bv8 as bv32) << 16) | ((second as bv8 as bv32) << 8) | (third as bv8 as bv32);
    ((combined >> 12) & 63) as int
  }

  function Sextet6(first: int, second: int, third: int): int
    requires 0 <= first < 256 && 0 <= second < 256 && 0 <= third < 256
  {
    var combined := ((first as bv8 as bv32) << 16) | ((second as bv8 as bv32) << 8) | (third as bv8 as bv32);
    ((combined >> 6) & 63) as int
  }

  function Sextet0(first: int, second: int, third: int): int
    requires 0 <= first < 256 && 0 <= second < 256 && 0 <= third < 256
  {
    var combined := ((first as bv8 as bv32) << 16) | ((second as bv8 as bv32) << 8) | (third as bv8 as bv32);
    (combined & 63) as int
  }

  // ------------------------------------------------------------------ the decoder's expressions

  /** `(combined >> 16) & 0xff`, where `combined` is `(first << 18) | (second << 12) | (third << 6) | fourth` */
  function Byte16(first: int, second: int, third: int, fourth: int): int
    requires 0 <= first < 64 && 0 <= second < 64 && 0 <= third < 64 && 0 <= fourth < 64
  {
    var combined := ((first as bv6 as bv32) << 18) | ((second as bv6 as bv32) << 12)
                    | ((third as bv6 as bv32) << 6) | (fourth as bv6 as bv32);
    ((combined >> 16) & 255) as int
  }

  function Byte8(first: int, second: int, third: int, fourth: int): int
    requires 0 <= first < 64 && 0 <= second < 64 && 0 <= third < 64 && 0 <= fourth < 64
  {
    var combined := ((first as bv6 as bv32) << 18) | ((second as bv6 as bv32) << 12)
                    | ((third as bv6 as bv32) << 6) | (fourth as bv6 as bv32);
    ((combined >> 8) & 255) as int
  }

  function Byte0(first: int, second: int, third: int, fourth: int): int
    requires 0 <= first < 64 && 0 <= second < 64 && 0 <= third < 64 && 0 <= fourth < 64
  {
    var combined := ((first as bv6 as bv32) << 18) | ((second as bv6 as bv32) << 12)
                    | ((third as bv6 as bv32) << 6) | (fourth as bv6 as bv32);
    (combined & 255) as int
  }

  // ------------------------------------------------------------------ what they weigh

  lemma NibbleAndBack(n: int)
    requires 0 <= n < 16
    ensures n as bv4 as int == n
  {
  }

  lemma Nibbles(high: bv4, low: bv4)
    ensures (((high as bv8) << 4) | (low as bv8)) as int == 16 * (high as int) + (low as int)
  {
  }

  lemma BackAndByte(b: bv8)
    ensures (b as int) as bv8 == b
  {
  }

  lemma SomeByte(n: int) returns (b: bv8)
    requires 0 <= n < 256
    ensures b as int == n
  {
    NibbleAndBack(n / 16);
    NibbleAndBack(n % 16);
    Nibbles((n / 16) as bv4, (n % 16) as bv4);
    b := (((n / 16) as bv4 as bv8) << 4) | ((n % 16) as bv4 as bv8);
  }

  lemma ByteAndBack(n: int)
    requires 0 <= n < 256
    ensures n as bv8 as int == n
  {
    var b := SomeByte(n);
    BackAndByte(b);
  }

  lemma QuarterAndBack(n: int)
    requires 0 <= n < 4
    ensures n as bv2 as int == n
  {
  }

  lemma QuarterAndNibble(high: bv2, low: bv4)
    ensures (((high as bv6) << 4) | (low as bv6)) as int == 16 * (high as int) + (low as int)
  {
  }

  lemma BackAndSextet(s: bv6)
    ensures (s as int) as bv6 == s
  {
  }

  lemma SomeSextet(n: int) returns (s: bv6)
    requires 0 <= n < 64
    ensures s as int == n
  {
    QuarterAndBack(n / 16);
    NibbleAndBack(n % 16);
    QuarterAndNibble((n / 16) as bv2, (n % 16) as bv4);
    s := (((n / 16) as bv2 as bv6) << 4) | ((n % 16) as bv4 as bv6);
  }

  lemma SextetAndBack(n: int)
    requires 0 <= n < 64
    ensures n as bv6 as int == n
  {
    var s := SomeSextet(n);
    BackAndSextet(s);
  }

  function High(n: int, bits: nat): int
    requires 0 <= n < 256 && bits in {2, 4, 6}
  {
    if bits == 2 then (n as bv8 >> 6) as int else if bits == 4 then (n as bv8 >> 4) as int else (n as bv8 >> 2) as int
  }

  function Low(n: int, bits: nat): int
    requires 0 <= n < 256 && bits in {2, 4, 6}
  {
    if bits == 2 then (n as bv8 & 3) as int else if bits == 4 then (n as bv8 & 15) as int else (n as bv8 & 63) as int
  }

  lemma Split62(a: bv8)
    ensures a as int == 4 * ((a >> 2) as int) + ((a & 3) as int)
  {
  }

  lemma Split44(b: bv8)
    ensures b as int == 16 * ((b >> 4) as int) + ((b & 15) as int)
  {
  }

  lemma Split26(c: bv8)
    ensures c as int == 64 * ((c >> 6) as int) + ((c & 63) as int)
  {
  }

  lemma SplitAfterSix(n: int)
    requires 0 <= n < 256
    ensures n == 4 * High(n, 6) + Low(n, 2)
  {
    ByteAndBack(n);
    Split62(n as bv8);
  }

  lemma SplitAfterFour(n: int)
    requires 0 <= n < 256
    ensures n == 16 * High(n, 4) + Low(n, 4)
  {
    ByteAndBack(n);
    Split44(n as bv8);
  }

  lemma SplitAfterTwo(n: int)
    requires 0 <= n < 256
    ensures n == 64 * High(n, 2) + Low(n, 6)
  {
    ByteAndBack(n);
    Split26(n as bv8);
  }

  lemma FirstTwo(a: bv8, b: bv8, c: bv8)
    ensures var x := ((a as bv32) << 16) | ((b as bv32) << 8) | (c as bv32);
      && ((x >> 18) & 63) as int == (a >> 2) as int
      && ((x >> 12) & 63) as int == 16 * ((a & 3) as int) + ((b >> 4) as int)
  {
  }

  lemma LastTwo(a: bv8, b: bv8, c: bv8)
    ensures var x := ((a as bv32) << 16) | ((b as bv32) << 8) | (c as bv32);
      && ((x >> 6) & 63) as int == 4 * ((b & 15) as int) + ((c >> 6) as int)
      && (x & 63) as int == (c & 63) as int
  {
  }

  lemma FirstTwoSextets(a: int, b: int, c: int)
    requires 0 <= a < 256 && 0 <= b < 256 && 0 <= c < 256
    ensures Sextet18(a, b, c) == High(a, 6) && Sextet12(a, b, c) == 16 * Low(a, 2) + High(b, 4)
  {
    FirstTwo(a as bv8, b as bv8, c as bv8);
  }

  lemma LastTwoSextets(a: int, b: int, c: int)
    requires 0 <= a < 256 && 0 <= b < 256 && 0 <= c < 256
    ensures Sextet6(a, b, c) == 4 * Low(b, 4) + High(c, 2) && Sextet0(a, b, c) == Low(c, 6)
  {
    LastTwo(a as bv8, b as bv8, c as bv8);
  }

  lemma SextetsInRange(a: int, b: int, c: int)
    requires 0 <= a < 256 && 0 <= b < 256 && 0 <= c < 256
    ensures 0 <= Sextet18(a, b, c) < 64 && 0 <= Sextet12(a, b, c) < 64
    ensures 0 <= Sextet6(a, b, c) < 64 && 0 <= Sextet0(a, b, c) < 64
  {
  }

  lemma BytesInRange(s: int, t: int, u: int, v: int)
    requires 0 <= s < 64 && 0 <= t < 64 && 0 <= u < 64 && 0 <= v < 64
    ensures 0 <= Byte16(s, t, u, v) < 256 && 0 <= Byte8(s, t, u, v) < 256 && 0 <= Byte0(s, t, u, v) < 256
  {
  }

  /** The four sextets of three bytes weigh what the bytes weigh. */
  lemma SextetsWeigh(a: int, b: int, c: int)
    requires 0 <= a < 256 && 0 <= b < 256 && 0 <= c < 256
    ensures 262144 * Sextet18(a, b, c) + 4096 * Sextet12(a, b, c) + 64 * Sextet6(a, b, c) + Sextet0(a, b, c)
         == 65536 * a + 256 * b + c
  {
    hide Sextet18, Sextet12, Sextet6, Sextet0, High, Low;
    FirstTwoSextets(a, b, c);
    LastTwoSextets(a, b, c);
    SplitAfterSix(a);
    SplitAfterFour(b);
    SplitAfterTwo(c);
  }

  lemma RawBytesWeigh(s: bv6, t: bv6, u: bv6, v: bv6)
    ensures var x := ((s as bv32) << 18) | ((t as bv32) << 12) | ((u as bv32) << 6) | (v as bv32);
      65536 * (((x >> 16) & 255) as int) + 256 * (((x >> 8) & 255) as int) + ((x & 255) as int)
      == 262144 * (s as int) + 4096 * (t as int) + 64 * (u as int) + (v as int)
  {
  }

  /** The three bytes of four sextets weigh what the sextets weigh. */
  lemma BytesWeigh(s: int, t: int, u: int, v: int)
    requires 0 <= s < 64 && 0 <= t < 64 && 0 <= u < 64 && 0 <= v < 64
    ensures 65536 * Byte16(s, t, u, v) + 256 * Byte8(s, t, u, v) + Byte0(s, t, u, v)
         == 262144 * s + 4096 * t + 64 * u + v
  {
    SextetAndBack(s);
    SextetAndBack(t);
    SextetAndBack(u);
    SextetAndBack(v);
    RawBytesWeigh(s as bv6, t as bv6, u as bv6, v as bv6);
  }
}
