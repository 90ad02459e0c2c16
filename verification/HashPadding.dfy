/** Message padding of the SHA-2 family (section 5.1 of FIPS 180-4), counted in bytes. */
module HashPadding {

  type Byte = n: int | 0 <= n < 256

  // ------------------------------------------------------------------ division by a variable

  function Quotient(n: nat, d: nat): nat
    requires d > 0
  {
    n / d
  }

  function Remainder(n: nat, d: nat): nat
    requires d > 0
  {
    n % d
  }

  function Times(a: int, b: int): int { a * b }

  lemma DivisionHolds(n: nat, d: nat)
    requires d > 0
    ensures n == Times(d, Quotient(n, d)) + Remainder(n, d) && Remainder(n, d) < d
  {
  }

  lemma TimesDifference(d: int, a: int, b: int)
    ensures Times(d, a) - Times(d, b) == Times(d, a - b)
  {
  }

  lemma TimesAtLeast(d: nat, k: int)
    requires k >= 1
    ensures Times(d, k) >= d
  {
  }

  lemma DivisionUnique(n: nat, d: nat, q: int, r: nat)
    requires r < d && n == Times(d, q) + r
    ensures q == Quotient(n, d) && r == Remainder(n, d)
  {
    hide Times, Quotient, Remainder;
    DivisionHolds(n, d);
    var p := Quotient(n, d);
    TimesDifference(d, q, p);
    TimesDifference(d, p, q);
    if q > p { TimesAtLeast(d, q - p); }
    if p > q { TimesAtLeast(d, p - q); }
  }

  lemma TimesNext(d: int, q: int)
    ensures Times(d, q + 1) == Times(d, q) + d
  {
  }

  /** Adding less than the divisor wraps at most once. */
  lemma RemainderShift(n: nat, d: nat, j: nat)
    requires j < d
    ensures Remainder(n + j, d) == if Remainder(n, d) + j < d then Remainder(n, d) + j else Remainder(n, d) + j - d
  {
    hide Times, Quotient, Remainder;
    DivisionHolds(n, d);
    var q, r := Quotient(n, d), Remainder(n, d);
    if r + j < d {
      DivisionUnique(n + j, d, q, r + j);
    } else {
      TimesNext(d, q);
      DivisionUnique(n + j, d, q + 1, r + j - d);
    }
  }

  // ------------------------------------------------------------------ the length field

  function Pow256(k: nat): (p: nat)
    ensures p > 0
  {
    if k == 0 then 1 else 256 * Pow256(k - 1)
  }

  /** `n` in `count` bytes, most significant first, modulo `256^count`. */
  function BigEndian(n: nat, count: nat): (bytes: seq<Byte>)
    ensures |bytes| == count
    decreases count
  {
    if count == 0 then [] else BigEndian(n / 256, count - 1) + [n % 256]
  }

  function Number(bytes: seq<Byte>): nat {
    if bytes == [] then 0 else 256 * Number(bytes[..|bytes| - 1]) + bytes[|bytes| - 1]
  }

  lemma TimesAssociates(a: int, b: int, c: int)
    ensures Times(a, b * c) == Times(a * b, c)
  {
  }

  lemma TimesSum(d: int, a: int, b: int)
    ensures Times(d, a + b) == Times(d, a) + Times(d, b)
  {
  }

  lemma TimesBounded(p: nat, t: nat)
    requires t < 256
    ensures Times(p, t) <= 255 * p
  {
  }

  lemma QuotientTwice(n: nat, p: nat)
    requires p > 0
    ensures Quotient(n, p) / 256 == Quotient(n, 256 * p)
  {
    var q, r := Quotient(n, p), Remainder(n, p);
    var s, t := q / 256, q % 256;
    DivisionHolds(n, p);
    TimesSum(p, 256 * s, t);
    TimesAssociates(p, 256, s);
    assert p * 256 == 256 * p;
    TimesBounded(p, t);
    TimesPositive(p, t);
    hide Times, Quotient, Remainder;
    DivisionUnique(n, 256 * p, s, Times(p, t) + r);
  }

  lemma TimesPositive(p: nat, t: nat)
    ensures Times(p, t) >= 0
  {
  }

  lemma QuotientByOne(n: nat)
    ensures Quotient(n, Pow256(0)) == n
  {
  }

  lemma BigEndianStep(n: nat, count: nat, k: nat)
    requires k < count
    ensures BigEndian(Quotient(n, Pow256(k)), count - k) ==
            BigEndian(Quotient(n, Pow256(k + 1)), count - k - 1) + [Quotient(n, Pow256(k)) % 256]
  {
    QuotientTwice(n, Pow256(k));
    hide Quotient;
    assert Pow256(k + 1) == 256 * Pow256(k);
  }

  lemma NumberAppend(init: seq<Byte>, b: Byte)
    ensures Number(init + [b]) == 256 * Number(init) + b
  {
    assert (init + [b])[..|init|] == init;
  }

  /** Reading the field gives the number back, modulo its range. */
  lemma {:induction false} NumberOfBigEndian(n: nat, count: nat)
    ensures Number(BigEndian(n, count)) == Remainder(n, Pow256(count))
    decreases count
  {
    hide Number, Remainder;
    if count == 0 {
      NumberOfNothing(n);
    } else {
      NumberOfBigEndian(n / 256, count - 1);
      NumberAppend(BigEndian(n / 256, count - 1), n % 256);
      RemainderOfMultiple(n, Pow256(count - 1));
    }
  }

  lemma NumberOfNothing(n: nat)
    ensures Number([]) == 0 && Remainder(n, 1) == 0
  {
  }

  lemma RemainderOfMultiple(n: nat, p: nat)
    requires p > 0
    ensures Remainder(n, 256 * p) == 256 * Remainder(n / 256, p) + n % 256
  {
    var q, r := Quotient(n / 256, p), Remainder(n / 256, p);
    DivisionHolds(n / 256, p);
    TimesAssociates256(p, q);
    hide Times, Quotient, Remainder;
    DivisionUnique(n, 256 * p, q, 256 * r + n % 256);
  }

  lemma TimesAssociates256(p: int, q: int)
    ensures Times(256 * p, q) == 256 * Times(p, q)
  {
  }

  // ------------------------------------------------------------------ padding

  function Zeros(n: nat): (z: seq<Byte>)
    ensures |z| == n && forall i :: 0 <= i < n ==> z[i] == 0
  {
    seq(n, _ => 0)
  }

  /** Whether `zeros` zero bytes after the message and its end mark leave room for just the length field. */
  predicate Fits(length: nat, zeros: nat, block: nat, field: nat)
    requires 0 < field < block
  {
    Remainder(length + 1 + zeros, block) == block - field
  }

  /** The smallest number of zero bytes that fits. */
  function ZeroCount(length: nat, block: nat, field: nat): (k: nat)
    requires 0 < field < block
    ensures k < block && Fits(length, k, block, field)
    ensures forall j :: 0 <= j < k ==> !Fits(length, j, block, field)
  {
    hide Remainder;
    DivisionHolds(length + 1, block);
    var r := Remainder(length + 1, block);
    var k := if r <= block - field then block - field - r else block + block - field - r;
    assert Fits(length, k, block, field) by { RemainderShift(length + 1, block, k); }
    assert forall j :: 0 <= j < k ==> !Fits(length, j, block, field) by {
      forall j | 0 <= j < k
        ensures !Fits(length, j, block, field)
      {
        RemainderShift(length + 1, block, j);
      }
    }
    k
  }

  /** The message, its end mark, zeros, and its length in bits. */
  function Padded(message: seq<Byte>, block: nat, field: nat): seq<Byte>
    requires 0 < field < block
  {
    message + [0x80] + Zeros(ZeroCount(|message|, block, field)) + BigEndian(8 * |message|, field)
  }

  /** The padded message is a whole number of blocks and less than two blocks longer than the message. */
  lemma PaddedIsWhole(message: seq<Byte>, block: nat, field: nat)
    requires 0 < field < block
    ensures Remainder(|Padded(message, block, field)|, block) == 0 && message <= Padded(message, block, field)
    ensures |message| < |Padded(message, block, field)| <= |message| + block + field
  {
    hide Remainder, BigEndian, Pow256;
    var k := ZeroCount(|message|, block, field);
    RemainderShift(|message| + 1 + k, block, field);
  }

  method AppendEndMark(message: seq<Byte>, block: nat, field: nat) returns (bytes: seq<Byte>)
    requires 0 < field < block
    ensures bytes == message + [0x80] + Zeros(ZeroCount(|message|, block, field))
  {
    hide Remainder;
    bytes := message + [0x80];
    ghost var k, zeros := ZeroCount(|message|, block, field), 0;
    while Remainder(|bytes|, block) != block - field
      invariant 0 <= zeros <= k && bytes == message + [0x80] + Zeros(zeros)
      decreases k - zeros
    {
      assert !Fits(|message|, zeros, block, field);
      bytes := bytes + [0];
      zeros := zeros + 1;
      assert Zeros(zeros) == Zeros(zeros - 1) + [0];
    }
    assert Fits(|message|, zeros, block, field);
  }

  /** The original's padding loops: zeros until the length field fits, then its bytes from the highest down. */
  method Pad(message: seq<Byte>, block: nat, field: nat) returns (bytes: seq<Byte>)
    requires 0 < field < block
    ensures bytes == Padded(message, block, field)
  {
    hide Quotient, BigEndian, Pow256;
    var bitLength := |message| * 8;
    bytes := AppendEndMark(message, block, field);
    ghost var head := bytes;
    var shift: int := field - 1;
    NoBytes(bitLength, field);
    while shift >= 0
      invariant -1 <= shift < field
      invariant bytes == head + BigEndian(Quotient(bitLength, Pow256(shift + 1)), field - 1 - shift)
    {
      BigEndianStep(bitLength, field, shift);
      bytes := bytes + [Quotient(bitLength, Pow256(shift)) % 256];
      shift := shift - 1;
    }
    QuotientByOne(bitLength);
  }

  lemma NoBytes(n: nat, field: nat)
    ensures BigEndian(Quotient(n, Pow256(field)), 0) == []
  {
  }

  /** Numbers with the same remainder differ by nothing or by at least the divisor. */
  lemma SameRemainder(a: nat, b: nat, d: nat)
    requires d > 0 && Remainder(a, d) == Remainder(b, d)
    ensures a == b || a - b >= d || b - a >= d
  {
    hide Times, Quotient, Remainder;
    DivisionHolds(a, d);
    DivisionHolds(b, d);
    var p, q := Quotient(a, d), Quotient(b, d);
    TimesDifference(d, p, q);
    TimesDifference(d, q, p);
    if p > q { TimesAtLeast(d, p - q); }
    if q > p { TimesAtLeast(d, q - p); }
  }

  /** Distinct messages have distinct padded forms, whatever their lengths. */
  lemma PaddingInjective(a: seq<Byte>, b: seq<Byte>, block: nat, field: nat)
    requires 0 < field < block && 8 * (block + field) <= Pow256(field)
    requires Padded(a, block, field) == Padded(b, block, field)
    ensures a == b
  {
    hide Remainder, Pow256, BigEndian;
    var p := Padded(a, block, field);
    PaddedIsWhole(a, block, field);
    PaddedIsWhole(b, block, field);
    assert p[|p| - field..] == BigEndian(8 * |a|, field);
    assert p[|p| - field..] == BigEndian(8 * |b|, field);
    NumberOfBigEndian(8 * |a|, field);
    NumberOfBigEndian(8 * |b|, field);
    SameRemainder(8 * |a|, 8 * |b|, Pow256(field));
    assert |a| == |b|;
    assert a == p[..|a|] && b == p[..|b|];
  }

  /** The two block and field sizes in use leave room. */
  lemma FieldsAreWide()
    ensures 8 * (64 + 8) <= Pow256(8) && 8 * (128 + 16) <= Pow256(16)
  {
    assert Pow256(2) == 65536;
    PowGrows(2, 8);
    PowGrows(2, 16);
  }

  lemma {:induction false} PowGrows(j: nat, k: nat)
    requires j <= k
    ensures Pow256(j) <= Pow256(k)
    decreases k - j
  {
    if j < k { PowGrows(j + 1, k); }
  }
}
