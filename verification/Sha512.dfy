/** SHA-512: the in-place loops compute the function of sections 5.3 and 6.4 of FIPS 180-4. */
module Sha512 {
  import opened HashPadding

  type Word = bv64

  const K0: seq<bv64> := [
    0x428a2f98d728ae22, 0x7137449123ef65cd, 0xb5c0fbcfec4d3b2f, 0xe9b5dba58189dbbc,
    0x3956c25bf348b538, 0x59f111f1b605d019, 0x923f82a4af194f9b, 0xab1c5ed5da6d8118,
    0xd807aa98a3030242, 0x12835b0145706fbe, 0x243185be4ee4b28c, 0x550c7dc3d5ffb4e2,
    0x72be5d74f27b896f, 0x80deb1fe3b1696b1, 0x9bdc06a725c71235, 0xc19bf174cf692694]
  const K1: seq<bv64> := [
    0xe49b69c19ef14ad2, 0xefbe4786384f25e3, 0x0fc19dc68b8cd5b5, 0x240ca1cc77ac9c65,
    0x2de92c6f592b0275, 0x4a7484aa6ea6e483, 0x5cb0a9dcbd41fbd4, 0x76f988da831153b5,
    0x983e5152ee66dfab, 0xa831c66d2db43210, 0xb00327c898fb213f, 0xbf597fc7beef0ee4,
    0xc6e00bf33da88fc2, 0xd5a79147930aa725, 0x06ca6351e003826f, 0x142929670a0e6e70]
  const K2: seq<bv64> := [
    0x27b70a8546d22ffc, 0x2e1b21385c26c926, 0x4d2c6dfc5ac42aed, 0x53380d139d95b3df,
    0x650a73548baf63de, 0x766a0abb3c77b2a8, 0x81c2c92e47edaee6, 0x92722c851482353b,
    0xa2bfe8a14cf10364, 0xa81a664bbc423001, 0xc24b8b70d0f89791, 0xc76c51a30654be30,
    0xd192e819d6ef5218, 0xd69906245565a910, 0xf40e35855771202a, 0x106aa07032bbd1b8]
  const K3: seq<bv64> := [
    0x19a4c116b8d2d0c8, 0x1e376c085141ab53, 0x2748774cdf8eeb99, 0x34b0bcb5e19b48a8,
    0x391c0cb3c5c95a63, 0x4ed8aa4ae3418acb, 0x5b9cca4f7763e373, 0x682e6ff3d6b2b8a3,
    0x748f82ee5defb2fc, 0x78a5636f43172f60, 0x84c87814a1f0ab72, 0x8cc702081a6439ec,
    0x90befffa23631e28, 0xa4506cebde82bde9, 0xbef9a3f7b2c67915, 0xc67178f2e372532b]
  const K4: seq<bv64> := [
    0xca273eceea26619c, 0xd186b8c721c0c207, 0xeada7dd6cde0eb1e, 0xf57d4f7fee6ed178,
    0x06f067aa72176fba, 0x0a637dc5a2c898a6, 0x113f9804bef90dae, 0x1b710b35131c471b,
    0x28db77f523047d84, 0x32caab7b40c72493, 0x3c9ebe0a15c9bebc, 0x431d67c49c100d4c,
    0x4cc5d4becb3e42b6, 0x597f299cfc657e2a, 0x5fcb6fab3ad6faec, 0x6c44198c4a475817]

  const K: seq<Word> := K0 + K1 + K2 + K3 + K4

  const INITIAL: seq<Word> := [
    0x6a09e667f3bcc908, 0xbb67ae8584caa73b, 0x3c6ef372fe94f82b, 0xa54ff53a5f1d36f1,
    0x510e527fade682d1, 0x9b05688c2b3e6c1f, 0x1f83d9abfb41bd6b, 0x5be0cd19137e2179]

  const BLOCK := 128
  const ROUNDS := 80

  // ------------------------------------------------------------------ the standard

  /** Addition modulo the word size. */
  function Add(x: Word, y: Word): Word { x + y }

  function Sum4(p: Word, q: Word, r: Word, s: Word): Word { p + q + r + s }

  function RotateRight(x: Word, n: nat): Word
    requires n < 64
  {
    (x >> n) | (x << (64 - n))
  }

  function UpperSigma0(x: Word): Word { RotateRight(x, 28) ^ RotateRight(x, 34) ^ RotateRight(x, 39) }

  function UpperSigma1(x: Word): Word { RotateRight(x, 14) ^ RotateRight(x, 18) ^ RotateRight(x, 41) }

  function LowerSigma0(x: Word): Word { RotateRight(x, 1) ^ RotateRight(x, 8) ^ (x >> 7) }

  function LowerSigma1(x: Word): Word { RotateRight(x, 19) ^ RotateRight(x, 61) ^ (x >> 6) }

  function Ch(x: Word, y: Word, z: Word): Word { (x & y) ^ (!x & z) }

  function Maj(x: Word, y: Word, z: Word): Word { (x & y) ^ (x & z) ^ (y & z) }

  /** The message schedule of a block of sixteen words. */
  function Scheduled(m: seq<Word>, t: nat): Word
    requires |m| == 16
  {
    if t < 16 then m[t]
    else Sum4(LowerSigma1(Scheduled(m, t - 2)), Scheduled(m, t - 7), LowerSigma0(Scheduled(m, t - 15)),
      Scheduled(m, t - 16))
  }

  /** The eight working variables. */
  datatype Working = Working(a: Word, b: Word, c: Word, d: Word, e: Word, f: Word, g: Word, h: Word)

  function Round(s: Working, k: Word, w: Word): Working {
    var t1 := Add(Add(Add(Add(s.h, UpperSigma1(s.e)), Ch(s.e, s.f, s.g)), k), w);
    var t2 := Add(UpperSigma0(s.a), Maj(s.a, s.b, s.c));
    Working(Add(t1, t2), s.a, s.b, s.c, Add(s.d, t1), s.e, s.f, s.g)
  }

  function Rounds(s: Working, m: seq<Word>, t: nat): Working
    requires |m| == 16 && t <= ROUNDS
  {
    if t == 0 then s else Round(Rounds(s, m, t - 1), K[t - 1], Scheduled(m, t - 1))
  }

  function Load(h: seq<Word>): Working
    requires |h| == 8
  {
    Working(h[0], h[1], h[2], h[3], h[4], h[5], h[6], h[7])
  }

  function Sum(h: seq<Word>, s: Working): (r: seq<Word>)
    requires |h| == 8
    ensures |r| == 8
  {
    [Add(h[0], s.a), Add(h[1], s.b), Add(h[2], s.c), Add(h[3], s.d), Add(h[4], s.e), Add(h[5], s.f), Add(h[6], s.g),
      Add(h[7], s.h)]
  }

  /** The hash value after one more block. */
  function Compressed(h: seq<Word>, m: seq<Word>): (r: seq<Word>)
    requires |h| == 8 && |m| == 16
    ensures |r| == 8
  {
    Sum(h, Rounds(Load(h), m, ROUNDS))
  }

  /** Eight bytes as a word, most significant first. */
  function Packed(a: Byte, b: Byte, c: Byte, d: Byte, e: Byte, f: Byte, g: Byte, h: Byte): Word {
    ((a as bv64) << 56) | ((b as bv64) << 48) | ((c as bv64) << 40) | ((d as bv64) << 32)
    | ((e as bv64) << 24) | ((f as bv64) << 16) | ((g as bv64) << 8) | (h as bv64)
  }

  function WordAt(bytes: seq<Byte>, i: nat): Word
    requires i + 8 <= |bytes|
  {
    Packed(bytes[i], bytes[i + 1], bytes[i + 2], bytes[i + 3], bytes[i + 4], bytes[i + 5], bytes[i + 6], bytes[i + 7])
  }

  function Words(bytes: seq<Byte>, count: nat): (m: seq<Word>)
    requires |bytes| == 8 * count
    ensures |m| == count
  {
    if count == 0 then [] else Words(bytes[..8 * (count - 1)], count - 1) + [WordAt(bytes, 8 * (count - 1))]
  }

  /** The hash value after every whole block. */
  function Chained(h: seq<Word>, bytes: seq<Byte>): (r: seq<Word>)
    requires |h| == 8
    ensures |r| == 8
    decreases |bytes|
  {
    if |bytes| < BLOCK then h else Chained(Compressed(h, Words(bytes[..BLOCK], 16)), bytes[BLOCK..])
  }

  function ByteOf(w: Word, shift: nat): Byte
    requires shift < 64
  {
    ((w >> shift) & 0xff) as bv8 as int
  }

  function WordBytes(w: Word): (bytes: seq<Byte>)
    ensures |bytes| == 8
  {
    [ByteOf(w, 56), ByteOf(w, 48), ByteOf(w, 40), ByteOf(w, 32), ByteOf(w, 24), ByteOf(w, 16), ByteOf(w, 8),
      ByteOf(w, 0)]
  }

  function Output(h: seq<Word>): (bytes: seq<Byte>)
    ensures |bytes| == 8 * |h|
  {
    if h == [] then [] else Output(h[..|h| - 1]) + WordBytes(h[|h| - 1])
  }

  function Digest(message: seq<Byte>): (bytes: seq<Byte>)
    ensures |bytes| == 64
  {
    InitialLength();
    Output(Chained(INITIAL, Padded(message, BLOCK, 16)))
  }

  lemma InitialLength()
    ensures |INITIAL| == 8
  {
  }

  lemma ConstantsLength()
    ensures |K| == ROUNDS
  {
  }

  // ------------------------------------------------------------------ the loops of the original

  lemma WordsPrefix(bytes: seq<Byte>, block: seq<Byte>, offset: nat, count: nat)
    requires offset + BLOCK <= |bytes| && block == bytes[offset..offset + BLOCK] && 0 < count <= 16
    ensures Words(block[..8 * count], count) == Words(block[..8 * (count - 1)], count - 1) +
      [WordAt(bytes, offset + 8 * (count - 1))]
  {
    hide Words, WordAt;
    var part, last := block[..8 * count], 8 * (count - 1);
    assert part[..last] == block[..last];
    assert part == bytes[offset..offset + |part|];
    WordsStep(part, count);
    SameWord(bytes, part, offset, last);
  }

  lemma WordsStep(part: seq<Byte>, count: nat)
    requires 0 < count && |part| == 8 * count
    ensures Words(part, count) == Words(part[..8 * (count - 1)], count - 1) + [WordAt(part, 8 * (count - 1))]
  {
    hide WordAt;
  }

  lemma SameWord(bytes: seq<Byte>, part: seq<Byte>, offset: nat, i: nat)
    requires i + 8 <= |part| && offset + |part| <= |bytes| && part == bytes[offset..offset + |part|]
    ensures WordAt(part, i) == WordAt(bytes, offset + i)
  {
    hide Packed;
  }

  function Shifted(word: Word, b: Byte): Word {
    (word << 8) | (b as bv64)
  }

  lemma ShiftedEight(a: bv64, b: bv64, c: bv64, d: bv64, e: bv64, f: bv64, g: bv64, h: bv64)
    ensures ((((((((((((((a << 8) | b) << 8) | c) << 8) | d) << 8) | e) << 8) | f) << 8) | g) << 8) | h) ==
            (a << 56) | (b << 48) | (c << 40) | (d << 32) | (e << 24) | (f << 16) | (g << 8) | h
  {
  }

  /** The original's loop over the eight bytes of a word. */
  method PackWord(bytes: seq<Byte>, start: nat) returns (word: Word)
    requires start + 8 <= |bytes|
    ensures word == WordAt(bytes, start)
  {
    hide Shifted, Packed;
    word := 0;
    for i := 0 to 8
      invariant word == ShiftedIn(bytes[start..start + i])
    {
      assert bytes[start..start + i + 1][..i] == bytes[start..start + i];
      word := Shifted(word, bytes[start + i]);
    }
    var p := bytes[start..start + 8];
    ShiftedInEight(p[0], p[1], p[2], p[3], p[4], p[5], p[6], p[7]);
    assert p == [p[0], p[1], p[2], p[3], p[4], p[5], p[6], p[7]];
  }

  function ShiftedIn(bytes: seq<Byte>): Word {
    if bytes == [] then 0 else Shifted(ShiftedIn(bytes[..|bytes| - 1]), bytes[|bytes| - 1])
  }

  lemma ShiftedInStep(init: seq<Byte>, b: Byte)
    ensures ShiftedIn(init + [b]) == Shifted(ShiftedIn(init), b)
  {
    hide Shifted;
    assert (init + [b])[..|init|] == init;
  }

  lemma ShiftedInFour(a: Byte, b: Byte, c: Byte, d: Byte)
    ensures ShiftedIn([a, b, c, d]) == Shifted(Shifted(Shifted(Shifted(0, a), b), c), d)
  {
    hide Shifted;
    ShiftedInStep([], a);
    ShiftedInStep([a], b);
    ShiftedInStep([a, b], c);
    ShiftedInStep([a, b, c], d);
    assert [] + [a] == [a] && [a] + [b] == [a, b] && [a, b] + [c] == [a, b, c] && [a, b, c] + [d] == [a, b, c, d];
  }

  lemma ShiftedInEight(a: Byte, b: Byte, c: Byte, d: Byte, e: Byte, f: Byte, g: Byte, h: Byte)
    ensures ShiftedIn([a, b, c, d, e, f, g, h]) == Packed(a, b, c, d, e, f, g, h)
  {
    hide Packed, ShiftedIn, Shifted;
    ShiftedInFour(a, b, c, d);
    var four := [a, b, c, d];
    ShiftedInStep(four, e);
    ShiftedInStep(four + [e], f);
    ShiftedInStep(four + [e] + [f], g);
    ShiftedInStep(four + [e] + [f] + [g], h);
    assert four + [e] + [f] + [g] + [h] == [a, b, c, d, e, f, g, h];
    PackedIsShifted(a, b, c, d, e, f, g, h);
  }

  lemma PackedIsShifted(a: Byte, b: Byte, c: Byte, d: Byte, e: Byte, f: Byte, g: Byte, h: Byte)
    ensures Shifted(Shifted(Shifted(Shifted(Shifted(Shifted(Shifted(Shifted(0, a), b), c), d), e), f), g), h)
            == Packed(a, b, c, d, e, f, g, h)
  {
    ShiftedEight(a as bv64, b as bv64, c as bv64, d as bv64, e as bv64, f as bv64, g as bv64, h as bv64);
  }

  method LoadWords(bytes: seq<Byte>, offset: nat, w: array<Word>)
    requires offset + BLOCK <= |bytes| && w.Length == ROUNDS
    modifies w
    ensures w[..16] == Words(bytes[offset..offset + BLOCK], 16)
  {
    hide Words, WordAt;
    ghost var block := bytes[offset..offset + BLOCK];
    NoWords(block[..0]);
    for index := 0 to 16
      invariant w[..index] == Words(block[..8 * index], index)
    {
      WordsPrefix(bytes, block, offset, index + 1);
      var cursor := offset + index * 8;
      w[index] := PackWord(bytes, cursor);
      assert w[..index + 1] == w[..index] + [w[index]];
    }
    assert block[..BLOCK] == block;
  }

  lemma NoWords(bytes: seq<Byte>)
    requires bytes == []
    ensures Words(bytes, 0) == []
  {
  }

  /** The schedule is extended in place, sixteen words back at a time. */
  method ExtendWords(w: array<Word>)
    requires w.Length == ROUNDS
    modifies w
    ensures forall t :: 0 <= t < ROUNDS ==> w[t] == Scheduled(old(w[..16]), t)
  {
    hide LowerSigma0, LowerSigma1, Sum4;
    ghost var m := w[..16];
    for index := 16 to ROUNDS
      invariant forall t :: 0 <= t < index ==> w[t] == Scheduled(m, t)
    {
      var s0 := LowerSigma0(w[index - 15]);
      var s1 := LowerSigma1(w[index - 2]);
      SumReversed(w[index - 16], s0, w[index - 7], s1);
      w[index] := Sum4(w[index - 16], s0, w[index - 7], s1);
    }
  }

  /** The original adds the four terms of the schedule in the opposite order. */
  lemma SumReversed(p: Word, q: Word, r: Word, s: Word)
    ensures Sum4(p, q, r, s) == Sum4(s, r, q, p)
  {
  }

  /** One block: the rolling variables end as the standard's working variables, and are added into the hash value. */
  method CompressBlock(h: array<Word>, w: array<Word>, ghost m: seq<Word>)
    requires h.Length == 8 && w.Length == ROUNDS && h != w
    requires |m| == 16 && forall t :: 0 <= t < ROUNDS ==> w[t] == Scheduled(m, t)
    modifies h
    ensures h[..] == Compressed(old(h[..]), m)
  {
    hide Scheduled, UpperSigma0, UpperSigma1, Ch, Maj, K, Add;
    ConstantsLength();
    ghost var start := Load(h[..]);
    var a, b, c, d, e, f, g, hh := h[0], h[1], h[2], h[3], h[4], h[5], h[6], h[7];
    for index := 0 to ROUNDS
      invariant Working(a, b, c, d, e, f, g, hh) == Rounds(start, m, index)
    {
      var s1 := UpperSigma1(e);
      var ch := Ch(e, f, g);
      var temp1 := Add(Add(Add(Add(hh, s1), ch), K[index]), w[index]);
      var s0 := UpperSigma0(a);
      var maj := Maj(a, b, c);
      var temp2 := Add(s0, maj);
      hh := g;
      g := f;
      f := e;
      e := Add(d, temp1);
      d := c;
      c := b;
      b := a;
      a := Add(temp1, temp2);
    }
    ghost var before := h[..];
    AddInto(h, Working(a, b, c, d, e, f, g, hh));
    assert h[..] == Sum(before, Rounds(start, m, ROUNDS));
  }

  lemma SumAt(h: seq<Word>, s: Working, r: seq<Word>)
    requires |h| == 8 && |r| == 8
    requires r[0] == Add(h[0], s.a) && r[1] == Add(h[1], s.b) && r[2] == Add(h[2], s.c) && r[3] == Add(h[3], s.d)
    requires r[4] == Add(h[4], s.e) && r[5] == Add(h[5], s.f) && r[6] == Add(h[6], s.g) && r[7] == Add(h[7], s.h)
    ensures r == Sum(h, s)
  {
    hide Add;
  }

  method AddInto(h: array<Word>, s: Working)
    requires h.Length == 8
    modifies h
    ensures h[..] == Sum(old(h[..]), s)
  {
    hide Add, Sum;
    h[0] := Add(h[0], s.a);
    h[1] := Add(h[1], s.b);
    h[2] := Add(h[2], s.c);
    h[3] := Add(h[3], s.d);
    h[4] := Add(h[4], s.e);
    h[5] := Add(h[5], s.f);
    h[6] := Add(h[6], s.g);
    h[7] := Add(h[7], s.h);
    SumAt(old(h[..]), s, h[..]);
  }

  method EmitBytes(h: array<Word>) returns (out: seq<Byte>)
    ensures out == Output(h[..])
  {
    hide WordBytes;
    out := [];
    for i := 0 to h.Length
      invariant out == Output(h[..i])
    {
      assert h[..i + 1][..i] == h[..i];
      var bytes := EmitWord(h[i]);
      out := out + bytes;
    }
    assert h[..h.Length] == h[..];
  }

  lemma WordBytesAt(w: Word, shift: nat)
    requires shift <= 56 && shift % 8 == 0
    ensures WordBytes(w)[(56 - shift) / 8] == ByteOf(w, shift)
  {
    hide ByteOf;
    var k := shift / 8;
    assert k == 0 || k == 1 || k == 2 || k == 3 || k == 4 || k == 5 || k == 6 || k == 7;
  }

  method EmitWord(word: Word) returns (bytes: seq<Byte>)
    ensures bytes == WordBytes(word)
  {
    hide ByteOf, WordBytes;
    bytes := [];
    var shift: int := 56;
    while shift >= 0
      invariant -8 <= shift <= 56 && shift % 8 == 0
      invariant bytes == WordBytes(word)[..(56 - shift) / 8]
    {
      WordBytesAt(word, shift);
      bytes := bytes + [ByteOf(word, shift)];
      shift := shift - 8;
    }
  }

  lemma ChainStep(h: seq<Word>, rest: seq<Byte>)
    requires |h| == 8 && |rest| >= BLOCK
    ensures Chained(h, rest) == Chained(Compressed(h, Words(rest[..BLOCK], 16)), rest[BLOCK..])
  {
    hide Compressed, Words;
  }

  lemma NextBlock(bytes: seq<Byte>, offset: nat)
    requires offset < |bytes| && Remainder(|bytes[offset..]|, BLOCK) == 0
    ensures offset + BLOCK <= |bytes| && Remainder(|bytes[offset + BLOCK..]|, BLOCK) == 0
  {
  }

  /** The digest that the original computes is the standard's, for every message. */
  method Hash(input: seq<Byte>) returns (out: seq<Byte>)
    ensures out == Digest(input)
  {
    hide Padded, Chained, Compressed, Words, Scheduled, Output, Remainder, INITIAL;
    InitialLength();
    var bytes := Pad(input, BLOCK, 16);
    PaddedIsWhole(input, BLOCK, 16);
    var h := new Word[8](i requires 0 <= i < 8 => INITIAL[i]);
    assert h[..] == INITIAL;
    var offset := 0;
    assert bytes[0..] == bytes;
    while offset < |bytes|
      invariant offset <= |bytes| && Remainder(|bytes[offset..]|, BLOCK) == 0
      invariant Chained(h[..], bytes[offset..]) == Chained(INITIAL, bytes)
    {
      NextBlock(bytes, offset);
      ghost var before, rest := h[..], bytes[offset..];
      var w := new Word[ROUNDS];
      LoadWords(bytes, offset, w);
      ghost var m := w[..16];
      ExtendWords(w);
      CompressBlock(h, w, m);
      assert rest[..BLOCK] == bytes[offset..offset + BLOCK] && rest[BLOCK..] == bytes[offset + BLOCK..];
      ChainStep(before, rest);
      offset := offset + BLOCK;
    }
    assert bytes[offset..] == [];
    ChainEnds(h[..]);
    out := EmitBytes(h);
  }

  lemma ChainEnds(h: seq<Word>)
    requires |h| == 8
    ensures Chained(h, []) == h
  {
  }

  /** Hashing is done block by block: what follows whole blocks is hashed from the value they leave. */
  lemma {:induction false} ChainedInParts(h: seq<Word>, a: seq<Byte>, b: seq<Byte>)
    requires |h| == 8 && |a| % BLOCK == 0
    ensures Chained(h, a + b) == Chained(Chained(h, a), b)
    decreases |a|
  {
    hide Compressed, Words;
    if a == [] {
      assert a + b == b;
    } else {
      assert (a + b)[..BLOCK] == a[..BLOCK] && (a + b)[BLOCK..] == a[BLOCK..] + b;
      ChainedInParts(Compressed(h, Words(a[..BLOCK], 16)), a[BLOCK..], b);
    }
  }

  /** The padded forms of distinct messages are distinct: the hash sees the whole message. */
  lemma PaddedMessagesDiffer(a: seq<Byte>, b: seq<Byte>)
    requires a != b
    ensures Padded(a, BLOCK, 16) != Padded(b, BLOCK, 16)
  {
    hide Padded, Pow256;
    FieldsAreWide();
    if Padded(a, BLOCK, 16) == Padded(b, BLOCK, 16) {
      PaddingInjective(a, b, BLOCK, 16);
    }
  }
}
