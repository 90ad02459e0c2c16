/** SHA-256: the in-place loops compute the function of sections 5.3 and 6.2 of FIPS 180-4. */
module Sha256 {
  import opened HashPadding

  type Word = bv32

  const K0: seq<bv32> := [
    0x428a2f98, 0x71374491, 0xb5c0fbcf, 0xe9b5dba5, 0x3956c25b, 0x59f111f1, 0x923f82a4, 0xab1c5ed5,
    0xd807aa98, 0x12835b01, 0x243185be, 0x550c7dc3, 0x72be5d74, 0x80deb1fe, 0x9bdc06a7, 0xc19bf174]
  const K1: seq<bv32> := [
    0xe49b69c1, 0xefbe4786, 0x0fc19dc6, 0x240ca1cc, 0x2de92c6f, 0x4a7484aa, 0x5cb0a9dc, 0x76f988da,
    0x983e5152, 0xa831c66d, 0xb00327c8, 0xbf597fc7, 0xc6e00bf3, 0xd5a79147, 0x06ca6351, 0x14292967]
  const K2: seq<bv32> := [
    0x27b70a85, 0x2e1b2138, 0x4d2c6dfc, 0x53380d13, 0x650a7354, 0x766a0abb, 0x81c2c92e, 0x92722c85,
    0xa2bfe8a1, 0xa81a664b, 0xc24b8b70, 0xc76c51a3, 0xd192e819, 0xd6990624, 0xf40e3585, 0x106aa070]
  const K3: seq<bv32> := [
    0x19a4c116, 0x1e376c08, 0x2748774c, 0x34b0bcb5, 0x391c0cb3, 0x4ed8aa4a, 0x5b9cca4f, 0x682e6ff3,
    0x748f82ee, 0x78a5636f, 0x84c87814, 0x8cc70208, 0x90befffa, 0xa4506ceb, 0xbef9a3f7, 0xc67178f2]

  const K: seq<Word> := K0 + K1 + K2 + K3

  const INITIAL: seq<Word> := [
    0x6a09e667, 0xbb67ae85, 0x3c6ef372, 0xa54ff53a, 0x510e527f, 0x9b05688c, 0x1f83d9ab, 0x5be0cd19]

  const BLOCK := 64
  const ROUNDS := 64

  // ------------------------------------------------------------------ the standard

  /** Addition modulo the word size. */
  function Add(x: Word, y: Word): Word { x + y }

  function Sum4(p: Word, q: Word, r: Word, s: Word): Word { p + q + r + s }

  function RotateRight(x: Word, n: nat): Word
    requires n < 32
  {
    (x >> n) | (x << (32 - n))
  }

  function UpperSigma0(x: Word): Word { RotateRight(x, 2) ^ RotateRight(x, 13) ^ RotateRight(x, 22) }

  function UpperSigma1(x: Word): Word { RotateRight(x, 6) ^ RotateRight(x, 11) ^ RotateRight(x, 25) }

  function LowerSigma0(x: Word): Word { RotateRight(x, 7) ^ RotateRight(x, 18) ^ (x >> 3) }

  function LowerSigma1(x: Word): Word { RotateRight(x, 17) ^ RotateRight(x, 19) ^ (x >> 10) }

  function Ch(x: Word, y: Word, z: Word): Word { (x & y) ^ (!x & z) }

  function Maj(x: Word, y: Word, z: Word): Word { (x & y) ^ (x & z) ^ (y & z) }

  /** The message schedule of a block of sixteen words. */
  function Scheduled(m: seq<Word>, t: nat): Word
    requires |m| == 16
  {
    if t < 16 then m[t]
    else Sum4(LowerSigma1(Scheduled(m, t - 2)), Scheduled(m, t - 7), LowerSigma0(Scheduled(m, t - 15)),
      Scheduled(m, t - 16))
  }

  /** The eight working variables. */
  datatype Working = Working(a: Word, b: Word, c: Word, d: Word, e: Word, f: Word, g: Word, h: Word)

  function Round(s: Working, k: Word, w: Word): Working {
    var t1 := Add(Add(Add(Add(s.h, UpperSigma1(s.e)), Ch(s.e, s.f, s.g)), k), w);
    var t2 := Add(UpperSigma0(s.a), Maj(s.a, s.b, s.c));
    Working(Add(t1, t2), s.a, s.b, s.c, Add(s.d, t1), s.e, s.f, s.g)
  }

  function Rounds(s: Working, m: seq<Word>, t: nat): Working
    requires |m| == 16 && t <= ROUNDS
  {
    if t == 0 then s else Round(Rounds(s, m, t - 1), K[t - 1], Scheduled(m, t - 1))
  }

  function Load(h: seq<Word>): Working
    requires |h| == 8
  {
    Working(h[0], h[1], h[2], h[3], h[4], h[5], h[6], h[7])
  }

  function Sum(h: seq<Word>, s: Working): (r: seq<Word>)
    requires |h| == 8
    ensures |r| == 8
  {
    [Add(h[0], s.a), Add(h[1], s.b), Add(h[2], s.c), Add(h[3], s.d), Add(h[4], s.e), Add(h[5], s.f), Add(h[6], s.g),
      Add(h[7], s.h)]
  }

  /** The hash value after one more block. */
  function Compressed(h: seq<Word>, m: seq<Word>): (r: seq<Word>)
    requires |h| == 8 && |m| == 16
    ensures |r| == 8
  {
    Sum(h, Rounds(Load(h), m, ROUNDS))
  }

  function WordAt(bytes: seq<Byte>, i: nat): Word
    requires i + 4 <= |bytes|
  {
    ((bytes[i] as bv32) << 24) | ((bytes[i + 1] as bv32) << 16) | ((bytes[i + 2] as bv32) << 8) | (bytes[i + 3] as bv32)
  }

  function Words(bytes: seq<Byte>, count: nat): (m: seq<Word>)
    requires |bytes| == 4 * count
    ensures |m| == count
  {
    if count == 0 then [] else Words(bytes[..4 * (count - 1)], count - 1) + [WordAt(bytes, 4 * (count - 1))]
  }

  /** The hash value after every whole block. */
  function Chained(h: seq<Word>, bytes: seq<Byte>): (r: seq<Word>)
    requires |h| == 8
    ensures |r| == 8
    decreases |bytes|
  {
    if |bytes| < BLOCK then h else Chained(Compressed(h, Words(bytes[..BLOCK], 16)), bytes[BLOCK..])
  }

  function ByteOf(w: Word, shift: nat): Byte
    requires shift < 32
  {
    ((w >> shift) & 0xff) as bv8 as int
  }

  function WordBytes(w: Word): (bytes: seq<Byte>)
    ensures |bytes| == 4
  {
    [ByteOf(w, 24), ByteOf(w, 16), ByteOf(w, 8), ByteOf(w, 0)]
  }

  function Output(h: seq<Word>): (bytes: seq<Byte>)
    ensures |bytes| == 4 * |h|
  {
    if h == [] then [] else Output(h[..|h| - 1]) + WordBytes(h[|h| - 1])
  }

  function Digest(message: seq<Byte>): (bytes: seq<Byte>)
    ensures |bytes| == 32
  {
    InitialLength();
    Output(Chained(INITIAL, Padded(message, BLOCK, 8)))
  }

  lemma InitialLength()
    ensures |INITIAL| == 8
  {
  }

  lemma ConstantsLength()
    ensures |K| == ROUNDS
  {
  }

  // ------------------------------------------------------------------ the loops of the original

  lemma WordsPrefix(bytes: seq<Byte>, block: seq<Byte>, offset: nat, count: nat)
    requires offset + BLOCK <= |bytes| && block == bytes[offset..offset + BLOCK] && 0 < count <= 16
    ensures Words(block[..4 * count], count) == Words(block[..4 * (count - 1)], count - 1) +
      [WordAt(bytes, offset + 4 * (count - 1))]
  {
    hide Words, WordAt;
    var part, last := block[..4 * count], 4 * (count - 1);
    assert part[..last] == block[..last];
    assert part == bytes[offset..offset + |part|];
    WordsStep(part, count);
    SameWord(bytes, part, offset, last);
  }

  lemma WordsStep(part: seq<Byte>, count: nat)
    requires 0 < count && |part| == 4 * count
    ensures Words(part, count) == Words(part[..4 * (count - 1)], count - 1) + [WordAt(part, 4 * (count - 1))]
  {
    hide WordAt;
  }

  lemma SameWord(bytes: seq<Byte>, part: seq<Byte>, offset: nat, i: nat)
    requires i + 4 <= |part| && offset + |part| <= |bytes| && part == bytes[offset..offset + |part|]
    ensures WordAt(part, i) == WordAt(bytes, offset + i)
  {
  }

  method LoadWords(bytes: seq<Byte>, offset: nat, w: array<Word>)
    requires offset + BLOCK <= |bytes| && w.Length == ROUNDS
    modifies w
    ensures w[..16] == Words(bytes[offset..offset + BLOCK], 16)
  {
    hide Words, WordAt;
    ghost var block := bytes[offset..offset + BLOCK];
    NoWords(block[..0]);
    for index := 0 to 16
      invariant w[..index] == Words(block[..4 * index], index)
    {
      WordsPrefix(bytes, block, offset, index + 1);
      var cursor := offset + index * 4;
      w[index] := ((bytes[cursor] as bv32) << 24) | ((bytes[cursor + 1] as bv32) << 16) | ((bytes[cursor +
        2] as bv32) << 8)
                  | (bytes[cursor + 3] as bv32);
      assert w[index] == WordAt(bytes, cursor) by { WordText(bytes, cursor); }
      assert w[..index + 1] == w[..index] + [w[index]];
    }
    assert block[..BLOCK] == block;
  }

  lemma NoWords(bytes: seq<Byte>)
    requires bytes == []
    ensures Words(bytes, 0) == []
  {
  }

  /** The schedule is extended in place, sixteen words back at a time. */
  method ExtendWords(w: array<Word>)
    requires w.Length == ROUNDS
    modifies w
    ensures forall t :: 0 <= t < ROUNDS ==> w[t] == Scheduled(old(w[..16]), t)
  {
    hide LowerSigma0, LowerSigma1, Sum4;
    ghost var m := w[..16];
    for index := 16 to ROUNDS
      invariant forall t :: 0 <= t < index ==> w[t] == Scheduled(m, t)
    {
      var s0 := LowerSigma0(w[index - 15]);
      var s1 := LowerSigma1(w[index - 2]);
      SumReversed(w[index - 16], s0, w[index - 7], s1);
      w[index] := Sum4(w[index - 16], s0, w[index - 7], s1);
    }
  }

  /** The original adds the four terms of the schedule in the opposite order. */
  lemma SumReversed(p: Word, q: Word, r: Word, s: Word)
    ensures Sum4(p, q, r, s) == Sum4(s, r, q, p)
  {
  }

  /** One block: the rolling variables end as the standard's working variables, and are added into the hash value. */
  method CompressBlock(h: array<Word>, w: array<Word>, ghost m: seq<Word>)
    requires h.Length == 8 && w.Length == ROUNDS && h != w
    requires |m| == 16 && forall t :: 0 <= t < ROUNDS ==> w[t] == Scheduled(m, t)
    modifies h
    ensures h[..] == Compressed(old(h[..]), m)
  {
    hide Scheduled, UpperSigma0, UpperSigma1, Ch, Maj, K, Add;
    ConstantsLength();
    ghost var start := Load(h[..]);
    var a, b, c, d, e, f, g, hh := h[0], h[1], h[2], h[3], h[4], h[5], h[6], h[7];
    for index := 0 to ROUNDS
      invariant Working(a, b, c, d, e, f, g, hh) == Rounds(start, m, index)
    {
      var s1 := UpperSigma1(e);
      var ch := Ch(e, f, g);
      var temp1 := Add(Add(Add(Add(hh, s1), ch), K[index]), w[index]);
      var s0 := UpperSigma0(a);
      var maj := Maj(a, b, c);
      var temp2 := Add(s0, maj);
      hh := g;
      g := f;
      f := e;
      e := Add(d, temp1);
      d := c;
      c := b;
      b := a;
      a := Add(temp1, temp2);
    }
    ghost var before := h[..];
    AddInto(h, Working(a, b, c, d, e, f, g, hh));
    assert h[..] == Sum(before, Rounds(start, m, ROUNDS));
  }

  lemma SumAt(h: seq<Word>, s: Working, r: seq<Word>)
    requires |h| == 8 && |r| == 8
    requires r[0] == Add(h[0], s.a) && r[1] == Add(h[1], s.b) && r[2] == Add(h[2], s.c) && r[3] == Add(h[3], s.d)
    requires r[4] == Add(h[4], s.e) && r[5] == Add(h[5], s.f) && r[6] == Add(h[6], s.g) && r[7] == Add(h[7], s.h)
    ensures r == Sum(h, s)
  {
    hide Add;
  }

  method AddInto(h: array<Word>, s: Working)
    requires h.Length == 8
    modifies h
    ensures h[..] == Sum(old(h[..]), s)
  {
    hide Add, Sum;
    h[0] := Add(h[0], s.a);
    h[1] := Add(h[1], s.b);
    h[2] := Add(h[2], s.c);
    h[3] := Add(h[3], s.d);
    h[4] := Add(h[4], s.e);
    h[5] := Add(h[5], s.f);
    h[6] := Add(h[6], s.g);
    h[7] := Add(h[7], s.h);
    SumAt(old(h[..]), s, h[..]);
  }

  method EmitBytes(h: array<Word>) returns (out: seq<Byte>)
    ensures out == Output(h[..])
  {
    hide WordBytes;
    out := [];
    for i := 0 to h.Length
      invariant out == Output(h[..i])
    {
      assert h[..i + 1][..i] == h[..i];
      var bytes := EmitWord(h[i]);
      out := out + bytes;
    }
    assert h[..h.Length] == h[..];
  }

  method EmitWord(word: Word) returns (bytes: seq<Byte>)
    ensures bytes == WordBytes(word)
  {
    bytes := [ByteOf(word, 24), ByteOf(word, 16), ByteOf(word, 8), ByteOf(word, 0)];
  }

  lemma WordText(bytes: seq<Byte>, i: nat)
    requires i + 4 <= |bytes|
    ensures WordAt(bytes, i) ==
            ((bytes[i] as bv32) << 24) | ((bytes[i + 1] as bv32) << 16) | ((bytes[i + 2] as bv32) << 8) | (bytes[i +
              3] as bv32)
  {
  }

  lemma ChainStep(h: seq<Word>, rest: seq<Byte>)
    requires |h| == 8 && |rest| >= BLOCK
    ensures Chained(h, rest) == Chained(Compressed(h, Words(rest[..BLOCK], 16)), rest[BLOCK..])
  {
    hide Compressed, Words;
  }

  lemma NextBlock(bytes: seq<Byte>, offset: nat)
    requires offset < |bytes| && Remainder(|bytes[offset..]|, BLOCK) == 0
    ensures offset + BLOCK <= |bytes| && Remainder(|bytes[offset + BLOCK..]|, BLOCK) == 0
  {
  }

  /** The digest that the original computes is the standard's, for every message. */
  method Hash(input: seq<Byte>) returns (out: seq<Byte>)
    ensures out == Digest(input)
  {
    hide Padded, Chained, Compressed, Words, Scheduled, Output, Remainder, INITIAL;
    InitialLength();
    var bytes := Pad(input, BLOCK, 8);
    PaddedIsWhole(input, BLOCK, 8);
    var h := new Word[8](i requires 0 <= i < 8 => INITIAL[i]);
    assert h[..] == INITIAL;
    var offset := 0;
    assert bytes[0..] == bytes;
    while offset < |bytes|
      invariant offset <= |bytes| && Remainder(|bytes[offset..]|, BLOCK) == 0
      invariant Chained(h[..], bytes[offset..]) == Chained(INITIAL, bytes)
    {
      NextBlock(bytes, offset);
      ghost var before, rest := h[..], bytes[offset..];
      var w := new Word[ROUNDS];
      LoadWords(bytes, offset, w);
      ghost var m := w[..16];
      ExtendWords(w);
      CompressBlock(h, w, m);
      assert rest[..BLOCK] == bytes[offset..offset + BLOCK] && rest[BLOCK..] == bytes[offset + BLOCK..];
      ChainStep(before, rest);
      offset := offset + BLOCK;
    }
    assert bytes[offset..] == [];
    ChainEnds(h[..]);
    out := EmitBytes(h);
  }

  lemma ChainEnds(h: seq<Word>)
    requires |h| == 8
    ensures Chained(h, []) == h
  {
  }

  /** Hashing is done block by block: what follows whole blocks is hashed from the value they leave. */
  lemma {:induction false} ChainedInParts(h: seq<Word>, a: seq<Byte>, b: seq<Byte>)
    requires |h| == 8 && |a| % BLOCK == 0
    ensures Chained(h, a + b) == Chained(Chained(h, a), b)
    decreases |a|
  {
    hide Compressed, Words;
    if a == [] {
      assert a + b == b;
    } else {
      assert (a + b)[..BLOCK] == a[..BLOCK] && (a + b)[BLOCK..] == a[BLOCK..] + b;
      ChainedInParts(Compressed(h, Words(a[..BLOCK], 16)), a[BLOCK..], b);
    }
  }

  /** The padded forms of distinct messages are distinct: the hash sees the whole message. */
  lemma PaddedMessagesDiffer(a: seq<Byte>, b: seq<Byte>)
    requires a != b
    ensures Padded(a, BLOCK, 8) != Padded(b, BLOCK, 8)
  {
    hide Padded, Pow256;
    FieldsAreWide();
    if Padded(a, BLOCK, 8) == Padded(b, BLOCK, 8) {
      PaddingInjective(a, b, BLOCK, 8);
    }
  }
}
