/** HMAC with SHA-512 (section 2 of RFC 2104), and hashing of strings. */
module Hmac {
  import opened HashPadding
  import Sha256
  import Sha512
  import Utf8

  const BLOCK := 128

  function Xor(b: Byte, mask: bv8): Byte {
    ((b as bv8) ^ mask) as int
  }

  /** The key brought to one block: hashed first when longer, then filled with zeros. */
  function BlockKey(key: seq<Byte>): (k: seq<Byte>)
    ensures |k| == BLOCK
  {
    var short := if |key| > BLOCK then Sha512.Digest(key) else key;
    short + Zeros(BLOCK - |short|)
  }

  function Masked(key: seq<Byte>, mask: bv8): (r: seq<Byte>)
    ensures |r| == |key| && forall i :: 0 <= i < |key| ==> r[i] == Xor(key[i], mask)
  {
    seq(|key|, i requires 0 <= i < |key| => Xor(key[i], mask))
  }

  /** H(K XOR opad, H(K XOR ipad, text)) */
  function Mac(key: seq<Byte>, text: seq<Byte>): (bytes: seq<Byte>)
    ensures |bytes| == 64
  {
    var k := BlockKey(key);
    Sha512.Digest(Masked(k, 0x5c) + Sha512.Digest(Masked(k, 0x36) + text))
  }

  method NormalizeKey(key: seq<Byte>) returns (normalizedKey: seq<Byte>)
    ensures normalizedKey == BlockKey(key)
  {
    hide Sha512.Digest;
    normalizedKey := key;
    if |normalizedKey| > BLOCK { normalizedKey := Sha512.Hash(normalizedKey); }
    ghost var short := normalizedKey;
    while |normalizedKey| < BLOCK
      invariant |short| <= |normalizedKey| <= BLOCK && normalizedKey == short + Zeros(|normalizedKey| - |short|)
    {
      normalizedKey := normalizedKey + [0];
      assert Zeros(|normalizedKey| - |short|) == Zeros(|normalizedKey| - 1 - |short|) + [0];
    }
  }

  /** The original's steps, for keys of every length. */
  method HmacSha512(key: seq<Byte>, message: seq<Byte>) returns (bytes: seq<Byte>)
    ensures bytes == Mac(key, message)
  {
    hide Sha512.Digest, BlockKey, Masked;
    var normalizedKey := NormalizeKey(key);
    var outer := MapXor(normalizedKey, 0x5c);
    var inner := MapXor(normalizedKey, 0x36);
    var digest := Sha512.Hash(inner + message);
    bytes := Sha512.Hash(outer + digest);
  }

  method MapXor(key: seq<Byte>, mask: bv8) returns (r: seq<Byte>)
    ensures r == Masked(key, mask)
  {
    hide Xor;
    r := [];
    for i := 0 to |key|
      invariant |r| == i && forall j :: 0 <= j < i ==> r[j] == Xor(key[j], mask)
    {
      r := r + [Xor(key[i], mask)];
    }
  }

  lemma ZerosSum(n: nat, m: nat)
    ensures Zeros(n) + Zeros(m) == Zeros(n + m)
  {
  }

  lemma ShortBlockKey(key: seq<Byte>)
    requires |key| <= BLOCK
    ensures BlockKey(key) == key + Zeros(BLOCK - |key|)
  {
    hide Sha512.Digest, Zeros;
  }

  /** The key in one block: itself, or its digest when it is longer, and zeros after it. */
  ghost predicate FillsBlock(k: seq<Byte>, key: seq<Byte>) {
    && |k| == 128 && (|key| <= 128 ==> key <= k && forall i :: |key| <= i < 128 ==> k[i] == 0)
    && (|key| > 128 ==> Sha512.Digest(key) <= k && forall i :: 64 <= i < 128 ==> k[i] == 0)
  }

  /** `r` is `k` with `mask` over every byte. */
  ghost predicate MaskedBy(r: seq<Byte>, k: seq<Byte>, mask: bv8) {
    |r| == |k| && forall i :: 0 <= i < |k| ==> r[i] == ((k[i] as bv8) ^ mask) as int
  }

  lemma OneBlockKey(k: seq<Byte>, key: seq<Byte>)
    requires FillsBlock(k, key)
    ensures k == BlockKey(key)
  {
    hide Sha512.Digest;
    var short := if |key| > BLOCK then Sha512.Digest(key) else key;
    assert BlockKey(key) == short + Zeros(BLOCK - |short|);
    assert k[..|short|] == short && k[|short|..] == Zeros(BLOCK - |short|);
    assert k == k[..|short|] + k[|short|..];
  }

  lemma OneMasked(r: seq<Byte>, k: seq<Byte>, mask: bv8)
    requires MaskedBy(r, k, mask)
    ensures r == Masked(k, mask)
  {
  }

  /** Section 2 of RFC 2104, byte by byte: the digest of the outer block and the digest of inner block and text. */
  lemma MacByBytes(key: seq<Byte>, text: seq<Byte>, k: seq<Byte>, inner: seq<Byte>, outer: seq<Byte>)
    requires FillsBlock(k, key) && MaskedBy(inner, k, 0x36) && MaskedBy(outer, k, 0x5c)
    ensures Mac(key, text) == Sha512.Digest(outer + Sha512.Digest(inner + text))
  {
    OneBlockKey(k, key);
    OneMasked(inner, k, 0x36);
    OneMasked(outer, k, 0x5c);
    hide Sha512.Digest, BlockKey, Masked;
  }

  /** The code depends on the key only through its block. */
  lemma SameBlockSameMac(a: seq<Byte>, b: seq<Byte>, text: seq<Byte>)
    requires BlockKey(a) == BlockKey(b)
    ensures Mac(a, text) == Mac(b, text)
  {
    hide Sha512.Digest, BlockKey, Masked;
  }

  /** Zeros at the end of a key that still fits a block do not change the code: keys are only distinct up to them. */
  lemma TrailingZerosOfTheKey(key: seq<Byte>, n: nat, text: seq<Byte>)
    requires |key| + n <= BLOCK
    ensures Mac(key + Zeros(n), text) == Mac(key, text)
  {
    hide Sha512.Digest, BlockKey, Mac, Zeros;
    var left := BLOCK - |key| - n;
    ShortBlockKey(key);
    ShortBlockKey(key + Zeros(n));
    ZerosSum(n, left);
    assert (key + Zeros(n)) + Zeros(left) == key + (Zeros(n) + Zeros(left));
    SameBlockSameMac(key + Zeros(n), key, text);
  }

  /** A key longer than a block stands for its digest. */
  lemma LongKeyIsItsDigest(key: seq<Byte>, text: seq<Byte>)
    requires |key| > BLOCK
    ensures Mac(key, text) == Mac(Sha512.Digest(key), text)
  {
    hide Sha512.Digest, Mac, Zeros;
    SameBlockSameMac(key, Sha512.Digest(key), text);
  }

  /** `sha256` of a string hashes its UTF-8 bytes. */
  function TextBytes(value: seq<Utf8.Unit>): (r: seq<Byte>)
    ensures |r| == |Utf8.Encode(value)| && forall i :: 0 <= i < |r| ==> r[i] == Utf8.Encode(value)[i] as int
  {
    var bytes := Utf8.Encode(value);
    seq(|bytes|, i requires 0 <= i < |bytes| => bytes[i] as int)
  }

  method Sha256OfText(value: seq<Utf8.Unit>) returns (out: seq<Byte>)
    ensures out == Sha256.Digest(TextBytes(value))
  {
    var bytes := Utf8.Utf8Bytes(value);
    var input := seq(|bytes|, i requires 0 <= i < |bytes| => bytes[i] as int);
    out := Sha256.Hash(input);
  }

  /** Distinct strings reach the compression function as distinct padded messages. */
  lemma DistinctTextsDiffer(a: seq<Utf8.Unit>, b: seq<Utf8.Unit>)
    requires a != b
    ensures Padded(TextBytes(a), 64, 8) != Padded(TextBytes(b), 64, 8)
  {
    hide Padded, Utf8.Encode;
    var x, y := TextBytes(a), TextBytes(b);
    if x == y {
      SameText(a, b);
      Utf8.EncodeInjective(a, b);
    }
    Sha256.PaddedMessagesDiffer(x, y);
  }

  lemma SameText(a: seq<Utf8.Unit>, b: seq<Utf8.Unit>)
    requires TextBytes(a) == TextBytes(b)
    ensures Utf8.Encode(a) == Utf8.Encode(b)
  {
    hide Utf8.Encode;
    var x, y := Utf8.Encode(a), Utf8.Encode(b);
    forall i | 0 <= i < |x|
      ensures x[i] as int == y[i] as int
    {
      assert TextBytes(a)[i] == TextBytes(b)[i];
    }
    SameBytes(x, y);
  }

  lemma SameBytes(a: seq<bv8>, b: seq<bv8>)
    requires |a| == |b| && forall i :: 0 <= i < |a| ==> a[i] as int == b[i] as int
    ensures a == b
  {
    forall i | 0 <= i < |a|
      ensures a[i] == b[i]
    {
      SameByte(a[i], b[i]);
    }
  }

  lemma SameByte(a: bv8, b: bv8)
    requires a as int == b as int
    ensures a == b
  {
    assert (a as int) as bv8 == a && (b as int) as bv8 == b;
  }
}
