/** The base64url codec of the Gmail plugin, on bytes (section 5 of RFC 4648). */
module Base64Url {
  import opened Basics
  import Bits = Base64Bits

  type Byte = n: int | 0 <= n < 256
  type Sextet = n: int | 0 <= n < 64

  const UPPER := "ABCDEFGHIJKLMNOPQRSTUVWXYZ"
  const LOWER := "abcdefghijklmnopqrstuvwxyz"
  const DIGITS := "0123456789"
  const BASE64_ALPHABET := UPPER + LOWER + DIGITS + "+/"

  function Letter(s: Sextet): char {
    BASE64_ALPHABET[s]
  }

  /** `BASE64_LOOKUP[c] ?? 0`: the place of a letter in the alphabet, and 0 for anything else. */
  function Lookup(c: char): Sextet {
    if 'A' <= c <= 'Z' then (c as int) - ('A' as int)
    else if 'a' <= c <= 'z' then (c as int) - ('a' as int) + 26
    else if '0' <= c <= '9' then (c as int) - ('0' as int) + 52
    else if c == '+' then 62
    else if c == '/' then 63
    else 0
  }

  predicate IsLetter(c: char) {
    'A' <= c <= 'Z' || 'a' <= c <= 'z' || '0' <= c <= '9' || c == '+' || c == '/'
  }

  lemma UpperAt(i: nat)
    requires i < 26
    ensures UPPER[i] as int == 'A' as int + i
  {
    assert i == 0 || i == 1 || i == 2 || i == 3 || i == 4 || i == 5 || i == 6 || i == 7 || i == 8 || i == 9 ||
           i == 10 || i == 11 || i == 12 || i == 13 || i == 14 || i == 15 || i == 16 || i == 17 ||
           i == 18 || i == 19 || i == 20 || i == 21 || i == 22 || i == 23 || i == 24 || i == 25;
  }

  lemma LowerAt(i: nat)
    requires i < 26
    ensures LOWER[i] as int == 'a' as int + i
  {
    assert i == 0 || i == 1 || i == 2 || i == 3 || i == 4 || i == 5 || i == 6 || i == 7 || i == 8 || i == 9 ||
           i == 10 || i == 11 || i == 12 || i == 13 || i == 14 || i == 15 || i == 16 || i == 17 ||
           i == 18 || i == 19 || i == 20 || i == 21 || i == 22 || i == 23 || i == 24 || i == 25;
  }

  lemma DigitAt(i: nat)
    requires i < 10
    ensures DIGITS[i] as int == '0' as int + i
  {
    assert i == 0 || i == 1 || i == 2 || i == 3 || i == 4 || i == 5 || i == 6 || i == 7 || i == 8 || i == 9;
  }

  lemma LetterAt(s: Sextet)
    ensures Letter(s) == if s < 26 then UPPER[s] else if s < 52 then LOWER[s - 26] else if s < 62 then DIGITS[s - 52]
      else "+/"[s - 62]
  {
    assert |UPPER| == 26 && |LOWER| == 26 && |DIGITS| == 10;
    hide UPPER, LOWER, DIGITS;
  }

  lemma LetterLookup(s: Sextet)
    ensures Lookup(Letter(s)) == s && IsLetter(Letter(s))
  {
    LetterAt(s);
    hide Letter, UPPER, LOWER, DIGITS;
    if s < 26 {
      UpperAt(s);
    } else if s < 52 {
      LowerAt(s - 26);
    } else if s < 62 {
      DigitAt(s - 52);
    } else {
      assert s == 62 || s == 63;
    }
  }

  lemma LookupLetter(c: char)
    requires IsLetter(c)
    ensures Letter(Lookup(c)) == c
  {
    var s := Lookup(c);
    LetterLookup(s);
    hide Letter;
  }

  // ------------------------------------------------------------------ the numbers of one group

  type Word = n: int | 0 <= n < 16777216

  function Combined(a: Byte, b: Byte, c: Byte): Word { 65536 * a + 256 * b + c }

  function Joined(s: Sextet, t: Sextet, u: Sextet, v: Sextet): Word { 262144 * s + 4096 * t + 64 * u + v }

  lemma Split64(q: int, r: Sextet)
    ensures (64 * q + r) / 64 == q && (64 * q + r) % 64 == r
  {
  }

  lemma Split256(q: int, r: Byte)
    ensures (256 * q + r) / 256 == q && (256 * q + r) % 256 == r
  {
  }

  lemma Whole64(w: int)
    ensures w == 64 * (w / 64) + w % 64
  {
  }

  lemma Whole256(w: int)
    ensures w == 256 * (w / 256) + w % 256
  {
  }

  lemma Twice64(w: int)
    ensures w / 4096 == w / 64 / 64
  {
  }

  lemma Thrice64(w: int)
    ensures w / 262144 == w / 4096 / 64
  {
  }

  lemma Twice256(w: int)
    ensures w / 65536 == w / 256 / 256
  {
  }

  lemma SextetsOf(w: Word)
    ensures 0 <= w / 262144 < 64 && Joined(w / 262144, w / 4096 % 64, w / 64 % 64, w % 64) == w
  {
    Whole64(w);
    Whole64(w / 64);
    Whole64(w / 4096);
    Twice64(w);
    Thrice64(w);
  }

  lemma JoinedParts(s: Sextet, t: Sextet, u: Sextet, v: Sextet)
    ensures var w := Joined(s, t, u, v); w / 262144 == s && w / 4096 % 64 == t && w / 64 % 64 == u && w % 64 == v
  {
    var w := Joined(s, t, u, v);
    Split64(4096 * s + 64 * t + u, v);
    Split64(64 * s + t, u);
    Split64(s, t);
    Twice64(w);
    Thrice64(w);
  }

  lemma BytesOf(a: Byte, b: Byte, c: Byte)
    ensures var w := Combined(a, b, c); w / 65536 == a && w / 256 % 256 == b && w % 256 == c
  {
    Split256(256 * a + b, c);
    Split256(a, b);
    Twice256(Combined(a, b, c));
  }

  lemma CombinedParts(w: Word)
    ensures 0 <= w / 65536 < 256 && Combined(w / 65536, w / 256 % 256, w % 256) == w
  {
    Whole256(w);
    Whole256(w / 256);
    Twice256(w);
  }

  // ------------------------------------------------------------------ the bit operations of one group

  /** The encoder's shifts and masks are the divisions and remainders of the model. */
  lemma EncoderShifts(a: Byte, b: Byte, c: Byte)
    ensures var w := Combined(a, b, c);
      && Bits.Sextet18(a, b, c) == w / 262144 && Bits.Sextet12(a, b, c) == w / 4096 % 64
      && Bits.Sextet6(a, b, c) == w / 64 % 64 && Bits.Sextet0(a, b, c) == w % 64
  {
    hide Bits.Sextet18, Bits.Sextet12, Bits.Sextet6, Bits.Sextet0;
    Bits.SextetsInRange(a, b, c);
    Bits.SextetsWeigh(a, b, c);
    JoinedParts(Bits.Sextet18(a, b, c), Bits.Sextet12(a, b, c), Bits.Sextet6(a, b, c), Bits.Sextet0(a, b, c));
  }

  /** So are the decoder's. */
  lemma DecoderShifts(s: Sextet, t: Sextet, u: Sextet, v: Sextet)
    ensures var w := Joined(s, t, u, v);
      && Bits.Byte16(s, t, u, v) == w / 65536 && Bits.Byte8(s, t, u, v) == w / 256 % 256
      && Bits.Byte0(s, t, u, v) == w % 256
  {
    hide Bits.Byte16, Bits.Byte8, Bits.Byte0;
    Bits.BytesInRange(s, t, u, v);
    Bits.BytesWeigh(s, t, u, v);
    BytesOf(Bits.Byte16(s, t, u, v), Bits.Byte8(s, t, u, v), Bits.Byte0(s, t, u, v));
  }

  // ------------------------------------------------------------------ encoding

  function Letters(w: Word): (r: string)
    ensures |r| == 4
  {
    [Letter(w / 262144), Letter(w / 4096 % 64), Letter(w / 64 % 64), Letter(w % 64)]
  }

  /** The letters of the encoding, without padding. */
  function Body(bytes: seq<Byte>): string {
    if bytes == [] then ""
    else if |bytes| == 1 then Letters(Combined(bytes[0], 0, 0))[..2]
    else if |bytes| == 2 then Letters(Combined(bytes[0], bytes[1], 0))[..3]
    else Letters(Combined(bytes[0], bytes[1], bytes[2])) + Body(bytes[3..])
  }

  function Pads(n: nat): (r: string)
    ensures |r| == n && forall c :: c in r ==> c == '='
  {
    seq(n, _ => '=')
  }

  function Encoded(bytes: seq<Byte>): string {
    Body(bytes) + Pads((3 - |bytes| % 3) % 3)
  }

  /** The four characters for the next one to three bytes. */
  function GroupText(bytes: seq<Byte>): string
    requires bytes != []
  {
    if |bytes| == 1 then Letters(Combined(bytes[0], 0, 0))[..2] + "=="
    else if |bytes| == 2 then Letters(Combined(bytes[0], bytes[1], 0))[..3] + "="
    else Letters(Combined(bytes[0], bytes[1], bytes[2]))
  }

  function Tail(bytes: seq<Byte>): seq<Byte> {
    if |bytes| <= 3 then [] else bytes[3..]
  }

  lemma FewPads()
    ensures Pads(0) == "" && Pads(1) == "=" && Pads(2) == "=="
  {
  }

  lemma EncodedStep(bytes: seq<Byte>)
    requires bytes != []
    ensures Encoded(bytes) == GroupText(bytes) + Encoded(Tail(bytes))
  {
    hide Letters, Combined, Pads;
    FewPads();
    if |bytes| > 3 {
      var g, rest, pads := GroupText(bytes), Body(bytes[3..]), Pads((3 - |bytes| % 3) % 3);
      assert |bytes[3..]| % 3 == |bytes| % 3;
      assert Body(bytes) == g + rest;
      assert (g + rest) + pads == g + (rest + pads);
    } else if |bytes| == 3 {
      assert bytes[3..] == [];
    }
  }

  method EncodeGroup(bytes: seq<Byte>, index: nat) returns (text: string)
    requires index < |bytes|
    ensures text == GroupText(bytes[index..])
  {
    hide Letter, Combined, Bits.Sextet18, Bits.Sextet12, Bits.Sextet6, Bits.Sextet0;
    var first := bytes[index];
    var second := if index + 1 < |bytes| then bytes[index + 1] else 0;
    var third := if index + 2 < |bytes| then bytes[index + 2] else 0;
    EncoderShifts(first, second, third);
    text := [Letter(Bits.Sextet18(first, second, third))];
    text := text + [Letter(Bits.Sextet12(first, second, third))];
    text := text + if index + 1 < |bytes| then [Letter(Bits.Sextet6(first, second, third))] else "=";
    text := text + if index + 2 < |bytes| then [Letter(Bits.Sextet0(first, second, third))] else "=";
  }

  /** The original's loop over groups of three bytes. */
  method Base64Encode(bytes: seq<Byte>) returns (output: string)
    ensures output == Encoded(bytes)
  {
    hide GroupText, Encoded;
    output := "";
    var index := 0;
    ghost var rest := bytes;
    while index < |bytes|
      invariant rest == if index < |bytes| then bytes[index..] else []
      invariant output + Encoded(rest) == Encoded(bytes)
    {
      EncodedStep(rest);
      var text := EncodeGroup(bytes, index);
      assert output + text + Encoded(Tail(rest)) == output + (text + Encoded(Tail(rest)));
      output := output + text;
      index := index + 3;
      rest := Tail(rest);
    }
    NothingEncoded();
  }

  lemma NothingEncoded()
    ensures Encoded([]) == ""
  {
    assert Pads(0) == "";
  }

  /** `replaceAll(from, to)` for single characters. */
  function Replace(s: string, from: char, to: char): (r: string)
    ensures |r| == |s| && forall i :: 0 <= i < |s| ==> r[i] == if s[i] == from then to else s[i]
  {
    seq(|s|, i requires 0 <= i < |s| => if s[i] == from then to else s[i])
  }

  /** `replace(/=+$/, "")` */
  function StripPads(s: string): (r: string)
    ensures r <= s && (r != "" ==> r[|r| - 1] != '=')
  {
    if s != "" && s[|s| - 1] == '=' then StripPads(s[..|s| - 1]) else s
  }

  function UrlSafe(s: string): string {
    Replace(Replace(s, '+', '-'), '/', '_')
  }

  function Normalized(s: string): string {
    Replace(Replace(s, '-', '+'), '_', '/')
  }

  function EncodeUrl(bytes: seq<Byte>): string {
    StripPads(UrlSafe(Encoded(bytes)))
  }

  method Base64UrlEncode(bytes: seq<Byte>) returns (text: string)
    ensures text == EncodeUrl(bytes)
  {
    var standard := Base64Encode(bytes);
    text := StripPads(Replace(Replace(standard, '+', '-'), '/', '_'));
  }

  // ------------------------------------------------------------------ decoding

  /** The number for a character after padding: an absent third or fourth letter counts as zero. */
  function PadLookup(c: char): Sextet {
    if c == '=' then 0 else Lookup(c)
  }

  function DecodedGroup(c: char, d: char, e: char, f: char): seq<Byte> {
    var w := Joined(Lookup(c), Lookup(d), PadLookup(e), PadLookup(f));
    [w / 65536] + (if e != '=' then [w / 256 % 256] else []) + (if f != '=' then [w % 256] else [])
  }

  function Decoded(padded: string): seq<Byte>
    requires |padded| % 4 == 0
  {
    if padded == "" then [] else DecodedGroup(padded[0], padded[1], padded[2], padded[3]) + Decoded(padded[4..])
  }

  function Padded(s: string): (r: string)
    ensures |r| % 4 == 0
  {
    s + Pads((4 - |s| % 4) % 4)
  }

  function DecodeUrl(text: string): seq<Byte> {
    Decoded(Padded(Normalized(text)))
  }

  method DecodeGroup(c: char, d: char, thirdChar: char, fourthChar: char) returns (bytes: seq<Byte>)
    ensures bytes == DecodedGroup(c, d, thirdChar, fourthChar)
  {
    hide Lookup, Joined, Bits.Byte16, Bits.Byte8, Bits.Byte0;
    var first, second := Lookup(c), Lookup(d);
    var third := if thirdChar == '=' then 0 else Lookup(thirdChar);
    var fourth := if fourthChar == '=' then 0 else Lookup(fourthChar);
    DecoderShifts(first, second, third, fourth);
    bytes := [Bits.Byte16(first, second, third, fourth)];
    if thirdChar != '=' { bytes := bytes + [Bits.Byte8(first, second, third, fourth)]; }
    if fourthChar != '=' { bytes := bytes + [Bits.Byte0(first, second, third, fourth)]; }
  }

  lemma DecodedStep(before: seq<Byte>, padded: string)
    requires |padded| % 4 == 0 && padded != ""
    ensures |padded| >= 4 && |padded[4..]| % 4 == 0
    ensures before + Decoded(padded) == before + DecodedGroup(padded[0], padded[1], padded[2], padded[3]) +
      Decoded(padded[4..])
  {
    hide DecodedGroup;
  }

  /** The original's loop over groups of four characters; characters outside the alphabet count as zero. */
  method Base64UrlDecode(value: string) returns (bytes: seq<Byte>)
    ensures bytes == DecodeUrl(value)
  {
    hide DecodedGroup, Padded, Normalized, Decoded;
    var padded := Padded(Normalized(value));
    bytes := [];
    var index := 0;
    while index < |padded|
      invariant index <= |padded| && |padded[index..]| % 4 == 0
      invariant bytes + Decoded(padded[index..]) == Decoded(padded)
    {
      DecodedStep(bytes, padded[index..]);
      assert padded[index..][4..] == padded[index + 4..];
      var group := DecodeGroup(padded[index], padded[index + 1], padded[index + 2], padded[index + 3]);
      bytes := bytes + group;
      index := index + 4;
    }
    NothingDecoded();
  }

  lemma NothingDecoded()
    ensures Decoded("") == []
  {
  }

  // ------------------------------------------------------------------ round trips

  predicate AllLetters(s: string) {
    forall c :: c in s ==> IsLetter(c)
  }

  lemma LettersAreLetters(w: Word)
    ensures AllLetters(Letters(w))
    ensures forall i :: 0 <= i < 4 ==> IsLetter(Letters(w)[i])
  {
    hide Letter, IsLetter;
    LetterLookup(w / 262144);
    LetterLookup(w / 4096 % 64);
    LetterLookup(w / 64 % 64);
    LetterLookup(w % 64);
  }

  lemma {:induction false} BodyShape(bytes: seq<Byte>)
    ensures AllLetters(Body(bytes))
    ensures |Body(bytes)| == 4 * (|bytes| / 3) + (if |bytes| % 3 == 0 then 0 else |bytes| % 3 + 1)
    decreases |bytes|
  {
    hide Letters, IsLetter, Combined;
    if |bytes| == 1 {
      LettersAreLetters(Combined(bytes[0], 0, 0));
    } else if |bytes| == 2 {
      LettersAreLetters(Combined(bytes[0], bytes[1], 0));
    } else if |bytes| >= 3 {
      LettersAreLetters(Combined(bytes[0], bytes[1], bytes[2]));
      BodyShape(bytes[3..]);
      assert |bytes[3..]| % 3 == |bytes| % 3 && |bytes[3..]| / 3 == |bytes| / 3 - 1;
    }
  }

  lemma {:induction false} StripAfter(s: string, n: nat)
    requires s == "" || s[|s| - 1] != '='
    ensures StripPads(s + Pads(n)) == s
    decreases n
  {
    var t := s + Pads(n);
    if n == 0 {
      assert t == s;
    } else {
      assert t[|t| - 1] == Pads(n)[n - 1];
      assert t[..|t| - 1] == s + Pads(n - 1);
      StripAfter(s, n - 1);
    }
  }

  lemma UrlSafeParts(s: string, n: nat)
    ensures UrlSafe(s + Pads(n)) == UrlSafe(s) + Pads(n)
  {
    assert forall i :: 0 <= i < n ==> Pads(n)[i] == '=';
  }

  /** The url text is the letters in the url-safe alphabet. */
  lemma EncodeUrlIsBody(bytes: seq<Byte>)
    ensures EncodeUrl(bytes) == UrlSafe(Body(bytes))
  {
    var body, n := Body(bytes), (3 - |bytes| % 3) % 3;
    BodyShape(bytes);
    UrlSafeParts(body, n);
    var safe := UrlSafe(body);
    assert |safe| == |body|;
    if safe != "" {
      var last := body[|body| - 1];
      assert last in body;
      assert safe[|safe| - 1] != '=';
    }
    StripAfter(safe, n);
  }

  lemma NormalizedUrlSafe(s: string)
    requires AllLetters(s)
    ensures Normalized(UrlSafe(s)) == s
  {
    assert forall i :: 0 <= i < |s| ==> s[i] in s;
  }

  /** The padding recomputed from the length alone is the padding that was dropped. */
  lemma RepaddedIsEncoded(bytes: seq<Byte>)
    ensures Padded(Normalized(EncodeUrl(bytes))) == Encoded(bytes)
  {
    hide Normalized, UrlSafe, EncodeUrl, Body, AllLetters;
    EncodeUrlIsBody(bytes);
    BodyShape(bytes);
    NormalizedUrlSafe(Body(bytes));
    assert (4 - |Body(bytes)| % 4) % 4 == (3 - |bytes| % 3) % 3;
  }

  lemma GroupOfThree(a: Byte, b: Byte, c: Byte)
    ensures var t := Letters(Combined(a, b, c)); DecodedGroup(t[0], t[1], t[2], t[3]) == [a, b, c]
    ensures var t := Letters(Combined(a, b, 0)); DecodedGroup(t[0], t[1], t[2], '=') == [a, b]
    ensures var t := Letters(Combined(a, 0, 0)); DecodedGroup(t[0], t[1], '=', '=') == [a]
  {
    hide Letter, Lookup, IsLetter, Joined, Combined;
    WordRoundTrip(Combined(a, b, c));
    WordRoundTrip(Combined(a, b, 0));
    WordRoundTrip(Combined(a, 0, 0));
    ZeroTail(a, b);
    BytesOf(a, b, c);
    BytesOf(a, b, 0);
    BytesOf(a, 0, 0);
  }

  lemma ZeroTail(a: Byte, b: Byte)
    ensures Combined(a, b, 0) % 64 == 0 && Combined(a, 0, 0) % 64 == 0 && Combined(a, 0, 0) / 64 % 64 == 0
  {
    Split64(1024 * a + 4 * b, 0);
    Split64(1024 * a, 0);
    Split64(16 * a, 0);
  }

  lemma WordRoundTrip(w: Word)
    ensures var t := Letters(w);
      && Joined(Lookup(t[0]), Lookup(t[1]), Lookup(t[2]), Lookup(t[3])) == w
      && Lookup(t[2]) == w / 64 % 64 && Lookup(t[3]) == w % 64 && t[2] != '=' && t[3] != '='
  {
    hide Letter, Lookup, Joined;
    LetterLookup(w / 262144);
    LetterLookup(w / 4096 % 64);
    LetterLookup(w / 64 % 64);
    LetterLookup(w % 64);
    SextetsOf(w);
  }

  lemma GroupRoundTrip(bytes: seq<Byte>)
    requires bytes != []
    ensures var t := GroupText(bytes); |t| == 4 && DecodedGroup(t[0], t[1], t[2], t[3]) + Tail(bytes) == bytes
  {
    hide Letters, DecodedGroup, Combined;
    if |bytes| == 1 {
      GroupOfThree(bytes[0], 0, 0);
    } else if |bytes| == 2 {
      GroupOfThree(bytes[0], bytes[1], 0);
    } else {
      GroupOfThree(bytes[0], bytes[1], bytes[2]);
    }
  }

  lemma {:induction false} DecodedEncoded(bytes: seq<Byte>)
    ensures |Encoded(bytes)| % 4 == 0 && Decoded(Encoded(bytes)) == bytes
    decreases |bytes|
  {
    hide GroupText, Encoded, DecodedGroup;
    if bytes == [] {
      NothingEncoded();
    } else {
      EncodedStep(bytes);
      GroupRoundTrip(bytes);
      DecodedEncoded(Tail(bytes));
      var t, rest := GroupText(bytes), Encoded(Tail(bytes));
      assert (t + rest)[4..] == rest;
    }
  }

  /** Decoding the unpadded url-safe text gives back the bytes, for every length. */
  lemma UrlRoundTrip(bytes: seq<Byte>)
    ensures DecodeUrl(EncodeUrl(bytes)) == bytes
  {
    hide Encoded, EncodeUrl, Padded, Normalized;
    RepaddedIsEncoded(bytes);
    DecodedEncoded(bytes);
  }

  // ------------------------------------------------------------------ which texts are encodings

  predicate IsUrlLetter(c: char) {
    'A' <= c <= 'Z' || 'a' <= c <= 'z' || '0' <= c <= '9' || c == '-' || c == '_'
  }

  /** Letters that fill whole bytes: the bits that the last letter has over are zero. */
  predicate FillsBytes(t: string) {
    && |t| % 4 != 1
    && (|t| % 4 == 2 ==> Lookup(t[|t| - 1]) % 16 == 0)
    && (|t| % 4 == 3 ==> Lookup(t[|t| - 1]) % 4 == 0)
  }

  predicate Canonical(text: string) {
    (forall c :: c in text ==> IsUrlLetter(c)) && FillsBytes(Normalized(text))
  }

  lemma LettersOf(c: char, d: char, e: char, f: char)
    requires IsLetter(c) && IsLetter(d) && IsLetter(e) && IsLetter(f)
    ensures Letters(Joined(Lookup(c), Lookup(d), Lookup(e), Lookup(f))) == [c, d, e, f]
  {
    hide Letter, Lookup, Joined, IsLetter;
    JoinedParts(Lookup(c), Lookup(d), Lookup(e), Lookup(f));
    LookupLetter(c);
    LookupLetter(d);
    LookupLetter(e);
    LookupLetter(f);
  }

  lemma LetterIsNoPad(c: char)
    requires IsLetter(c)
    ensures c != '=' && PadLookup(c) == Lookup(c)
  {
  }

  lemma FullGroup(c: char, d: char, e: char, f: char)
    requires IsLetter(c) && IsLetter(d) && IsLetter(e) && IsLetter(f)
    ensures var g := DecodedGroup(c, d, e, f); |g| == 3 && Letters(Combined(g[0], g[1], g[2])) == [c, d, e, f]
  {
    hide Letters, Lookup, PadLookup, Joined, Combined, IsLetter;
    LetterIsNoPad(e);
    LetterIsNoPad(f);
    LettersOf(c, d, e, f);
    CombinedParts(Joined(Lookup(c), Lookup(d), Lookup(e), Lookup(f)));
  }

  lemma SpareTwelve(s: Sextet, t: Sextet)
    requires t % 16 == 0
    ensures var w := Joined(s, t, 0, 0); Combined(w / 65536, 0, 0) == w
  {
    var k := t / 16;
    Split256(256 * (4 * s + k), 0);
    Split256(4 * s + k, 0);
    Twice256(Joined(s, t, 0, 0));
  }

  lemma SpareSix(s: Sextet, t: Sextet, u: Sextet)
    requires u % 4 == 0
    ensures var w := Joined(s, t, u, 0); Combined(w / 65536, w / 256 % 256, 0) == w
  {
    var w, k := Joined(s, t, u, 0), u / 4;
    Split256(1024 * s + 16 * t + k, 0);
    CombinedParts(w);
  }

  lemma HalfGroup(c: char, d: char)
    requires IsLetter(c) && IsLetter(d) && Lookup(d) % 16 == 0
    ensures Body(DecodedGroup(c, d, '=', '=')) == [c, d]
  {
    assert IsLetter('A') && Lookup('A') == 0;
    assert PadLookup('=') == 0;
    hide Letters, Lookup, Joined, Combined, IsLetter, PadLookup;
    SpareTwelve(Lookup(c), Lookup(d));
    LettersOf(c, d, 'A', 'A');
  }

  lemma ThreeQuarterGroup(c: char, d: char, e: char)
    requires IsLetter(c) && IsLetter(d) && IsLetter(e) && Lookup(e) % 4 == 0
    ensures Body(DecodedGroup(c, d, e, '=')) == [c, d, e]
  {
    assert IsLetter('A') && Lookup('A') == 0;
    assert PadLookup('=') == 0;
    hide Letters, Lookup, Joined, Combined, IsLetter, PadLookup;
    LetterIsNoPad(e);
    SpareSix(Lookup(c), Lookup(d), Lookup(e));
    LettersOf(c, d, e, 'A');
  }

  lemma PaddedStep(t: string)
    requires |t| >= 4
    ensures var p := Padded(t); p[..4] == t[..4] && p[4..] == Padded(t[4..])
  {
  }

  lemma {:induction false} BodyDecoded(t: string)
    requires AllLetters(t) && FillsBytes(t)
    ensures Body(Decoded(Padded(t))) == t
    decreases |t|
  {
    hide Letters, Lookup, Joined, Combined, IsLetter, DecodedGroup;
    var p := Padded(t);
    forall i | 0 <= i < |t|
      ensures IsLetter(t[i])
    {
      assert t[i] in t;
    }
    if t == "" {
    } else if |t| == 2 {
      assert p == t + "==" && p[4..] == "" && t == [t[0], t[1]];
      HalfGroup(t[0], t[1]);
    } else if |t| == 3 {
      assert p == t + "=" && p[4..] == "" && t == [t[0], t[1], t[2]];
      ThreeQuarterGroup(t[0], t[1], t[2]);
    } else {
      PaddedStep(t);
      assert |t[4..]| % 4 == |t| % 4 && (|t| > 4 ==> t[4..][|t| - 5] == t[|t| - 1]);
      BodyDecoded(t[4..]);
      FullGroup(t[0], t[1], t[2], t[3]);
      var g, rest := DecodedGroup(t[0], t[1], t[2], t[3]), Decoded(p[4..]);
      assert p[0] == t[0] && p[1] == t[1] && p[2] == t[2] && p[3] == t[3];
      hide Padded, AllLetters;
      assert (g + rest)[3..] == rest;
      assert t == [t[0], t[1], t[2], t[3]] + t[4..];
    }
  }

  lemma SpareBits(x: nat)
    ensures 16 * x % 64 % 16 == 0 && 4 * x % 64 % 4 == 0
  {
    Whole64(16 * x);
    Whole64(4 * x);
    var q, r := 16 * x / 64, 4 * x / 64;
    assert 16 * x % 64 == 16 * (x - 4 * q) && 4 * x % 64 == 4 * (x - 16 * r);
  }

  lemma LastSextets(a: Byte, b: Byte)
    ensures Combined(a, 0, 0) / 4096 == 16 * a && Combined(a, b, 0) / 64 == 4 * (256 * a + b)
  {
    Split64(1024 * a, 0);
    Split64(16 * a, 0);
    Twice64(Combined(a, 0, 0));
    Split64(1024 * a + 4 * b, 0);
  }

  lemma LettersLookup(w: Word)
    ensures Lookup(Letters(w)[1]) == w / 4096 % 64 && Lookup(Letters(w)[2]) == w / 64 % 64
  {
    hide Letter, Lookup;
    LetterLookup(w / 4096 % 64);
    LetterLookup(w / 64 % 64);
  }

  lemma LastLetters(a: Byte, b: Byte)
    ensures Lookup(Letters(Combined(a, 0, 0))[1]) % 16 == 0 && Lookup(Letters(Combined(a, b, 0))[2]) % 4 == 0
  {
    hide Letters, Lookup, Combined;
    LettersLookup(Combined(a, 0, 0));
    LettersLookup(Combined(a, b, 0));
    LastSextets(a, b);
    SpareBits(a);
    SpareBits(256 * a + b);
  }

  lemma {:induction false} BodyFillsBytes(bytes: seq<Byte>)
    ensures FillsBytes(Body(bytes))
    decreases |bytes|
  {
    hide Letters, Lookup, Combined;
    BodyShape(bytes);
    if |bytes| == 1 {
      LastLetters(bytes[0], 0);
    } else if |bytes| == 2 {
      LastLetters(bytes[0], bytes[1]);
    } else if |bytes| >= 3 {
      BodyFillsBytes(bytes[3..]);
      BodyShape(bytes[3..]);
      var g, rest := Letters(Combined(bytes[0], bytes[1], bytes[2])), Body(bytes[3..]);
      assert Body(bytes) == g + rest;
      assert rest != "" ==> (g + rest)[|g + rest| - 1] == rest[|rest| - 1];
    }
  }

  lemma UrlSafeNormalized(text: string)
    requires forall c :: c in text ==> IsUrlLetter(c)
    ensures UrlSafe(Normalized(text)) == text && AllLetters(Normalized(text))
  {
    assert forall i :: 0 <= i < |text| ==> text[i] in text;
  }

  lemma UrlSafeLetters(t: string)
    requires AllLetters(t)
    ensures forall c :: c in UrlSafe(t) ==> IsUrlLetter(c)
  {
    assert forall i :: 0 <= i < |t| ==> t[i] in t;
  }

  /** A text is the encoding of what it decodes to exactly when it is canonical. */
  lemma ReencodesIff(text: string)
    ensures EncodeUrl(DecodeUrl(text)) == text <==> Canonical(text)
  {
    hide IsUrlLetter, AllLetters, FillsBytes, Body, Padded, Decoded, Normalized, UrlSafe, EncodeUrl;
    var bytes := DecodeUrl(text);
    EncodeUrlIsBody(bytes);
    if Canonical(text) {
      UrlSafeNormalized(text);
      BodyDecoded(Normalized(text));
    }
    if EncodeUrl(bytes) == text {
      BodyShape(bytes);
      BodyFillsBytes(bytes);
      UrlSafeLetters(Body(bytes));
      NormalizedUrlSafe(Body(bytes));
    }
  }
}
