/** The UTF-8 encoder of the Kraken plugin's hashing code, on strings as sequences of 16-bit units. */
module Utf8 {
  import opened Basics

  type Unit = bv16
  type Byte = bv8

  predicate High(u: Unit) { 0xd800 <= u <= 0xdbff }

  predicate Low(u: Unit) { 0xdc00 <= u <= 0xdfff }

  predicate Paired(units: seq<Unit>) {
    |units| >= 2 && High(units[0]) && Low(units[1])
  }

  type Point = p: bv32 | p <= 0x10ffff

  function PairPoint(high: Unit, low: Unit): (p: Point)
    requires High(high) && Low(low)
    ensures 0x10000 <= p
  {
    0x10000 + (((high as bv32) - 0xd800) << 10) + ((low as bv32) - 0xdc00)
  }

  function Alone(u: Unit): (p: Point)
    ensures p <= 0xffff
  {
    u as bv32
  }

  /** The code point that a string starts with; a surrogate without its partner stands for itself. */
  function FirstPoint(units: seq<Unit>): Point
    requires units != []
  {
    if Paired(units) then PairPoint(units[0], units[1]) else Alone(units[0])
  }

  function FirstLength(units: seq<Unit>): (n: nat)
    requires units != []
    ensures 1 <= n <= |units|
  {
    if Paired(units) then 2 else 1
  }

  function Lead1(p: Point): Byte requires p <= 0x7f { p as bv8 }

  function Lead2(p: Point): Byte requires p <= 0x7ff { (0xc0 | (p >> 6)) as bv8 }

  function Lead3(p: Point): Byte requires p <= 0xffff { (0xe0 | (p >> 12)) as bv8 }

  function Lead4(p: Point): Byte { (0xf0 | (p >> 18)) as bv8 }

  /** The six bits from bit `6 * k` on, marked as a continuation. */
  function Trail(p: Point, k: nat): Byte
    requires k <= 2
  {
    (0x80 | ((if k == 0 then p else if k == 1 then p >> 6 else p >> 12) & 0x3f)) as bv8
  }

  function EncodePoint(p: Point): (bytes: seq<Byte>)
    ensures 1 <= |bytes| <= 4
  {
    if p <= 0x7f then [Lead1(p)]
    else if p <= 0x7ff then [Lead2(p), Trail(p, 0)]
    else if p <= 0xffff then [Lead3(p), Trail(p, 1), Trail(p, 0)]
    else [Lead4(p), Trail(p, 2), Trail(p, 1), Trail(p, 0)]
  }

  function Encode(units: seq<Unit>): seq<Byte> {
    hide EncodePoint, FirstPoint;
    if units == [] then [] else EncodePoint(FirstPoint(units)) + Encode(units[FirstLength(units)..])
  }

  /** The bytes that the original appends for one code point. */
  method PushPoint(bytes: seq<Byte>, codePoint: Point) returns (r: seq<Byte>)
    ensures r == bytes + EncodePoint(codePoint)
  {
    hide Lead1, Lead2, Lead3, Lead4, Trail;
    if codePoint <= 0x7f {
      r := bytes + [Lead1(codePoint)];
    } else if codePoint <= 0x7ff {
      r := bytes + [Lead2(codePoint), Trail(codePoint, 0)];
    } else if codePoint <= 0xffff {
      r := bytes + [Lead3(codePoint), Trail(codePoint, 1), Trail(codePoint, 0)];
    } else {
      r := bytes + [Lead4(codePoint), Trail(codePoint, 2), Trail(codePoint, 1), Trail(codePoint, 0)];
    }
  }

  method ReadPoint(value: seq<Unit>, start: nat) returns (codePoint: Point, index: nat)
    requires start < |value|
    ensures codePoint == FirstPoint(value[start..]) && index == start + FirstLength(value[start..]) - 1
  {
    hide High, Low, PairPoint, Alone;
    index := start;
    var unit := value[index];
    codePoint := Alone(unit);
    if High(unit) && index + 1 < |value| {
      var next := value[index + 1];
      if Low(next) {
        codePoint := PairPoint(unit, next);
        index := index + 1;
      }
    }
  }

  /** The original's loop over the units. */
  method Utf8Bytes(value: seq<Unit>) returns (bytes: seq<Byte>)
    ensures bytes == Encode(value)
  {
    hide EncodePoint, FirstPoint, Paired;
    bytes := [];
    var index := 0;
    while index < |value|
      invariant index <= |value|
      invariant bytes + Encode(value[index..]) == Encode(value)
    {
      ghost var rest, before := value[index..], bytes;
      var codePoint, last := ReadPoint(value, index);
      bytes := PushPoint(bytes, codePoint);
      index := last + 1;
      assert rest[FirstLength(rest)..] == value[index..];
      assert before + EncodePoint(codePoint) + Encode(value[index..]) == before +
        (EncodePoint(codePoint) + Encode(value[index..]));
    }
    assert value[index..] == [];
  }

  // ------------------------------------------------------------------ decoding

  /** The number of bytes that a first byte announces. */
  function Announced(first: Byte): (n: nat)
    ensures 1 <= n <= 4
  {
    if first < 0x80 then 1 else if first < 0xe0 then 2 else if first < 0xf0 then 3 else 4
  }

  /** The payload bits of two, three and four bytes, most significant first. */
  function Join2(b: Byte, c: Byte): bv32 {
    (((b & 0x1f) as bv32) << 6) | ((c & 0x3f) as bv32)
  }

  function Join3(b: Byte, c: Byte, d: Byte): bv32 {
    (((b & 0x0f) as bv32) << 12) | (((c & 0x3f) as bv32) << 6) | ((d & 0x3f) as bv32)
  }

  function Join4(b: Byte, c: Byte, d: Byte, e: Byte): bv32 {
    (((b & 0x07) as bv32) << 18) | (((c & 0x3f) as bv32) << 12) | (((d & 0x3f) as bv32) << 6) | ((e & 0x3f) as bv32)
  }

  function Single(b: Byte): bv32 { b as bv32 }

  /** The code point carried by one to four bytes. */
  function Payload(bytes: seq<Byte>): bv32
    requires bytes != [] && |bytes| == Announced(bytes[0])
  {
    if |bytes| == 1 then Single(bytes[0])
    else if |bytes| == 2 then Join2(bytes[0], bytes[1])
    else if |bytes| == 3 then Join3(bytes[0], bytes[1], bytes[2])
    else Join4(bytes[0], bytes[1], bytes[2], bytes[3])
  }

  function HighHalf(p: Point): Unit
    requires p > 0xffff
  {
    (0xd800 + ((p - 0x10000) >> 10)) as bv16
  }

  function LowHalf(p: Point): Unit
    requires p > 0xffff
  {
    (0xdc00 + ((p - 0x10000) & 0x3ff)) as bv16
  }

  function AloneUnit(p: Point): Unit
    requires p <= 0xffff
  {
    p as bv16
  }

  function PointUnits(p: Point): seq<Unit> {
    if p <= 0xffff then [AloneUnit(p)] else [HighHalf(p), LowHalf(p)]
  }

  function Decode(bytes: seq<Byte>): Option<seq<Unit>> {
    hide Payload, PointUnits;
    if bytes == [] then Some([])
    else if |bytes| < Announced(bytes[0]) then None
    else
      var n := Announced(bytes[0]);
      var p := Payload(bytes[..n]);
      if p > 0x10ffff then None
      else
        match Decode(bytes[n..])
        case None => None
        case Some(rest) => Some(PointUnits(p) + rest)
  }

  lemma OneByte(p: Point)
    requires p <= 0x7f
    ensures Announced(Lead1(p)) == 1 && Single(Lead1(p)) == p
  {
  }

  lemma TwoBytes(p: Point)
    requires 0x7f < p <= 0x7ff
    ensures Announced(Lead2(p)) == 2 && Join2(Lead2(p), Trail(p, 0)) == p
  {
  }

  lemma ThreeBytes(p: Point)
    requires 0x7ff < p <= 0xffff
    ensures Announced(Lead3(p)) == 3 && Join3(Lead3(p), Trail(p, 1), Trail(p, 0)) == p
  {
  }

  lemma FourBytes(p: Point)
    requires 0xffff < p
    ensures Announced(Lead4(p)) == 4 && Join4(Lead4(p), Trail(p, 2), Trail(p, 1), Trail(p, 0)) == p
  {
  }

  lemma PointRoundTrip(p: Point)
    ensures var bytes := EncodePoint(p); |bytes| == Announced(bytes[0]) && Payload(bytes) == p
  {
    hide Lead1, Lead2, Lead3, Lead4, Trail, Single, Join2, Join3, Join4, Announced;
    if p <= 0x7f {
      OneByte(p);
    } else if p <= 0x7ff {
      TwoBytes(p);
    } else if p <= 0xffff {
      ThreeBytes(p);
    } else {
      FourBytes(p);
    }
  }

  lemma PairSplits(high: Unit, low: Unit)
    requires High(high) && Low(low)
    ensures HighHalf(PairPoint(high, low)) == high && LowHalf(PairPoint(high, low)) == low
  {
  }

  lemma AloneKept(u: Unit)
    ensures AloneUnit(Alone(u)) == u
  {
  }

  lemma UnitsRoundTrip(units: seq<Unit>)
    requires units != []
    ensures PointUnits(FirstPoint(units)) == units[..FirstLength(units)]
  {
    hide PairPoint, HighHalf, LowHalf, Alone, AloneUnit, High, Low;
    if Paired(units) { PairSplits(units[0], units[1]); } else { AloneKept(units[0]); }
  }

  /** Every string, well formed or not, is recovered from its bytes. */
  lemma {:induction false} DecodeEncode(units: seq<Unit>)
    ensures Decode(Encode(units)) == Some(units)
    decreases |units|
  {
    hide EncodePoint, FirstPoint, FirstLength, Payload, PointUnits, Announced;
    if units != [] {
      var p, n := FirstPoint(units), FirstLength(units);
      var bytes, rest := EncodePoint(p), Encode(units[n..]);
      DecodeEncode(units[n..]);
      PointRoundTrip(p);
      UnitsRoundTrip(units);
      assert (bytes + rest)[..|bytes|] == bytes && (bytes + rest)[|bytes|..] == rest;
      assert (bytes + rest)[0] == bytes[0];
      assert units == units[..n] + units[n..];
    }
  }

  /** Two strings with the same bytes are the same string. */
  lemma EncodeInjective(a: seq<Unit>, b: seq<Unit>)
    requires Encode(a) == Encode(b)
    ensures a == b
  {
    hide Encode, Decode;
    DecodeEncode(a);
    DecodeEncode(b);
  }

  // ------------------------------------------------------------------ section 4 of RFC 3629

  predicate Tail(b: Byte) { 0x80 <= b <= 0xbf }

  /** One character of the grammar: UTF8-1 to UTF8-4. */
  predicate Utf8Char(b: seq<Byte>) {
    || (|b| == 1 && b[0] <= 0x7f)
    || (|b| == 2 && 0xc2 <= b[0] <= 0xdf && Tail(b[1]))
    || (|b| == 3 && b[0] == 0xe0 && 0xa0 <= b[1] <= 0xbf && Tail(b[2]))
    || (|b| == 3 && 0xe1 <= b[0] <= 0xec && Tail(b[1]) && Tail(b[2]))
    || (|b| == 3 && b[0] == 0xed && 0x80 <= b[1] <= 0x9f && Tail(b[2]))
    || (|b| == 3 && 0xee <= b[0] <= 0xef && Tail(b[1]) && Tail(b[2]))
    || (|b| == 4 && b[0] == 0xf0 && 0x90 <= b[1] <= 0xbf && Tail(b[2]) && Tail(b[3]))
    || (|b| == 4 && 0xf1 <= b[0] <= 0xf3 && Tail(b[1]) && Tail(b[2]) && Tail(b[3]))
    || (|b| == 4 && b[0] == 0xf4 && 0x80 <= b[1] <= 0x8f && Tail(b[2]) && Tail(b[3]))
  }

  /** A sequence of such characters. */
  ghost predicate IsUtf8(bytes: seq<Byte>)
    decreases |bytes|
  {
    bytes == [] || exists n :: 1 <= n <= |bytes| && Utf8Char(bytes[..n]) && IsUtf8(bytes[n..])
  }

  /** UTF-16 in which every surrogate has its partner. */
  predicate WellFormed(units: seq<Unit>) {
    units == [] || ((Paired(units) || !(High(units[0]) || Low(units[0]))) && WellFormed(units[FirstLength(units)..]))
  }

  predicate Surrogate(p: Point) { 0xd800 <= p <= 0xdfff }

  /** The grammar accepts the bytes of exactly the scalar values. */
  lemma CharIffScalar(p: Point)
    ensures Utf8Char(EncodePoint(p)) <==> !Surrogate(p)
  {
  }

  lemma CharLength(b: seq<Byte>)
    requires Utf8Char(b)
    ensures |b| == Announced(b[0])
  {
  }

  lemma UnitIsSurrogate(u: Unit)
    ensures Surrogate(Alone(u)) <==> High(u) || Low(u)
  {
  }

  lemma FirstIsSurrogate(units: seq<Unit>)
    requires units != []
    ensures Surrogate(FirstPoint(units)) <==> !Paired(units) && (High(units[0]) || Low(units[0]))
  {
    UnitIsSurrogate(units[0]);
    hide PairPoint, Alone, High, Low;
  }

  /** What is hashed is UTF-8 exactly when the string is well-formed UTF-16. */
  lemma {:induction false} EncodesUtf8Iff(units: seq<Unit>)
    ensures IsUtf8(Encode(units)) <==> WellFormed(units)
    decreases |units|
  {
    hide EncodePoint, FirstPoint, FirstLength, Paired, Surrogate, Utf8Char, Announced, High, Low;
    if units != [] {
      var p, m := FirstPoint(units), FirstLength(units);
      var e, rest := EncodePoint(p), Encode(units[m..]);
      var bytes := Encode(units);
      EncodesUtf8Iff(units[m..]);
      CharIffScalar(p);
      FirstIsSurrogate(units);
      PointRoundTrip(p);
      assert bytes == e + rest && bytes[0] == e[0];
      assert bytes[..|e|] == e && bytes[|e|..] == rest;
      if IsUtf8(bytes) {
        var n :| 1 <= n <= |bytes| && Utf8Char(bytes[..n]) && IsUtf8(bytes[n..]);
        CharLength(bytes[..n]);
        assert n == |e|;
      }
    }
  }
}
