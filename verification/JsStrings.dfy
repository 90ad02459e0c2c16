/** The ECMAScript string operations that the keyed stores and the policy file rely on. */
module JsStrings {
  import opened Basics

  /** White space and line terminators, as removed by `String.prototype.trim`. */
  predicate IsSpace(c: char) {
    || c == ' ' || '\t' <= c <= '\r'
    || c == '\U{A0}' || c == '\U{FEFF}' || c == '\U{1680}' || '\U{2000}' <= c <= '\U{200A}'
    || c == '\U{2028}' || c == '\U{2029}' || c == '\U{202F}' || c == '\U{205F}' || c == '\U{3000}'
  }

  /** The code points of section 12.2 and 12.3 of ECMA-262: white space and line terminators. */
  lemma IsSpaceIff(c: char)
    ensures IsSpace(c) <==>
            (c as int) in {0x09, 0x0a, 0x0b, 0x0c, 0x0d, 0x20, 0xa0, 0x1680, 0x2028, 0x2029, 0x202f, 0x205f, 0x3000,
                           0xfeff} || 0x2000 <= c as int <= 0x200a
  {
  }

  function TrimStart(s: string): string {
    if s != [] && IsSpace(s[0]) then TrimStart(s[1..]) else s
  }

  function TrimEnd(s: string): string {
    if s != [] && IsSpace(s[|s| - 1]) then TrimEnd(s[..|s| - 1]) else s
  }

  function Trim(s: string): string {
    TrimEnd(TrimStart(s))
  }

  lemma {:induction false} TrimStartSpec(s: string)
    ensures var r := TrimStart(s); |r| <= |s| && s[|s| - |r|..] == r && (r != [] ==> !IsSpace(r[0]))
  {
    hide IsSpace;
    if s != [] && IsSpace(s[0]) { TrimStartSpec(s[1..]); }
  }

  lemma {:induction false} TrimEndSpec(s: string)
    ensures var r := TrimEnd(s); |r| <= |s| && s[..|r|] == r && (r != [] ==> !IsSpace(r[|r| - 1]))
  {
    hide IsSpace;
    if s != [] && IsSpace(s[|s| - 1]) { TrimEndSpec(s[..|s| - 1]); }
  }

  /** Trimming leaves no space at either end, and a text without them as it is. */
  lemma TrimSpec(s: string)
    ensures var r := Trim(s);
      && |r| <= |s| && (r != [] ==> !IsSpace(r[0]) && !IsSpace(r[|r| - 1]))
      && (s != [] && !IsSpace(s[0]) && !IsSpace(s[|s| - 1]) ==> r == s)
  {
    hide IsSpace;
    TrimStartSpec(s);
    TrimEndSpec(TrimStart(s));
  }

  lemma {:induction false} TrimStartCut(s: string)
    ensures var r := TrimStart(s); |r| <= |s| && r == s[|s| - |r|..] && forall c :: c in s[..|s| - |r|] ==> IsSpace(c)
  {
    hide IsSpace;
    if s != [] && IsSpace(s[0]) {
      TrimStartCut(s[1..]);
      var n := |s| - |TrimStart(s)|;
      assert s[..n] == [s[0]] + s[1..][..n - 1];
    }
  }

  lemma {:induction false} TrimEndCut(s: string)
    ensures var r := TrimEnd(s); |r| <= |s| && r == s[..|r|] && forall c :: c in s[|r|..] ==> IsSpace(c)
  {
    hide IsSpace;
    if s != [] && IsSpace(s[|s| - 1]) {
      TrimEndCut(s[..|s| - 1]);
      var n := |TrimEnd(s)|;
      assert s[n..] == s[..|s| - 1][n..] + [s[|s| - 1]];
    }
  }

  /** `r` is `s` without the white space `before` it and `after` it. */
  ghost predicate CutTo(s: string, before: string, r: string, after: string) {
    s == before + r + after && (forall c :: c in before ==> IsSpace(c)) && (forall c :: c in after ==> IsSpace(c))
  }

  /** Trimming takes white space off both ends, as much as there is, and nothing else. */
  lemma TrimSplits(s: string)
    ensures exists before, after :: CutTo(s, before, Trim(s), after)
    ensures Trim(s) != [] ==> !IsSpace(Trim(s)[0]) && !IsSpace(Trim(s)[|Trim(s)| - 1])
  {
    var t := TrimStart(s);
    var r := TrimEnd(t);
    assert Trim(s) == r;
    hide IsSpace, Trim, TrimStart, TrimEnd;
    TrimSpec(s);
    TrimStartCut(s);
    TrimEndCut(t);
    Recut(s, |s| - |t|, t, r);
  }

  lemma Recut(s: string, n: nat, t: string, r: string)
    requires n <= |s| && t == s[n..] && |r| <= |t| && r == t[..|r|]
    requires (forall c :: c in s[..n] ==> IsSpace(c)) && (forall c :: c in t[|r|..] ==> IsSpace(c))
    ensures CutTo(s, s[..n], r, t[|r|..])
  {
    hide IsSpace;
    assert s == s[..n] + t && t == r + t[|r|..];
  }

  /** Trimming leaves nothing exactly of a text of white space. */
  lemma BlankIff(s: string)
    ensures Trim(s) == "" <==> forall c :: c in s ==> IsSpace(c)
  {
    TrimSplits(s);
    hide Trim, IsSpace;
  }

  function Take(s: string, n: nat): string {
    if |s| <= n then s else s[..n]
  }

  /** The characters that survive in a storage file name. */
  predicate IsKeyChar(c: char) {
    'A' <= c <= 'Z' || 'a' <= c <= 'z' || '0' <= c <= '9' || c == '_' || c == '.' || c == '-'
  }

  /** Every UTF-16 unit outside the safe set becomes one underscore. */
  function KeyChars(s: string): string {
    if s == [] then []
    else if IsKeyChar(s[0]) then [s[0]] + KeyChars(s[1..])
    else (if s[0] <= '\U{FFFF}' then "_" else "__") + KeyChars(s[1..])
  }

  ghost predicate AllKeyChars(s: string) {
    forall c :: c in s ==> IsKeyChar(c)
  }

  lemma {:induction false} KeyCharsSpec(s: string)
    ensures AllKeyChars(KeyChars(s)) && (AllKeyChars(s) ==> KeyChars(s) == s)
  {
    if s != [] {
      KeyCharsSpec(s[1..]);
      assert s == [s[0]] + s[1..];
    }
  }

  /** The storage key of an id; an id with no character left makes the original throw. */
  function SafeId(id: string): Option<string> {
    var normalized := Take(KeyChars(Trim(id)), 120);
    if normalized == [] then None else Some(normalized)
  }

  /** The character that stands for `c` in a storage key. */
  ghost predicate StandsFor(k: char, c: char) {
    if 'A' <= c <= 'Z' || 'a' <= c <= 'z' || '0' <= c <= '9' || c == '_' || c == '.' || c == '-' then k == c
    else k == '_'
  }

  lemma {:induction false} KeyCharsAt(s: string)
    requires forall c :: c in s ==> c <= '\U{FFFF}'
    ensures |KeyChars(s)| == |s| && forall j :: 0 <= j < |s| ==> StandsFor(KeyChars(s)[j], s[j])
  {
    if s != [] {
      assert s == [s[0]] + s[1..];
      assert s[0] in s && forall c :: c in s[1..] ==> c in s;
      KeyCharsAt(s[1..]);
    }
  }

  /** A storage key is the trimmed id with all other characters replaced by underscores, cut to a hundred and twenty. */
  lemma SafeIdMeaning(id: string)
    requires forall c :: c in id ==> c <= '\U{FFFF}'
    ensures SafeId(id).None? <==> Trim(id) == ""
    ensures SafeId(id).Some? ==>
              var k := SafeId(id).value;
              && |k| == (if |Trim(id)| < 120 then |Trim(id)| else 120)
              && forall j :: 0 <= j < |k| ==> StandsFor(k[j], Trim(id)[j])
  {
    TrimSplits(id);
    var before, after :| CutTo(id, before, Trim(id), after);
    assert forall c :: c in Trim(id) ==> c in id;
    KeyCharsAt(Trim(id));
    hide KeyChars, Trim, CutTo, StandsFor;
  }

  lemma KeysAreSafe(id: string)
    ensures SafeId(id).Some? ==> 0 < |SafeId(id).value| <= 120 && AllKeyChars(SafeId(id).value)
  {
    hide Trim, KeyChars;
    KeyCharsSpec(Trim(id));
  }

  lemma KeyCharIsNoSpace(c: char)
    requires IsKeyChar(c)
    ensures !IsSpace(c)
  {
  }

  /** An id keeps its own name exactly when it is short, non-empty and made of safe characters. */
  lemma SafeIdFixpoint(id: string)
    ensures SafeId(id) == Some(id) <==> 0 < |id| <= 120 && forall c :: c in id ==> IsKeyChar(c)
  {
    hide Trim, KeyChars, IsSpace, IsKeyChar;
    KeysAreSafe(id);
    if 0 < |id| <= 120 && forall c :: c in id ==> IsKeyChar(c) {
      KeyCharIsNoSpace(id[0]);
      KeyCharIsNoSpace(id[|id| - 1]);
      TrimSpec(id);
      KeyCharsSpec(id);
    }
  }

  /** A storage key is its own storage key, so reading back by key finds the stored record. */
  lemma SafeIdIdempotent(id: string)
    requires SafeId(id).Some?
    ensures SafeId(SafeId(id).value) == SafeId(id)
  {
    hide SafeId;
    KeysAreSafe(id);
    SafeIdFixpoint(SafeId(id).value);
  }

  /** Code-unit order, as used by `Array.prototype.sort` on file names. */
  predicate LexLeq(a: string, b: string) {
    if a == [] then true
    else if b == [] then false
    else a[0] < b[0] || (a[0] == b[0] && LexLeq(a[1..], b[1..]))
  }

  /** `b` is greater at unit `n`, the first in which the two differ. */
  predicate SmallerAt(a: string, b: string, n: nat) {
    n < |a| && n < |b| && a[..n] == b[..n] && a[n] < b[n]
  }

  /** `a` comes first when it is a beginning of `b`, or smaller at the first unit in which they differ. */
  ghost predicate ComesFirst(a: string, b: string) {
    a <= b || exists n: nat :: SmallerAt(a, b, n)
  }

  lemma SmallerBehind(a: string, b: string, n: nat)
    requires a != [] && b != [] && a[0] == b[0]
    ensures SmallerAt(a, b, n + 1) <==> SmallerAt(a[1..], b[1..], n)
  {
    if n < |a| - 1 && n < |b| - 1 {
      assert a[..n + 1] == [a[0]] + a[1..][..n] && b[..n + 1] == [b[0]] + b[1..][..n];
      assert a[1..][..n] == a[..n + 1][1..] && b[1..][..n] == b[..n + 1][1..];
    }
  }

  lemma NotSmallerBehind(a: string, b: string, n: nat)
    requires a != [] && b != [] && a[0] != b[0]
    ensures SmallerAt(a, b, n) <==> n == 0 && a[0] < b[0]
  {
    if 0 < n < |a| && n < |b| { assert a[..n][0] == a[0] && b[..n][0] == b[0]; }
  }

  lemma {:induction false} LexLeqIff(a: string, b: string)
    ensures LexLeq(a, b) <==> ComesFirst(a, b)
  {
    if a != [] && b != [] && a[0] == b[0] {
      LexLeqIff(a[1..], b[1..]);
      SameBeginning(a, b);
      if n: nat :| SmallerAt(a, b, n) { SmallerBehind(a, b, n - 1); }
      if n: nat :| SmallerAt(a[1..], b[1..], n) { SmallerBehind(a, b, n); }
    } else if a != [] && b != [] {
      forall n: nat ensures SmallerAt(a, b, n) <==> n == 0 && a[0] < b[0] { NotSmallerBehind(a, b, n); }
      assert SmallerAt(a, b, 0) <==> a[0] < b[0];
    }
  }

  lemma SameBeginning(a: string, b: string)
    requires a != [] && b != [] && a[0] == b[0]
    ensures a <= b <==> a[1..] <= b[1..]
  {
  }

  lemma {:induction false} LexTotal(a: string, b: string)
    ensures LexLeq(a, b) || LexLeq(b, a)
  {
    if a != [] && b != [] { LexTotal(a[1..], b[1..]); }
  }

  lemma {:induction false} LexTransitive(a: string, b: string, c: string)
    requires LexLeq(a, b) && LexLeq(b, c)
    ensures LexLeq(a, c)
  {
    if a != [] && a[0] == b[0] == c[0] { LexTransitive(a[1..], b[1..], c[1..]); }
  }

  lemma {:induction false} LexAntisymmetric(a: string, b: string)
    requires LexLeq(a, b) && LexLeq(b, a)
    ensures a == b
  {
    if a != [] {
      LexAntisymmetric(a[1..], b[1..]);
      assert a == [a[0]] + a[1..] && b == [b[0]] + b[1..];
    }
  }

  /** A non-empty set of file names has a first one. */
  lemma {:induction false} FirstExists(names: set<string>)
    requires names != {}
    ensures exists n :: n in names && forall o :: o in names ==> LexLeq(n, o)
    decreases |names|
  {
    var x :| x in names;
    var rest := names - {x};
    if rest == {} {
      LexTotal(x, x);
      assert forall o :: o in names ==> o == x || o in rest;
    } else {
      FirstExists(rest);
      var n :| n in rest && forall o :: o in rest ==> LexLeq(n, o);
      LexTotal(x, n);
      var best := if LexLeq(x, n) then x else n;
      forall o | o in names
        ensures LexLeq(best, o)
      {
        LexTotal(x, x);
        if o != x && LexLeq(x, n) { LexTransitive(x, n, o); }
      }
      assert best in names;
    }
  }
}
