/** The JavaScript string operations the schemas rely on: `trim`,
    `toUpperCase` and `Array.prototype.join`. */
module Strings {

  /** ECMAScript WhiteSpace and LineTerminator code points: the characters
      `String.prototype.trim` removes. */
  predicate IsWhiteSpace(c: char) {
    var n := c as int;
    || 0x09 <= n <= 0x0D
    || n == 0x20 || n == 0xA0 || n == 0x1680
    || 0x2000 <= n <= 0x200A
    || n == 0x2028 || n == 0x2029 || n == 0x202F || n == 0x205F
    || n == 0x3000 || n == 0xFEFF
  }

  /** Every character of `s` is white space (the empty string included). */
  predicate IsBlank(s: string) {
    forall i :: 0 <= i < |s| ==> IsWhiteSpace(s[i])
  }

  /** Neither end of `s` is white space: what `trim` leaves behind. */
  predicate IsTrimmed(s: string) {
    s == [] || (!IsWhiteSpace(s[0]) && !IsWhiteSpace(s[|s| - 1]))
  }

  function TrimStart(s: string): string {
    if |s| > 0 && IsWhiteSpace(s[0]) then TrimStart(s[1..]) else s
  }

  function TrimEnd(s: string): string {
    if |s| > 0 && IsWhiteSpace(s[|s| - 1]) then TrimEnd(s[..|s| - 1]) else s
  }

  /** `s.trim()` */
  function Trim(s: string): string {
    TrimEnd(TrimStart(s))
  }

  /** `toUpperCase` on one character, for the ASCII letters. */
  function UpperChar(c: char): (u: char)
    ensures IsWhiteSpace(u) <==> IsWhiteSpace(c)
    ensures 'a' <= c <= 'z' ==> u as int == c as int - 32
    ensures !('a' <= c <= 'z') ==> u == c
  {
    if 'a' <= c <= 'z' then (c as int - 32) as char else c
  }

  /** `s.toUpperCase()` */
  function ToUpper(s: string): (r: string)
    ensures |r| == |s|
    ensures forall i :: 0 <= i < |s| ==> r[i] == UpperChar(s[i])
  {
    seq(|s|, i requires 0 <= i < |s| => UpperChar(s[i]))
  }

  /** `parts.join(sep)` */
  function Join(parts: seq<string>, sep: string): string
    decreases |parts|
  {
    if |parts| == 0 then ""
    else if |parts| == 1 then parts[0]
    else parts[0] + sep + Join(parts[1..], sep)
  }

  /** TrimStart drops exactly a blank prefix, of length k, and stops at a
      non-blank character. */
  lemma {:induction false} TrimStartSplits(s: string) returns (k: nat)
    ensures k <= |s| && IsBlank(s[..k]) && TrimStart(s) == s[k..]
    ensures TrimStart(s) == [] || !IsWhiteSpace(TrimStart(s)[0])
    decreases |s|
  {
    if |s| > 0 && IsWhiteSpace(s[0]) {
      var t := s[1..];
      assert TrimStart(s) == TrimStart(t);
      var j := TrimStartSplits(t);
      assert s[..j + 1] == [s[0]] + t[..j];
      BlankCons(s[0], t[..j]);
      assert t[j..] == s[j + 1..];
      k := j + 1;
    } else {
      assert s[..0] == [];
      assert TrimStart(s) == s[0..];
      k := 0;
    }
  }

  /** TrimEnd keeps exactly a prefix of length k, drops a blank suffix, and
      stops at a non-blank character. */
  lemma {:induction false} TrimEndSplits(s: string) returns (k: nat)
    ensures k <= |s| && IsBlank(s[k..]) && TrimEnd(s) == s[..k]
    ensures TrimEnd(s) == [] || !IsWhiteSpace(TrimEnd(s)[|TrimEnd(s)| - 1])
    decreases |s|
  {
    if |s| > 0 && IsWhiteSpace(s[|s| - 1]) {
      var t := s[..|s| - 1];
      assert TrimEnd(s) == TrimEnd(t);
      k := TrimEndSplits(t);
      assert s[k..] == t[k..] + [s[|s| - 1]];
      BlankSnoc(t[k..], s[|s| - 1]);
      assert t[..k] == s[..k];
    } else {
      assert s[|s|..] == [];
      assert TrimEnd(s) == s[..|s|];
      k := |s|;
    }
  }

  lemma BlankCons(c: char, a: string)
    requires IsWhiteSpace(c) && IsBlank(a)
    ensures IsBlank([c] + a)
  {
    assert forall i :: 0 < i <= |a| ==> ([c] + a)[i] == a[i - 1];
  }

  lemma BlankSnoc(a: string, c: char)
    requires IsBlank(a) && IsWhiteSpace(c)
    ensures IsBlank(a + [c])
  {
    assert forall i :: 0 <= i < |a| ==> (a + [c])[i] == a[i];
  }

  /** A string that does not start with white space keeps its first
      character through TrimEnd, unless TrimEnd empties it. */
  lemma TrimEndKeepsFirst(s: string)
    requires s != [] && !IsWhiteSpace(s[0])
    ensures TrimEnd(s) != [] && TrimEnd(s)[0] == s[0]
  {
    var k := TrimEndSplits(s);
  }

  /** `trim` leaves no white space at either end. */
  lemma TrimIsTrimmed(s: string)
    ensures IsTrimmed(Trim(s))
  {
    var k := TrimStartSplits(s);
    var j := TrimEndSplits(TrimStart(s));
    if TrimStart(s) != [] {
      TrimEndKeepsFirst(TrimStart(s));
    }
  }

  /** `trim` returns a trimmed string unchanged. */
  lemma {:induction false} TrimOfTrimmed(s: string)
    requires IsTrimmed(s)
    ensures Trim(s) == s
  {
    assert TrimStart(s) == s;
    assert TrimEnd(s) == s;
  }

  /** `trim` is idempotent. */
  lemma TrimIdempotent(s: string)
    ensures Trim(Trim(s)) == Trim(s)
  {
    TrimIsTrimmed(s);
    TrimOfTrimmed(Trim(s));
  }

  /** `trim` yields the empty string exactly for blank input. */
  lemma {:induction false} TrimEmptyIffBlank(s: string)
    ensures Trim(s) == [] <==> IsBlank(s)
  {
    var k := TrimStartSplits(s);
    var j := TrimEndSplits(TrimStart(s));
    if IsBlank(s) {
      assert TrimStart(s) == [];
    }
    if Trim(s) == [] {
      assert j == 0;
      forall i | 0 <= i < |s| ensures IsWhiteSpace(s[i]) {
        assert s[..k][i] == s[i];
      }
    }
  }

  /** `trim` removes exactly a blank prefix `s[..i]` and a blank suffix
      `s[j..]`, and what it keeps, `s[i..j]`, has no white space at either
      end. */
  lemma TrimSplits(s: string) returns (i: nat, j: nat)
    ensures i <= j <= |s|
    ensures IsBlank(s[..i]) && IsBlank(s[j..])
    ensures Trim(s) == s[i..j] && IsTrimmed(s[i..j])
  {
    i := TrimStartSplits(s);
    var t := s[i..];
    var m := TrimEndSplits(t);
    j := i + m;
    assert t[m..] == s[j..];
    assert t[..m] == s[i..j];
    TrimIsTrimmed(s);
  }

  /** Upper-casing keeps a trimmed string trimmed (white space is not a letter). */
  lemma ToUpperKeepsTrimmed(s: string)
    requires IsTrimmed(s)
    ensures IsTrimmed(ToUpper(s))
  {
  }

  /** `toUpperCase` is idempotent. */
  lemma ToUpperIdempotent(s: string)
    ensures ToUpper(ToUpper(s)) == ToUpper(s)
  {
  }

  /** Trimming and then upper-casing gives a fixed point of that same
      normalisation: normalising twice is normalising once. */
  lemma NormaliseIdempotent(s: string)
    ensures ToUpper(Trim(ToUpper(Trim(s)))) == ToUpper(Trim(s))
  {
    TrimIsTrimmed(s);
    ToUpperKeepsTrimmed(Trim(s));
    TrimOfTrimmed(ToUpper(Trim(s)));
    ToUpperIdempotent(Trim(s));
  }

  /** A joined list of messages starts with its first message. */
  lemma JoinStartsWithFirst(parts: seq<string>, sep: string)
    requires |parts| > 0
    ensures parts[0] <= Join(parts, sep)
  {
  }

  /** Every part occurs in the joined string, at offset k: what a test that
      the joined messages contain one of them relies on. */
  lemma {:induction false} JoinContains(parts: seq<string>, sep: string, n: nat) returns (k: nat)
    requires n < |parts|
    ensures k + |parts[n]| <= |Join(parts, sep)|
    ensures Join(parts, sep)[k..k + |parts[n]|] == parts[n]
    decreases n
  {
    var joined := Join(parts, sep);
    if |parts| == 1 {
      k := 0;
      assert joined == parts[0];
    } else if n == 0 {
      k := 0;
      assert joined == parts[0] + (sep + Join(parts[1..], sep));
      assert joined[..|parts[0]|] == parts[0];
    } else {
      var rest := Join(parts[1..], sep);
      var k' := JoinContains(parts[1..], sep, n - 1);
      var prefix := parts[0] + sep;
      assert joined == prefix + rest;
      k := |prefix| + k';
      assert joined[k..k + |parts[n]|] == rest[k'..k' + |parts[n]|];
    }
  }
}
