/**
 * The JavaScript string operations the server relies on, on `seq<char>`:
 * `toLowerCase` (ASCII letters only), `trim`, `includes`, `startsWith`,
 * `Array.prototype.join`, the decimal rendering of a non-negative integer
 * and the UTF-16 code units that `charCodeAt` reads. A `char` is a Unicode
 * scalar value, so a string here is a sequence of code points.
 */
module Strings {

  /** ASCII lowercasing of one character; every other character is kept. */
  function LowerChar(c: char): char {
    if 'A' <= c <= 'Z' then (c as int + 32) as char else c
  }

  /** The upper-case partner of a lower-case ASCII letter. */
  function UpperChar(c: char): char
    requires 'a' <= c <= 'z'
  {
    (c as int - 32) as char
  }

  /** `s.toLowerCase()`, restricted to ASCII letters. */
  function Lower(s: string): (r: string)
    ensures |r| == |s|
    ensures forall i :: 0 <= i < |s| ==> r[i] == LowerChar(s[i])
  {
    seq(|s|, i requires 0 <= i < |s| => LowerChar(s[i]))
  }

  /** Lowercasing works character by character, so it distributes over concatenation. */
  lemma LowerAppend(a: string, b: string)
    ensures Lower(a + b) == Lower(a) + Lower(b)
  {
    assert forall i :: 0 <= i < |a + b| ==> Lower(a + b)[i] == (Lower(a) + Lower(b))[i];
  }

  /** A string without upper-case ASCII letters is its own lower-case form. */
  lemma LowerWithoutUpper(s: string)
    requires forall i :: 0 <= i < |s| ==> !('A' <= s[i] <= 'Z')
    ensures Lower(s) == s
  {
  }

  /** A lower-case letter occurs in `Lower(s)` exactly when it, or its upper-case form, occurs in `s`. */
  lemma InLower(s: string, x: char)
    requires 'a' <= x <= 'z'
    ensures x in Lower(s) <==> x in s || UpperChar(x) in s
  {
    if x in Lower(s) {
      var i :| 0 <= i < |s| && Lower(s)[i] == x;
      assert s[i] == x || s[i] == UpperChar(x);
    }
    if x in s {
      var i :| 0 <= i < |s| && s[i] == x;
      assert Lower(s)[i] == x;
    }
    if UpperChar(x) in s {
      var i :| 0 <= i < |s| && s[i] == UpperChar(x);
      assert Lower(s)[i] == x;
    }
  }

  /**
   * The characters JavaScript's `trim` removes and `\s` matches: the
   * WhiteSpace and LineTerminator productions of ECMAScript.
   */
  predicate IsJsSpace(c: char) {
    || c == ' ' || c == '\t' || c == '\n' || c == '\U{000B}' || c == '\U{000C}' || c == '\r'
    || c == '\U{00A0}' || c == '\U{1680}' || ('\U{2000}' <= c <= '\U{200A}')
    || c == '\U{2028}' || c == '\U{2029}' || c == '\U{202F}' || c == '\U{205F}'
    || c == '\U{3000}' || c == '\U{FEFF}'
  }

  predicate AllSpace(s: string) {
    forall i :: 0 <= i < |s| ==> IsJsSpace(s[i])
  }

  /** Every character of `s` at a position in [lo, hi) is white space. */
  predicate SpaceBetween(s: string, lo: nat, hi: nat)
    requires lo <= hi <= |s|
  {
    forall i :: lo <= i < hi ==> IsJsSpace(s[i])
  }

  /** Drops the leading white space: the result is the suffix of `s` after a run of white space. */
  function TrimStart(s: string): (r: string)
    ensures |r| <= |s| && r == s[|s| - |r|..]
    ensures SpaceBetween(s, 0, |s| - |r|)
    ensures r != [] ==> !IsJsSpace(r[0])
    decreases |s|
  {
    if s != [] && IsJsSpace(s[0]) then
      var r := TrimStart(s[1..]);
      assert forall i :: 1 <= i < |s| ==> s[i] == s[1..][i - 1];
      r
    else
      s
  }

  /** Drops the trailing white space: the result is the prefix of `s` before a run of white space. */
  function TrimEnd(s: string): (r: string)
    ensures |r| <= |s| && r == s[..|r|]
    ensures SpaceBetween(s, |r|, |s|)
    ensures r != [] ==> !IsJsSpace(r[|r| - 1])
    decreases |s|
  {
    if s != [] && IsJsSpace(s[|s| - 1]) then
      var r := TrimEnd(s[..|s| - 1]);
      assert forall i :: 0 <= i < |s| - 1 ==> s[i] == s[..|s| - 1][i];
      r
    else
      s
  }

  /**
   * `r` is what `trim` leaves of `s`: a contiguous piece of `s` with only white
   * space around it, which neither starts nor ends with white space; it is
   * empty exactly when `s` is all white space.
   */
  predicate TrimmedFrom(s: string, r: string) {
    && (exists a :: 0 <= a <= |s| - |r| && r == s[a..a + |r|]
                   && SpaceBetween(s, 0, a) && SpaceBetween(s, a + |r|, |s|))
    && (r != [] ==> !IsJsSpace(r[0]) && !IsJsSpace(r[|r| - 1]))
    && (r == [] <==> AllSpace(s))
  }

  /** `s.trim()`. */
  function Trim(s: string): (r: string)
    ensures TrimmedFrom(s, r)
  {
    var t := TrimStart(s);
    var r := TrimEnd(t);
    TrimPieces(s, t, r);
    r
  }

  /** Cutting white space off the front and then off the back leaves a slice with white space around it. */
  lemma TrimPieces(s: string, t: string, r: string)
    requires |t| <= |s| && t == s[|s| - |t|..] && SpaceBetween(s, 0, |s| - |t|) && (t != [] ==> !IsJsSpace(t[0]))
    requires |r| <= |t| && r == t[..|r|] && SpaceBetween(t, |r|, |t|) && (r != [] ==> !IsJsSpace(r[|r| - 1]))
    ensures TrimmedFrom(s, r)
  {
    var a := |s| - |t|;
    assert forall i :: a <= i < |s| ==> s[i] == t[i - a];
    assert r == s[a..a + |r|];
    assert SpaceBetween(s, a + |r|, |s|);
    if r != [] {
      assert r[0] == t[0] == s[a];
    }
  }

  /** A string that neither starts nor ends with white space is its own trim. */
  lemma TrimOfUntrimmed(s: string)
    requires s != [] && !IsJsSpace(s[0]) && !IsJsSpace(s[|s| - 1])
    ensures Trim(s) == s
  {
    assert TrimStart(s) == s;
    assert TrimEnd(s) == s;
  }

  /** `s.startsWith(t)`. */
  predicate StartsWith(s: string, t: string) {
    |t| <= |s| && s[..|t|] == t
  }

  /** `s.includes(t)`: `t` occurs in `s` at some position. */
  predicate Contains(s: string, t: string) {
    exists i :: 0 <= i <= |s| && StartsWith(s[i..], t)
  }

  /** `lower.includes(w)` for some word `w` of the list. */
  predicate Mentions(lower: string, words: seq<string>) {
    exists w :: w in words && Contains(lower, w)
  }

  /** A witness position for `Contains`. */
  lemma ContainsAt(s: string, t: string, i: nat)
    requires i + |t| <= |s| && s[i..i + |t|] == t
    ensures Contains(s, t)
  {
    assert StartsWith(s[i..], t);
  }

  lemma ContainsLength(s: string, t: string)
    requires Contains(s, t)
    ensures |t| <= |s|
  {
  }

  /** Every character of an occurring string occurs. */
  lemma ContainsChar(s: string, t: string, j: nat)
    requires Contains(s, t) && j < |t|
    ensures t[j] in s
  {
    var i :| 0 <= i <= |s| && StartsWith(s[i..], t);
    assert s[i + j] == t[j];
  }

  /** An occurrence stays an occurrence when text is added on either side. */
  lemma ContainsWithin(pre: string, s: string, post: string, t: string)
    requires Contains(s, t)
    ensures Contains(pre + s + post, t)
  {
    var i :| 0 <= i <= |s| && StartsWith(s[i..], t);
    var whole := pre + s + post;
    assert whole[|pre| + i..|pre| + i + |t|] == s[i..i + |t|];
    ContainsAt(whole, t, |pre| + i);
  }

  /** A string occurs in any string built around it. */
  lemma ContainsPart(pre: string, t: string, post: string)
    ensures Contains(pre + t + post, t)
  {
    assert (pre + t + post)[|pre|..|pre| + |t|] == t;
    ContainsAt(pre + t + post, t, |pre|);
  }

  /** Both strings occur in any string built around them. */
  lemma ContainsBoth(a: string, x: string, b: string, y: string, c: string)
    ensures Contains(a + x + b + y + c, x) && Contains(a + x + b + y + c, y)
  {
    ContainsPart(a, x, b + y + c);
    assert a + x + (b + y + c) == a + x + b + y + c;
    ContainsPart(a + x + b, y, c);
  }

  /** An occurrence inside an occurrence is an occurrence. */
  lemma ContainsTrans(s: string, u: string, t: string)
    requires Contains(s, u) && Contains(u, t)
    ensures Contains(s, t)
  {
    var i :| 0 <= i <= |s| && StartsWith(s[i..], u);
    var k :| 0 <= k <= |u| && StartsWith(u[k..], t);
    assert s[i..i + |u|] == u;
    assert u[k..k + |t|] == t;
    assert forall j :: 0 <= j < |t| ==> s[i + k + j] == u[k + j] == t[j];
    assert s[i + k..i + k + |t|] == t;
    ContainsAt(s, t, i + k);
  }

  /** A string cannot occur where its first character does not. */
  lemma NotContainsWithoutHead(s: string, t: string)
    requires t != [] && t[0] !in s
    ensures !Contains(s, t)
  {
  }

  /** An occurrence of `t` in `a + b` lies in `b` when `a` lacks `t`'s first character. */
  lemma ContainsSkip(a: string, b: string, t: string)
    requires t != [] && t[0] !in a
    ensures Contains(a + b, t) ==> Contains(b, t)
  {
    if Contains(a + b, t) {
      var i :| 0 <= i <= |a + b| && StartsWith((a + b)[i..], t);
      if i >= |a| {
        assert (a + b)[i..] == b[i - |a|..];
      }
    }
  }

  /** An occurrence of `t` in `[c] + b` is at the front or in `b`. */
  lemma ContainsCons(c: char, b: string, t: string)
    ensures Contains([c] + b, t) ==> StartsWith([c] + b, t) || Contains(b, t)
  {
    if Contains([c] + b, t) {
      var i :| 0 <= i <= |[c] + b| && StartsWith(([c] + b)[i..], t);
      if i > 0 {
        assert ([c] + b)[i..] == b[i - 1..];
      }
    }
  }

  /** `parts.join(sep)`. */
  function Join(parts: seq<string>, sep: string): string {
    if |parts| == 0 then ""
    else if |parts| == 1 then parts[0]
    else parts[0] + sep + Join(parts[1..], sep)
  }

  /** Every part occurs in the joined string. */
  lemma {:induction false} JoinContains(parts: seq<string>, sep: string, i: nat)
    requires i < |parts|
    ensures Contains(Join(parts, sep), parts[i])
  {
    if |parts| == 1 || i == 0 {
      var j := Join(parts, sep);
      assert j[..|parts[0]|] == parts[0];
      ContainsAt(j, parts[0], 0);
    } else {
      JoinContains(parts[1..], sep, i - 1);
      ContainsWithin(parts[0] + sep, Join(parts[1..], sep), "", parts[i]);
      assert parts[0] + sep + Join(parts[1..], sep) + "" == Join(parts, sep);
    }
  }

  function DigitChar(d: nat): char
    requires d < 10
  {
    "0123456789"[d]
  }

  /** The decimal rendering JavaScript gives a non-negative integer. */
  function NatToString(n: nat): (r: string)
    ensures r != []
    ensures forall i :: 0 <= i < |r| ==> '0' <= r[i] <= '9'
  {
    if n < 10 then [DigitChar(n)] else NatToString(n / 10) + [DigitChar(n % 10)]
  }

  /** The UTF-16 code units of one character: itself below U+10000, a surrogate pair above. */
  function CharUnits(c: char): (u: seq<nat>)
    ensures c as int < 0x1_0000 ==> u == [c as nat]
    ensures c as int >= 0x1_0000 ==>
      && |u| == 2 && 0xD800 <= u[0] < 0xDC00 && 0xDC00 <= u[1] < 0xE000
      && 0x1_0000 + (u[0] - 0xD800) * 0x400 + (u[1] - 0xDC00) == c as int
  {
    var v := c as int;
    if v < 0x1_0000 then [v as nat]
    else [0xD800 + (v - 0x1_0000) / 0x400, 0xDC00 + (v - 0x1_0000) % 0x400]
  }

  /** The string as JavaScript holds it: the code units of its characters, in order. */
  function Utf16(s: string): (u: seq<nat>)
    ensures |u| >= |s|
    ensures forall k :: 0 <= k < |u| ==> u[k] < 0x1_0000
    ensures (forall i :: 0 <= i < |s| ==> s[i] as int < 0x1_0000) ==>
      |u| == |s| && forall i :: 0 <= i < |s| ==> u[i] == s[i] as nat
  {
    if s == [] then [] else CharUnits(s[0]) + Utf16(s[1..])
  }

  /** A character beyond the Basic Multilingual Plane is two code units: U+1F600 is 0xD83D 0xDE00. */
  lemma AstralCharIsPair()
    ensures Utf16("\U{1F600}") == [0xD83D, 0xDE00]
  {
    assert "\U{1F600}"[1..] == [];
  }
}
