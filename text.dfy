/**
 * String helpers with JavaScript semantics: `String.prototype.trim`, the
 * regular-expression class `\s`, prefixes and substring occurrence.
 * Characters are Unicode scalar values; every character class used by the
 * application lies in the Basic Multilingual Plane, so this agrees with
 * JavaScript's UTF-16 code units on those classes.
 */
module Text {

  /** ECMAScript WhiteSpace and LineTerminator: what `trim` removes and `\s` matches. */
  predicate IsWhitespace(c: char) {
    var n := c as int;
    (0x09 <= n <= 0x0D) || n == 0x20 || n == 0xA0 || n == 0x1680 ||
    (0x2000 <= n <= 0x200A) || n == 0x2028 || n == 0x2029 || n == 0x202F ||
    n == 0x205F || n == 0x3000 || n == 0xFEFF
  }

  predicate AllWhitespace(s: string) {
    forall i :: 0 <= i < |s| ==> IsWhitespace(s[i])
  }

  /** Neither end of `s` is whitespace. */
  predicate IsTrimmed(s: string) {
    |s| == 0 || (!IsWhitespace(s[0]) && !IsWhitespace(s[|s| - 1]))
  }

  predicate StartsWith(s: string, prefix: string) {
    |prefix| <= |s| && s[..|prefix|] == prefix
  }

  /** `pattern` occurs in `s` starting at position `i`. */
  predicate OccursAt(s: string, pattern: string, i: int) {
    0 <= i <= |s| - |pattern| && s[i..i + |pattern|] == pattern
  }

  /** `pattern` occurs in `s` at some position. */
  predicate Contains(s: string, pattern: string) {
    exists i :: 0 <= i <= |s| - |pattern| && OccursAt(s, pattern, i)
  }

  /** Number of whitespace characters at the start of `s`. */
  function LeadingWhitespace(s: string): (n: nat)
    ensures n <= |s|
    ensures forall i :: 0 <= i < n ==> IsWhitespace(s[i])
    ensures n < |s| ==> !IsWhitespace(s[n])
  {
    if s == [] || !IsWhitespace(s[0]) then 0 else 1 + LeadingWhitespace(s[1..])
  }

  /** Number of whitespace characters at the end of `s`. */
  function TrailingWhitespace(s: string): (n: nat)
    ensures n <= |s|
    ensures forall i :: |s| - n <= i < |s| ==> IsWhitespace(s[i])
    ensures n < |s| ==> !IsWhitespace(s[|s| - 1 - n])
  {
    if s == [] || !IsWhitespace(s[|s| - 1]) then 0 else 1 + TrailingWhitespace(s[..|s| - 1])
  }

  /** `s` without its leading whitespace (also what a trailing `\s*` of a regex consumes). */
  function TrimStart(s: string): (r: string)
    ensures |r| <= |s| && r == s[|s| - |r|..]
    ensures AllWhitespace(s[..|s| - |r|])
    ensures r == [] || !IsWhitespace(r[0])
  {
    s[LeadingWhitespace(s)..]
  }

  /** `String.prototype.trim`: `s` without whitespace at either end. */
  function Trim(s: string): (r: string)
    ensures IsTrimmed(r)
    ensures LeadingWhitespace(s) + |r| <= |s|
    ensures r == s[LeadingWhitespace(s)..LeadingWhitespace(s) + |r|]
    ensures forall i :: 0 <= i < |s| && !(LeadingWhitespace(s) <= i < LeadingWhitespace(s) + |r|) ==>
              IsWhitespace(s[i])
  {
    var t := TrimStart(s);
    t[..|t| - TrailingWhitespace(t)]
  }

  /** A string already trimmed is left alone, so `Trim` is idempotent. */
  lemma TrimOfTrimmed(s: string)
    requires IsTrimmed(s)
    ensures Trim(s) == s
  {
    assert LeadingWhitespace(s) == 0;
    assert TrimStart(s) == s;
    assert TrailingWhitespace(s) == 0;
  }

  /** `TrimStart` removes exactly a leading whitespace run. */
  lemma {:induction false} TrimStartOf(w: string, b: string)
    requires AllWhitespace(w) && (b == [] || !IsWhitespace(b[0]))
    ensures TrimStart(w + b) == b
    decreases |w|
  {
    if w == [] {
      assert w + b == b;
    } else {
      assert (w + b)[0] == w[0];
      assert (w + b)[1..] == w[1..] + b;
      TrimStartOf(w[1..], b);
      assert LeadingWhitespace(w + b) == 1 + LeadingWhitespace(w[1..] + b);
    }
  }

  /** Where a prefix of a pattern does not occur, neither does the pattern. */
  lemma AbsentOfPrefixAbsent(s: string, pattern: string, prefix: string)
    requires StartsWith(pattern, prefix)
    requires !Contains(s, prefix)
    ensures !Contains(s, pattern)
  {
    forall i | 0 <= i <= |s| - |pattern|
      ensures !OccursAt(s, pattern, i)
    {
      assert s[i..i + |prefix|] == s[i..i + |pattern|][..|prefix|];
      assert !OccursAt(s, prefix, i);
    }
  }

  /** A pattern found in a slice is found in the whole string. */
  lemma ContainsInSlice(s: string, lo: nat, hi: nat, pattern: string)
    requires lo <= hi <= |s|
    requires Contains(s[lo..hi], pattern)
    ensures Contains(s, pattern)
  {
    var t := s[lo..hi];
    var i :| 0 <= i <= |t| - |pattern| && OccursAt(t, pattern, i);
    var inSlice, inWhole := t[i..i + |pattern|], s[lo + i..lo + i + |pattern|];
    assert forall k :: 0 <= k < |inSlice| ==> inSlice[k] == inWhole[k];
    assert OccursAt(s, pattern, lo + i);
  }

  /** Trimming cannot create an occurrence of a pattern. */
  lemma TrimKeepsAbsent(s: string, pattern: string)
    requires !Contains(s, pattern)
    ensures !Contains(Trim(s), pattern)
  {
    var r := Trim(s);
    var lo := LeadingWhitespace(s);
    if Contains(r, pattern) {
      ContainsInSlice(s, lo, lo + |r|, pattern);
    }
  }

  /** Wherever a longer pattern occurs, so does its prefix. */
  lemma ContainsPrefixOf(s: string, pattern: string, prefix: string)
    requires StartsWith(pattern, prefix)
    requires Contains(s, pattern)
    ensures Contains(s, prefix)
  {
    var i :| 0 <= i <= |s| - |pattern| && OccursAt(s, pattern, i);
    assert s[i..i + |prefix|] == s[i..i + |pattern|][..|prefix|];
    assert OccursAt(s, prefix, i);
  }
}
