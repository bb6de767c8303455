/**
 * The few `java.lang.String` and `StringUtils` operations the gateway relies on,
 * over `seq<char>`.
 */
module JavaStrings {

  /** `Character.isWhitespace` restricted to the ASCII/ISO control range. */
  predicate IsWhitespace(c: char) {
    c == ' ' || c == '\t' || c == '\n' || c == '\r' || c == '\U{B}' || c == '\U{C}'
    || ('\U{1C}' <= c <= '\U{1F}')
  }

  /** `StringUtils.isBlank`: empty or whitespace only. */
  predicate IsBlank(s: string) {
    forall i :: 0 <= i < |s| ==> IsWhitespace(s[i])
  }

  /** `Character.isDigit` restricted to ASCII digits. */
  predicate IsDigit(c: char) {
    '0' <= c <= '9'
  }

  /** Characters that `String.trim` strips: every code point up to U+0020. */
  predicate IsTrimmable(c: char) {
    c <= ' '
  }

  function TrimStart(s: string): (r: string)
    ensures |r| <= |s| && r == s[|s| - |r|..]
    ensures r == [] || !IsTrimmable(r[0])
    ensures forall i :: 0 <= i < |s| - |r| ==> IsTrimmable(s[i])
  {
    if s == [] || !IsTrimmable(s[0]) then s else TrimStart(s[1..])
  }

  function TrimEnd(s: string): (r: string)
    ensures |r| <= |s| && r == s[..|r|]
    ensures r == [] || !IsTrimmable(r[|r| - 1])
    ensures forall i :: |r| <= i < |s| ==> IsTrimmable(s[i])
  {
    if s == [] || !IsTrimmable(s[|s| - 1]) then s else TrimEnd(s[..|s| - 1])
  }

  /** Every character of `s` outside positions `lo` to `hi` (exclusive) is trimmable. */
  predicate StrippedAround(s: string, lo: int, hi: int) {
    forall i :: 0 <= i < |s| && (i < lo || hi <= i) ==> IsTrimmable(s[i])
  }

  /**
   * `String.trim`: an infix of `s` with no trimmable character at either end, all of
   * whose surroundings in `s` are trimmable.
   */
  function Trim(s: string): (r: string)
    ensures r == [] || (!IsTrimmable(r[0]) && !IsTrimmable(r[|r| - 1]))
    ensures exists k :: OccursAt(s, r, k) && StrippedAround(s, k, k + |r|)
  {
    var t := TrimStart(s);
    var r := TrimEnd(t);
    TrimmedInfix(s, t, r);
    r
  }

  /** Cutting trimmable characters off the front of `s` and then off the back leaves an infix of `s`. */
  lemma TrimmedInfix(s: string, t: string, r: string)
    requires |t| <= |s| && t == s[|s| - |t|..] && forall i :: 0 <= i < |s| - |t| ==> IsTrimmable(s[i])
    requires |r| <= |t| && r == t[..|r|] && forall i :: |r| <= i < |t| ==> IsTrimmable(t[i])
    ensures OccursAt(s, r, |s| - |t|) && StrippedAround(s, |s| - |t|, |s| - |t| + |r|)
  {
    var k := |s| - |t|;
    assert s[k..k + |r|] == r by {
      assert s[k..k + |r|] == s[k..][..|r|];
    }
    forall i | k + |r| <= i < |s|
      ensures IsTrimmable(s[i])
    {
      assert s[i] == t[i - k];
    }
  }

  /** A string with no trimmable character at either end is its own trim. */
  lemma TrimOfTrimmed(s: string)
    requires s == [] || (!IsTrimmable(s[0]) && !IsTrimmable(s[|s| - 1]))
    ensures Trim(s) == s
  {
  }

  /** `pattern` occurs in `s` starting at position `k`. */
  predicate OccursAt(s: string, pattern: string, k: int) {
    0 <= k <= |s| - |pattern| && s[k..k + |pattern|] == pattern
  }

  /** `String.contains`. */
  predicate Contains(s: string, pattern: string) {
    exists k :: 0 <= k <= |s| && OccursAt(s, pattern, k)
  }

  /** `String.indexOf(char)`: the first position of `c`, or -1. */
  function IndexOf(s: string, c: char): (r: int)
    ensures -1 <= r < |s|
    ensures r == -1 <==> c !in s
    ensures r >= 0 ==> s[r] == c && c !in s[..r]
    ensures r >= 0 ==> forall k :: 0 <= k < r ==> s[k] != c
  {
    if s == [] then -1
    else if s[0] == c then 0
    else
      var k := IndexOf(s[1..], c);
      if k == -1 then -1 else k + 1
  }

  /** A position holding `c` with no `c` before it is where `indexOf` finds `c`. */
  lemma IndexOfFirst(s: string, c: char, i: nat)
    requires i < |s| && s[i] == c && forall k :: 0 <= k < i ==> s[k] != c
    ensures IndexOf(s, c) == i
  {
    assert c in s;
  }

  /**
   * `s.split(String.valueOf(sep), 3)`: at most three parts, the last one keeps
   * any further separators, and empty parts are kept (a positive limit keeps them).
   */
  function SplitLimit3(s: string, sep: char): (parts: seq<string>)
    ensures 1 <= |parts| <= 3
    ensures |parts| == 1 <==> sep !in s
    ensures forall k :: 0 <= k < |parts| - 1 ==> sep !in parts[k]
    ensures |parts| < 3 ==> sep !in parts[|parts| - 1]
  {
    var i := IndexOf(s, sep);
    if i < 0 then [s]
    else
      var rest := s[i + 1..];
      var j := IndexOf(rest, sep);
      if j < 0 then [s[..i], rest]
      else [s[..i], rest[..j], rest[j + 1..]]
  }

  /** Where the first two separators are, there the three-way split cuts. */
  lemma SplitLimit3At(s: string, sep: char, i: nat, j: nat)
    requires IndexOf(s, sep) == i && IndexOf(s[i + 1..], sep) == j
    ensures SplitLimit3(s, sep) == [s[..i], s[i + 1..][..j], s[i + 1..][j + 1..]]
  {
    var rest := s[i + 1..];
    assert IndexOf(rest, sep) == j;
    assert SplitLimit3(s, sep) == [s[..i], rest[..j], rest[j + 1..]];
  }

  /** A separator right after a prefix free of separators is the first one. */
  lemma IndexOfAfterPrefix(prefix: string, rest: string, s: string, sep: char)
    requires sep !in prefix && s == prefix + [sep] + rest
    ensures IndexOf(s, sep) == |prefix| && s[..|prefix|] == prefix && s[|prefix| + 1..] == rest
  {
    forall k | 0 <= k < |prefix|
      ensures s[k] != sep
    {
      assert s[k] == prefix[k];
    }
    IndexOfFirst(s, sep, |prefix|);
  }

  /** Splitting three fields joined by `sep`, the first two free of `sep`, gives them back. */
  lemma SplitLimit3OfJoin(a: string, b: string, c: string, sep: char)
    requires sep !in a && sep !in b
    ensures SplitLimit3(a + [sep] + b + [sep] + c, sep) == [a, b, c]
  {
    var s := a + [sep] + b + [sep] + c;
    var rest := b + [sep] + c;
    assert s == a + [sep] + rest;
    IndexOfAfterPrefix(a, rest, s, sep);
    IndexOfAfterPrefix(b, c, rest, sep);
    SplitLimit3At(s, sep, |a|, |b|);
  }

  /** The inverse of splitting: the parts put back together around `sep`. */
  function Join(parts: seq<string>, sep: char): string {
    if |parts| == 0 then []
    else if |parts| == 1 then parts[0]
    else parts[0] + [sep] + Join(parts[1..], sep)
  }

  lemma JoinTwo(a: string, b: string, sep: char)
    ensures Join([a, b], sep) == a + [sep] + b
  {
    assert [a, b][1..] == [b];
  }

  lemma JoinThree(a: string, b: string, c: string, sep: char)
    ensures Join([a, b, c], sep) == a + [sep] + b + [sep] + c
  {
    assert [a, b, c][1..] == [b, c];
    JoinTwo(b, c, sep);
  }

  /** Cutting `s` around position `i` and gluing it back with `s[i]` gives `s`. */
  lemma CutAt(s: string, i: int)
    requires 0 <= i < |s|
    ensures s == s[..i] + [s[i]] + s[i + 1..]
  {
  }

  /** Splitting loses nothing: joining the parts gives back the original string. */
  lemma SplitLimit3Join(s: string, sep: char)
    ensures Join(SplitLimit3(s, sep), sep) == s
  {
    var i := IndexOf(s, sep);
    if i >= 0 {
      var rest := s[i + 1..];
      var j := IndexOf(rest, sep);
      CutAt(s, i);
      if j < 0 {
        JoinTwo(s[..i], rest, sep);
      } else {
        JoinThree(s[..i], rest[..j], rest[j + 1..], sep);
        CutAt(rest, j);
      }
    }
  }

  /** ASCII case folding, the part of `Character.toLowerCase` the model keeps. */
  function ToLowerChar(c: char): char {
    if 'A' <= c <= 'Z' then (c as int + 32) as char else c
  }

  /** `String.equalsIgnoreCase` under ASCII case folding. */
  predicate EqualsIgnoreCase(a: string, b: string) {
    |a| == |b| && forall i :: 0 <= i < |a| ==> ToLowerChar(a[i]) == ToLowerChar(b[i])
  }

  lemma EqualsIgnoreCaseTransitive(a: string, b: string, c: string)
    requires EqualsIgnoreCase(a, b) && EqualsIgnoreCase(b, c)
    ensures EqualsIgnoreCase(a, c)
  {
  }
}
