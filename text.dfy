/**
 * Python string operations used by the system, on `string` (= seq<char>).
 * `strip`, `split`, `join`, `in`, `find`, `count`, `startswith`, `endswith`,
 * and ASCII `lower`/`upper`.
 */
module Text {

  /** Python's `str.isspace()` character set, which is also what `\s` matches in a `str` pattern. */
  const Whitespace: set<char> := {
    '\t', '\n', '\U{b}', '\U{c}', '\r', '\U{1c}', '\U{1d}', '\U{1e}', '\U{1f}', ' ',
    '\U{85}', '\U{a0}', '\U{1680}',
    '\U{2000}', '\U{2001}', '\U{2002}', '\U{2003}', '\U{2004}', '\U{2005}', '\U{2006}',
    '\U{2007}', '\U{2008}', '\U{2009}', '\U{200a}',
    '\U{2028}', '\U{2029}', '\U{202f}', '\U{205f}', '\U{3000}'
  }

  predicate IsSpace(c: char) { c in Whitespace }

  predicate AllIn(s: string, cs: set<char>) {
    forall i :: 0 <= i < |s| ==> s[i] in cs
  }

  /** `s.lstrip(chars)` */
  function TrimLeft(s: string, cs: set<char>): (r: string)
    ensures |r| <= |s| && r == s[|s| - |r|..]
    ensures AllIn(s[..|s| - |r|], cs)
    ensures r == [] || r[0] !in cs
    decreases |s|
  {
    if |s| > 0 && s[0] in cs then
      var r := TrimLeft(s[1..], cs);
      assert s[1..][..|s| - 1 - |r|] == s[1..|s| - |r|];
      r
    else s
  }

  /** `s.rstrip(chars)` */
  function TrimRight(s: string, cs: set<char>): (r: string)
    ensures |r| <= |s| && r == s[..|r|]
    ensures AllIn(s[|r|..], cs)
    ensures r == [] || r[|r| - 1] !in cs
    decreases |s|
  {
    if |s| > 0 && s[|s| - 1] in cs then
      var r := TrimRight(s[..|s| - 1], cs);
      assert s[..|s| - 1][|r|..] == s[|r|..|s| - 1];
      r
    else s
  }

  /** `s.strip(chars)`: the longest middle part whose two ends are not in `cs`. */
  function StripSet(s: string, cs: set<char>): (r: string)
  {
    TrimRight(TrimLeft(s, cs), cs)
  }

  /** The stripped part ends, on both sides, with a character not in `cs`. */
  lemma StripSetEnds(s: string, cs: set<char>)
    ensures var r := StripSet(s, cs);
            r == [] || (r[0] !in cs && r[|r| - 1] !in cs)
  {
    var l := TrimLeft(s, cs);
    var r := TrimRight(l, cs);
    assert r == [] || r[0] == l[0];
  }

  /** `s.strip()` */
  function Strip(s: string): string {
    StripSet(s, Whitespace)
  }

  function LowerChar(c: char): char {
    if 'A' <= c <= 'Z' then (c as int + 32) as char else c
  }

  function UpperChar(c: char): char {
    if 'a' <= c <= 'z' then (c as int - 32) as char else c
  }

  /** `s.lower()` on the ASCII letters. */
  function Lower(s: string): (r: string)
    ensures |r| == |s| && forall i :: 0 <= i < |s| ==> r[i] == LowerChar(s[i])
  {
    seq(|s|, i requires 0 <= i < |s| => LowerChar(s[i]))
  }

  /** `s.upper()` on the ASCII letters. */
  function Upper(s: string): (r: string)
    ensures |r| == |s| && forall i :: 0 <= i < |s| ==> r[i] == UpperChar(s[i])
  {
    seq(|s|, i requires 0 <= i < |s| => UpperChar(s[i]))
  }

  predicate StartsWith(s: string, p: string) {
    |p| <= |s| && s[..|p|] == p
  }

  predicate EndsWith(s: string, p: string) {
    |p| <= |s| && s[|s| - |p|..] == p
  }

  /** `sub` occurs in `s` at index `i`. */
  predicate OccursAt(s: string, sub: string, i: int) {
    0 <= i && i + |sub| <= |s| && s[i..i + |sub|] == sub
  }

  /** `sub in s` */
  predicate Contains(s: string, sub: string) {
    exists i :: 0 <= i <= |s| - |sub| && OccursAt(s, sub, i)
  }

  /** `s.find(sub)`: the first index at which `sub` occurs, or -1. */
  function Find(s: string, sub: string): (k: int)
    ensures k == -1 || OccursAt(s, sub, k)
    ensures forall i :: 0 <= i && (k < 0 || i < k) ==> !OccursAt(s, sub, i)
    ensures k < 0 <==> !Contains(s, sub)
  {
    FindFrom(s, sub, 0)
  }

  function FindFrom(s: string, sub: string, start: nat): (k: int)
    requires forall i :: 0 <= i < start ==> !OccursAt(s, sub, i)
    ensures k == -1 || (start <= k && OccursAt(s, sub, k))
    ensures forall i :: 0 <= i && (k < 0 || i < k) ==> !OccursAt(s, sub, i)
    decreases |s| - start
  {
    if start + |sub| > |s| then -1
    else if s[start..start + |sub|] == sub then start
    else FindFrom(s, sub, start + 1)
  }

  /** `s.find(c)` for one character. */
  function FindChar(s: string, c: char): (k: int)
    ensures -1 <= k < |s|
    ensures k >= 0 ==> s[k] == c
    ensures forall i :: 0 <= i < |s| && (k < 0 || i < k) ==> s[i] != c
    decreases |s|
  {
    if |s| == 0 then -1
    else if s[0] == c then 0
    else
      var k := FindChar(s[1..], c);
      if k < 0 then -1 else k + 1
  }

  /** `s.rfind(c)` for one character. */
  function RFindChar(s: string, c: char): (k: int)
    ensures -1 <= k < |s|
    ensures k >= 0 ==> s[k] == c
    ensures forall i :: 0 <= i < |s| && k < i ==> s[i] != c
    decreases |s|
  {
    if |s| == 0 then -1
    else if s[|s| - 1] == c then |s| - 1
    else RFindChar(s[..|s| - 1], c)
  }

  /** `s.count(c)` for one character. */
  function Count(s: string, c: char): nat
    decreases |s|
  {
    if |s| == 0 then 0 else (if s[0] == c then 1 else 0) + Count(s[1..], c)
  }

  /** `s.split(sep)` with an explicit one-character separator. */
  function Split(s: string, sep: char): (parts: seq<string>)
    ensures |parts| >= 1
    decreases |s|
  {
    var k := FindChar(s, sep);
    if k < 0 then [s] else [s[..k]] + Split(s[k + 1..], sep)
  }

  /** `sep.join(parts)` */
  function Join(parts: seq<string>, sep: string): string
    decreases |parts|
  {
    if |parts| == 0 then ""
    else if |parts| == 1 then parts[0]
    else parts[0] + sep + Join(parts[1..], sep)
  }

  /** Joining two non-empty lists is joining each and putting one separator between. */
  lemma {:induction false} JoinAppend(a: seq<string>, b: seq<string>, sep: string)
    requires |a| > 0 && |b| > 0
    ensures Join(a + b, sep) == Join(a, sep) + sep + Join(b, sep)
    decreases |a|
  {
    if |a| == 1 {
      assert (a + b)[1..] == b;
    } else {
      assert (a + b)[1..] == a[1..] + b;
      JoinAppend(a[1..], b, sep);
    }
  }

  /** Splitting at a character and joining with it again gives back the string. */
  lemma {:induction false} JoinSplit(s: string, sep: char)
    ensures Join(Split(s, sep), [sep]) == s
    decreases |s|
  {
    var k := FindChar(s, sep);
    if k >= 0 {
      JoinSplit(s[k + 1..], sep);
      assert s == s[..k] + [sep] + s[k + 1..];
    }
  }

  /** `str(n)` for an integer. */
  function IntToString(n: int): (r: string)
    ensures |r| >= 1
    decreases if n < 0 then 1 - n else n
  {
    if n < 0 then "-" + IntToString(-n)
    else if n < 10 then [('0' as int + n) as char]
    else IntToString(n / 10) + [('0' as int + n % 10) as char]
  }
}
