/**
 * The few string primitives the core relies on: lower-casing, stripping,
 * substring tests, joining, slicing, and splitting into runs of characters.
 * Only their ASCII behaviour is modelled.
 */
module StringOps {

  /** ASCII lower-casing of one character. */
  function LowerChar(c: char): (r: char)
    ensures 'A' <= c <= 'Z' ==> 'a' <= r <= 'z'
    ensures !('A' <= c <= 'Z') ==> r == c
  {
    if 'A' <= c <= 'Z' then (c as int - 'A' as int + 'a' as int) as char else c
  }

  /** `str.lower()`, on ASCII letters. */
  function Lower(s: string): (r: string)
    ensures |r| == |s|
    ensures forall i :: 0 <= i < |s| ==> r[i] == LowerChar(s[i])
  {
    seq(|s|, i requires 0 <= i < |s| => LowerChar(s[i]))
  }

  /** Lower-casing twice is lower-casing once. */
  lemma LowerIdempotent(s: string)
    ensures Lower(Lower(s)) == Lower(s)
  {
  }

  /** The characters Python's `str.strip()` and `str.split()` treat as white space (ASCII part). */
  predicate IsWhitespace(c: char) {
    c == ' ' || c == '\t' || c == '\n' || c == '\r' || c == '\U{B}' || c == '\U{C}'
  }

  /** Characters matched by the regular expression class `\w` (ASCII part). */
  predicate IsWordChar(c: char) {
    ('a' <= c <= 'z') || ('A' <= c <= 'Z') || ('0' <= c <= '9') || c == '_'
  }

  function TrimStart(s: string): (r: string)
    ensures r == [] || !IsWhitespace(r[0])
    ensures |r| <= |s| && r == s[|s| - |r|..]
  {
    if s != [] && IsWhitespace(s[0]) then TrimStart(s[1..]) else s
  }

  function TrimEnd(s: string): (r: string)
    ensures r == [] || !IsWhitespace(r[|r| - 1])
    ensures |r| <= |s| && r == s[..|r|]
  {
    if s != [] && IsWhitespace(s[|s| - 1]) then TrimEnd(s[..|s| - 1]) else s
  }

  /** `str.strip()`: the string without leading and trailing white space. */
  function Strip(s: string): (r: string)
    ensures r == [] || (!IsWhitespace(r[0]) && !IsWhitespace(r[|r| - 1]))
    ensures |r| <= |s|
  {
    TrimEnd(TrimStart(s))
  }

  predicate IsPrefix(p: string, s: string) {
    |p| <= |s| && s[..|p|] == p
  }

  /** Python's `p in s` on strings. */
  predicate IsSubstring(p: string, s: string)
    decreases |s|
  {
    IsPrefix(p, s) || (s != [] && IsSubstring(p, s[1..]))
  }

  /** A string occurs in `s` wherever `s` holds it at some index. */
  lemma {:induction false} SubstringAt(p: string, s: string, i: nat)
    requires i + |p| <= |s| && s[i..i + |p|] == p
    ensures IsSubstring(p, s)
  {
    if i > 0 {
      assert s[1..][i - 1..i - 1 + |p|] == s[i..i + |p|];
      SubstringAt(p, s[1..], i - 1);
    }
  }

  /** What occurs in `s` occurs in any extension of `s`. */
  lemma {:induction false} SubstringExtends(p: string, s: string, rest: string)
    requires IsSubstring(p, s)
    ensures IsSubstring(p, s + rest)
    decreases |s|
  {
    if IsPrefix(p, s) {
      assert (s + rest)[..|p|] == s[..|p|];
    } else {
      SubstringExtends(p, s[1..], rest);
      assert (s + rest)[1..] == s[1..] + rest;
    }
  }

  /** A substring lies within `s`: it is no longer than `s`, and a character of it is one of `s`. */
  lemma {:induction false} SubstringChars(p: string, s: string, c: char)
    requires IsSubstring(p, s) && c in p
    ensures c in s
    decreases |s|
  {
    if IsPrefix(p, s) {
      assert c in s[..|p|];
    } else {
      SubstringChars(p, s[1..], c);
    }
  }

  /** `sep.join(parts)`. */
  function Join(sep: string, parts: seq<string>): (r: string)
    ensures |parts| == 1 ==> r == parts[0]
    decreases |parts|
  {
    if parts == [] then ""
    else if |parts| == 1 then parts[0]
    else Join(sep, parts[..|parts| - 1]) + sep + parts[|parts| - 1]
  }

  /** `s[:n]`. */
  function Take<T>(s: seq<T>, n: nat): (r: seq<T>)
    ensures |r| == if |s| <= n then |s| else n
    ensures r == s[..|r|]
  {
    if |s| <= n then s else s[..n]
  }

  /** `s[-n:]` for n > 0, and the whole of `s` when it is shorter than that. */
  function Last<T>(s: seq<T>, n: nat): (r: seq<T>)
    ensures |r| == if |s| <= n then |s| else n
    ensures r == s[|s| - |r|..]
  {
    if |s| <= n then s else s[|s| - n..]
  }

  /** Only the last `n` elements matter: putting anything in front of `n` of them changes nothing. */
  lemma LastIgnoresOlder<T>(older: seq<T>, recent: seq<T>, n: nat)
    requires n <= |recent|
    ensures Last(older + recent, n) == Last(recent, n)
  {
    assert (older + recent)[|older + recent| - n..] == recent[|recent| - n..];
  }

  /** Length of the longest prefix of `s` whose characters satisfy `p`. */
  function RunLength(s: string, p: char -> bool): (n: nat)
    ensures n <= |s|
    ensures forall i :: 0 <= i < n ==> p(s[i])
    ensures n < |s| ==> !p(s[n])
  {
    if s == [] || !p(s[0]) then 0 else 1 + RunLength(s[1..], p)
  }

  /**
   * The maximal runs of characters satisfying `p`, left to right:
   * `re.findall(r"\w+", s)` when `p` is `IsWordChar`, and `s.split()`
   * when `p` is "not white space".
   */
  function Runs(s: string, p: char -> bool): (r: seq<string>)
    ensures forall k :: 0 <= k < |r| ==> r[k] != []
    ensures forall k, i :: 0 <= k < |r| && 0 <= i < |r[k]| ==> p(r[k][i])
    decreases |s|
  {
    if s == [] then []
    else if !p(s[0]) then Runs(s[1..], p)
    else
      var n := RunLength(s, p);
      [s[..n]] + Runs(s[n..], p)
  }

  /** A string without any character satisfying `p` has no runs. */
  lemma {:induction false} RunsOfNone(s: string, p: char -> bool)
    requires forall i :: 0 <= i < |s| ==> !p(s[i])
    ensures Runs(s, p) == []
    decreases |s|
  {
    if s != [] {
      RunsOfNone(s[1..], p);
    }
  }
}
