/**
 * Character-level helpers for the string handling the classifier and the
 * deletion buckets rely on: `str.lower()` restricted to ASCII letters, and
 * the search for the first occurrence of a character.
 */
module Text {

  /** `c.lower()` for an ASCII letter; every other character is kept. */
  function LowerChar(c: char): char
  {
    if 'A' <= c <= 'Z' then (c as int + 32) as char else c
  }

  predicate IsLowerChar(c: char)
  {
    !('A' <= c <= 'Z')
  }

  /** True when no character of `s` is an upper-case ASCII letter. */
  predicate IsLower(s: string)
  {
    forall i :: 0 <= i < |s| ==> IsLowerChar(s[i])
  }

  /** `s.lower()`: every character folded on its own, length kept. */
  function Lower(s: string): (r: string)
    ensures |r| == |s|
    ensures forall i :: 0 <= i < |s| ==> r[i] == LowerChar(s[i])
    ensures IsLower(r)
  {
    if s == [] then [] else [LowerChar(s[0])] + Lower(s[1..])
  }

  /** Folding twice is folding once. */
  lemma LowerIdempotent(s: string)
    ensures Lower(Lower(s)) == Lower(s)
  {
  }

  /** A string without upper-case letters is its own lower-case form. */
  lemma LowerOfLower(s: string)
    requires IsLower(s)
    ensures Lower(s) == s
  {
  }

  /** Index of the first `c` in `s`, or `|s|` when there is none. */
  function FirstIndex(s: string, c: char): (r: nat)
    ensures r <= |s|
    ensures r < |s| ==> s[r] == c
    ensures forall k :: 0 <= k < r ==> s[k] != c
  {
    if s == [] then 0
    else if s[0] == c then 0
    else 1 + FirstIndex(s[1..], c)
  }

  /** Any index with the three properties of `FirstIndex` is the first index. */
  lemma FirstIndexIs(s: string, c: char, r: nat)
    requires r <= |s|
    requires r < |s| ==> s[r] == c
    requires forall k :: 0 <= k < r ==> s[k] != c
    ensures FirstIndex(s, c) == r
  {
  }

  /** `s.replace(from, to, 1)`: only the first occurrence is replaced. */
  function ReplaceFirst(s: string, from: char, to: char): string
  {
    var i := FirstIndex(s, from);
    if i == |s| then s else s[..i] + [to] + s[i + 1..]
  }

  /** `s.replace(from, to)`: every occurrence is replaced. */
  function ReplaceAll(s: string, from: char, to: char): (r: string)
    ensures |r| == |s|
    ensures forall i :: 0 <= i < |s| ==> r[i] == (if s[i] == from then to else s[i])
  {
    seq(|s|, i requires 0 <= i < |s| => if s[i] == from then to else s[i])
  }

  /** `s.split(sep, 1)`: one part when `sep` does not occur, else the parts around its first occurrence. */
  function SplitOnce(s: string, sep: char): seq<string>
  {
    var i := FirstIndex(s, sep);
    if i == |s| then [s] else [s[..i], s[i + 1..]]
  }

  /** `s.split(sep)[0]`: the text before the first `sep`. */
  function FirstField(s: string, sep: char): string
  {
    s[..FirstIndex(s, sep)]
  }

  /** Replacing the character at `a` and then dropping the first `b + 1` characters, for `b < a`. */
  lemma ReplacedTail(s: string, b: nat, a: nat, x: char)
    requires b < a < |s|
    ensures (s[..a] + [x] + s[a + 1..])[b + 1..] == s[b + 1..][..a - b - 1] + [x] + s[b + 1..][a - b..]
  {
  }
}
