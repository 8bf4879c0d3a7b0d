/**
 * The part of Python's `re.search(pattern, s, re.IGNORECASE)` that the
 * classifier tables use: a pattern is a top-level alternation `a|b|...` whose
 * alternatives are literal text, optionally anchored with a leading `^` and a
 * trailing `$`. Case is ignored by folding ASCII letters.
 */
module Patterns {
  import opened Text

  /** One alternative of a pattern: `^`? literal `$`? */
  datatype Alternative = Alternative(atStart: bool, literal: string, atEnd: bool)

  /** A pattern is its list of top-level alternatives. */
  type Pattern = seq<Alternative>

  /** An unanchored literal alternative. */
  function Anywhere(literal: string): Alternative
  {
    Alternative(false, literal, false)
  }

  /** An alternative written `^literal`. */
  function AtStart(literal: string): Alternative
  {
    Alternative(true, literal, false)
  }

  /** `literal` occurs in `s` at position `i`, ignoring case. */
  predicate MatchesAt(s: string, i: int, literal: string)
  {
    0 <= i && i + |literal| <= |s| && Lower(s[i..i + |literal|]) == Lower(literal)
  }

  /**
   * Where `$` matches without MULTILINE: at the end of the string, or just
   * before a newline that ends it.
   */
  predicate EndsAt(s: string, j: int)
  {
    j == |s| || (0 <= j && j == |s| - 1 && s[j] == '\n')
  }

  predicate AlternativeMatches(a: Alternative, s: string)
  {
    exists i :: 0 <= i <= |s| - |a.literal| && MatchesAt(s, i, a.literal)
      && (a.atStart ==> i == 0) && (a.atEnd ==> EndsAt(s, i + |a.literal|))
  }

  /** `re.search(p, s, re.IGNORECASE)` is not None. */
  predicate Search(p: Pattern, s: string)
  {
    exists a :: a in p && AlternativeMatches(a, s)
  }

  /** `s` begins with `prefix`, ignoring case. */
  predicate StartsWithIgnoreCase(s: string, prefix: string)
  {
    |prefix| <= |s| && Lower(s[..|prefix|]) == Lower(prefix)
  }

  /** A lone `^literal` pattern matches exactly the strings that start with the literal. */
  lemma AtStartMatches(literal: string, s: string)
    ensures Search([AtStart(literal)], s) <==> StartsWithIgnoreCase(s, literal)
  {
    if StartsWithIgnoreCase(s, literal) {
      assert MatchesAt(s, 0, literal);
      assert AlternativeMatches(AtStart(literal), s);
    }
  }
}
