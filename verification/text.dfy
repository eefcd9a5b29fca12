/** Substring search as XPath's `contains(haystack, needle)` performs it. */
module Text {

  /** `p` is a prefix of `s`. */
  predicate IsPrefix(p: string, s: string)
  {
    |p| <= |s| && s[..|p|] == p
  }

  /** XPath `contains(s, sub)`: `sub` occurs in `s` at some position; the empty string
      occurs in every string. */
  predicate Contains(s: string, sub: string)
  {
    exists k :: 0 <= k <= |s| - |sub| && IsPrefix(sub, s[k..])
  }

  /** The classifier's tolerance of wrapper suffixes: a query is found inside any
      identifier built around it, such as `name + "-clone"` or `name + "-master"`. */
  lemma ContainedInAnySurrounding(prefix: string, sub: string, suffix: string)
    ensures Contains(prefix + sub + suffix, sub)
  {
    var s := prefix + sub + suffix;
    assert s[|prefix|..][..|sub|] == sub;
  }

  /** A query cannot occur in an identifier shorter than it, nor in one that lacks the
      query's first character. */
  lemma NotContained(s: string, sub: string)
    requires |sub| > |s| || (|sub| > 0 && sub[0] !in s)
    ensures !Contains(s, sub)
  {
  }

  /** A prefix of `s` is contained in `s`. */
  lemma PrefixContained(s: string, sub: string)
    requires IsPrefix(sub, s)
    ensures Contains(s, sub)
  {
    assert s[0..] == s;
  }
}
