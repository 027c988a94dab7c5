/** Prefix and suffix relations on strings, used to take apart the texts
    that the push-notification handler builds by concatenation. */
module Strings {

  /** `p` is a prefix of `s`. */
  predicate StartsWith(s: string, p: string) {
    |p| <= |s| && s[..|p|] == p
  }

  /** `u` is a suffix of `s`. */
  predicate EndsWith(s: string, u: string) {
    |u| <= |s| && s[|s| - |u|..] == u
  }

  /** `s` and `u` differ at position `k`, counted from the start. */
  predicate DifferAt(s: string, u: string, k: int) {
    0 <= k < |s| && k < |u| && s[k] != u[k]
  }

  /** `s` and `u` differ at the `k`-th position counted from the end. */
  predicate DifferAtFromEnd(s: string, u: string, k: int) {
    0 < k <= |s| && k <= |u| && s[|s| - k] != u[|u| - k]
  }

  /** Neither string is a prefix of the other: they differ within their
      common length. */
  predicate NoPrefixOfOther(s: string, u: string) {
    exists k | 0 <= k < |s| :: DifferAt(s, u, k)
  }

  /** Neither string is a suffix of the other: they differ within their
      common length, counted from the end. */
  predicate NoSuffixOfOther(s: string, u: string) {
    exists k | 0 < k <= |s| :: DifferAtFromEnd(s, u, k)
  }

  /** A string that starts with `p` does not start with a string that is
      not comparable with `p`. */
  lemma NotPrefixed(p: string, c: string, q: string)
    requires NoPrefixOfOther(p, q)
    ensures !StartsWith(p + c, q)
  {
    var k :| DifferAt(p, q, k);
    assert DifferAt(p, q, k);
    assert (p + c)[k] == p[k];
  }

  /** A string that ends with `s` does not end with a string that is not
      comparable with `s`. */
  lemma NotSuffixed(a: string, s: string, u: string)
    requires NoSuffixOfOther(s, u)
    ensures !EndsWith(a + s, u)
  {
    var k :| DifferAtFromEnd(s, u, k);
    assert DifferAtFromEnd(s, u, k);
    var w := a + s;
    assert w[|w| - k] == s[|s| - k];
  }
}
