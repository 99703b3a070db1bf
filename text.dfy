/**
 * Ordinal string comparisons used to classify prefab names. `StartsWith`
 * and `Contains` walk the strings character by character; the ghost
 * predicates `IsPrefix` and `IsSubstring` are their reference definitions
 * by slicing, and each executable predicate is proved equal to its reference.
 */
module Text {

  /** `p` is a prefix of `s`. */
  ghost predicate IsPrefix(p: string, s: string) {
    |p| <= |s| && s[..|p|] == p
  }

  /** `p` occurs in `s` starting at index `i`. */
  ghost predicate OccursAt(p: string, s: string, i: int) {
    0 <= i && i + |p| <= |s| && s[i..i + |p|] == p
  }

  /** `p` occurs somewhere in `s` (the empty string occurs everywhere). */
  ghost predicate IsSubstring(p: string, s: string) {
    exists i :: OccursAt(p, s, i)
  }

  /** Ordinal `StartsWith`: compares the first |prefix| characters of `s`. */
  function StartsWith(s: string, prefix: string): (b: bool)
    ensures b <==> IsPrefix(prefix, s)
  {
    if |prefix| == 0 then true
    else if |s| == 0 then false
    else s[0] == prefix[0] && StartsWith(s[1..], prefix[1..])
  }

  /** An occurrence of `p` in `s` is either at the front or in `s[1..]`. */
  lemma SubstringStep(p: string, s: string)
    ensures IsSubstring(p, s) <==> IsPrefix(p, s) || (|s| > 0 && IsSubstring(p, s[1..]))
  {
    if IsPrefix(p, s) {
      assert OccursAt(p, s, 0);
    }
    if |s| > 0 && IsSubstring(p, s[1..]) {
      var j :| OccursAt(p, s[1..], j);
      assert s[j + 1..j + 1 + |p|] == s[1..][j..j + |p|];
      assert OccursAt(p, s, j + 1);
    }
    if IsSubstring(p, s) && !IsPrefix(p, s) {
      var i :| OccursAt(p, s, i);
      assert i != 0;
      assert s[1..][i - 1..i - 1 + |p|] == s[i..i + |p|];
      assert OccursAt(p, s[1..], i - 1);
    }
  }

  /** Ordinal `Contains`: tries every starting position from the left. */
  function Contains(s: string, value: string): (b: bool)
    ensures b <==> IsSubstring(value, s)
  {
    SubstringStep(value, s);
    StartsWith(s, value) || (|s| > 0 && Contains(s[1..], value))
  }

  /** A string whose first character does not occur in `s` does not occur in `s`. */
  lemma FirstCharAbsent(p: string, s: string)
    requires |p| > 0 && p[0] !in s
    ensures !IsSubstring(p, s)
  {
  }

  /** A string is not a prefix of one that starts with a different character. */
  lemma FirstCharDiffers(p: string, s: string)
    requires |p| > 0 && |s| > 0 && p[0] != s[0]
    ensures !IsPrefix(p, s)
  {
    if |p| <= |s| {
      assert s[..|p|][0] == s[0];
    }
  }
}
