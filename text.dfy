/** Prefix, suffix and substring relations on strings. */
module Text {

  predicate StartsWith(s: string, prefix: string)
  {
    |prefix| <= |s| && s[..|prefix|] == prefix
  }

  predicate EndsWith(s: string, suffix: string)
  {
    |suffix| <= |s| && s[|s| - |suffix|..] == suffix
  }

  /** `sub` occurs in `s` starting at index `i`. */
  predicate OccursAt(sub: string, s: string, i: int)
  {
    0 <= i <= |s| - |sub| && s[i..i + |sub|] == sub
  }

  /** Python's `sub in s` for two strings. */
  predicate IsSubstring(sub: string, s: string)
  {
    exists i | 0 <= i <= |s| - |sub| :: OccursAt(sub, s, i)
  }

  /** `a` occurs in `a + b` and `b` occurs in `a + b`. */
  lemma SubstringOfConcat(a: string, b: string)
    ensures IsSubstring(a, a + b) && IsSubstring(b, a + b)
  {
    assert OccursAt(a, a + b, 0);
    assert OccursAt(b, a + b, |a|);
  }

  /** A substring of a part is a substring of a string containing that part. */
  lemma SubstringTransitive(sub: string, mid: string, s: string)
    requires IsSubstring(sub, mid) && IsSubstring(mid, s)
    ensures IsSubstring(sub, s)
  {
    var i :| 0 <= i <= |mid| - |sub| && OccursAt(sub, mid, i);
    var j :| 0 <= j <= |s| - |mid| && OccursAt(mid, s, j);
    forall k | 0 <= k < |sub|
      ensures s[j + i..j + i + |sub|][k] == sub[k]
    {
      assert sub[k] == mid[i + k] == s[j + i + k];
    }
    assert OccursAt(sub, s, j + i);
  }

  lemma EndsWithConcat(s: string, suffix: string)
    ensures EndsWith(s + suffix, suffix)
  {
    assert (s + suffix)[|s|..] == suffix;
  }

  lemma StartsWithConcat(s: string, rest: string)
    ensures StartsWith(s + rest, s)
  {
    assert (s + rest)[..|s|] == s;
  }

  /** Two strings with the same suffix removed are equal when the results are. */
  lemma ConcatCancel(a: string, b: string, suffix: string)
    requires a + suffix == b + suffix
    ensures a == b
  {
    assert |a| == |b|;
    assert a == (a + suffix)[..|a|];
    assert b == (b + suffix)[..|b|];
  }
}
