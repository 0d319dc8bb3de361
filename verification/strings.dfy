/** Text helpers: where a pattern occurs in a string, and `String.prototype.split`'s first piece. */
module Strings {

  /** `pat` occurs in `s` starting at index `i`. */
  predicate OccursAt(s: string, pat: string, i: int) {
    0 <= i && i + |pat| <= |s| && s[i..i + |pat|] == pat
  }

  /** `s` ends with `suffix`. */
  predicate EndsWith(s: string, suffix: string) {
    |suffix| <= |s| && OccursAt(s, suffix, |s| - |suffix|)
  }

  /** `pat` occurs somewhere in `s`. */
  predicate Contains(s: string, pat: string) {
    exists i :: 0 <= i <= |s| && OccursAt(s, pat, i)
  }

  /** An occurrence inside the middle part of `a + b + c` is an occurrence in `b`. */
  lemma OccursInMiddle(a: string, b: string, c: string, pat: string, i: int)
    requires |a| <= i && i + |pat| <= |a| + |b|
    requires OccursAt(a + b + c, pat, i)
    ensures OccursAt(b, pat, i - |a|)
  {
    var s := a + b + c;
    assert s[i..i + |pat|] == b[i - |a|..i - |a| + |pat|];
  }

  /** An occurrence of `b` at `i` that begins with `pat` is an occurrence of `pat` at `i`. */
  lemma OccursAtPrefix(s: string, b: string, pat: string, i: int)
    requires OccursAt(s, b, i) && pat <= b
    ensures OccursAt(s, pat, i)
  {
    assert s[i..i + |pat|] == s[i..i + |b|][..|pat|];
  }

  /** An occurrence inside an occurrence: positions add up. */
  lemma OccursWithin(s: string, b: string, pat: string, i: int, j: int)
    requires OccursAt(s, b, i) && OccursAt(b, pat, j)
    ensures OccursAt(s, pat, i + j)
  {
    forall t | 0 <= t < |pat|
      ensures s[i + j..i + j + |pat|][t] == pat[t]
    {
      assert s[i + j + t] == s[i..i + |b|][j + t];
      assert b[j + t] == b[j..j + |pat|][t];
    }
  }

  /** Where `b` occurs, a string whose `k`-th character differs from `b`'s does not. */
  lemma NotOccursAtMismatch(s: string, b: string, pat: string, i: int, k: nat)
    requires OccursAt(s, b, i) && k < |pat| && k < |b| && pat[k] != b[k]
    ensures !OccursAt(s, pat, i)
  {
    assert s[i + k] == s[i..i + |b|][k];
    if i + |pat| <= |s| {
      assert s[i + k] == s[i..i + |pat|][k];
    }
  }

  /** The three pieces of `a + b + c` occur where they were put. */
  lemma Join3(a: string, b: string, c: string)
    ensures OccursAt(a + b + c, a, 0)
    ensures OccursAt(a + b + c, b, |a|)
    ensures OccursAt(a + b + c, c, |a| + |b|)
  {
    var s := a + b + c;
    assert s[..|a|] == a;
    assert s[|a|..|a| + |b|] == b;
    assert s[|a| + |b|..|s|] == c;
  }

  /** What occurs inside the second of four joined pieces occurs in the whole, shifted by the first. */
  lemma OccursInSecond(a: string, b: string, c: string, d: string, pat: string, j: int)
    requires OccursAt(b, pat, j)
    ensures OccursAt(a + b + c + d, pat, |a| + j)
  {
    Join4(a, b, c, d);
    OccursWithin(a + b + c + d, b, pat, |a|, j);
  }

  /** What occurs in `b` occurs in `a + b`, shifted by `a`. */
  lemma OccursAfter(a: string, b: string, pat: string, j: int)
    requires OccursAt(b, pat, j)
    ensures OccursAt(a + b, pat, |a| + j)
  {
    assert (a + b)[|a|..|a| + |b|] == b;
    OccursWithin(a + b, b, pat, |a|, j);
  }

  /** Containment is transitive. */
  lemma ContainsTransitive(s: string, mid: string, pat: string)
    requires Contains(s, mid) && Contains(mid, pat)
    ensures Contains(s, pat)
  {
    var i :| 0 <= i <= |s| && OccursAt(s, mid, i);
    var j :| 0 <= j <= |mid| && OccursAt(mid, pat, j);
    OccursWithin(s, mid, pat, i, j);
  }

  /** What the end of a string contains, the string contains. */
  lemma EndContains(s: string, suffix: string, pat: string)
    requires EndsWith(s, suffix) && Contains(suffix, pat)
    ensures Contains(s, pat)
  {
    ContainsTransitive(s, suffix, pat);
  }

  /** What occurs in the second of four joined pieces is contained in the whole. */
  lemma ContainedInSecond(a: string, b: string, c: string, d: string, pat: string, j: int)
    requires OccursAt(b, pat, j)
    ensures Contains(a + b + c + d, pat)
  {
    OccursInSecond(a, b, c, d, pat, j);
  }

  /** The second of four joined pieces, when it begins with `pat`, puts `pat` right after the first. */
  lemma OccursAtStartOfSecond(a: string, pat: string, rest: string, c: string, d: string)
    ensures OccursAt(a + (pat + rest) + c + d, pat, |a|)
  {
    OccursAtStart(pat, rest);
    OccursInSecond(a, pat + rest, c, d, pat, 0);
  }

  /** A string begins with itself whatever follows it. */
  lemma OccursAtStart(a: string, b: string)
    ensures OccursAt(a + b, a, 0)
  {
    assert (a + b)[..|a|] == a;
  }

  /** Four joined pieces end with the last one. */
  lemma EndsWithFourth(a: string, b: string, c: string, d: string)
    ensures EndsWith(a + b + c + d, d)
  {
    Join4(a, b, c, d);
    assert |a + b + c + d| - |d| == |a| + |b| + |c|;
  }

  /** Each of four joined pieces occurs at its own offset. */
  lemma Join4(a: string, b: string, c: string, d: string)
    ensures OccursAt(a + b + c + d, a, 0)
    ensures OccursAt(a + b + c + d, b, |a|)
    ensures OccursAt(a + b + c + d, c, |a| + |b|)
    ensures OccursAt(a + b + c + d, d, |a| + |b| + |c|)
  {
    var s := a + b + c + d;
    assert s[..|a|] == a;
    assert s[|a|..|a| + |b|] == b;
    assert s[|a| + |b|..|a| + |b| + |c|] == c;
    assert s[|a| + |b| + |c|..|s|] == d;
  }

  /**
   * `s.split(sep)[0]`: the text before the first `sep`, or the whole of
   * `s` when it has none.
   */
  function BeforeFirst(s: string, sep: char): (r: string)
    ensures r <= s
    ensures sep !in r
    ensures |r| < |s| ==> s[|r|] == sep
  {
    if s == [] || s[0] == sep then [] else [s[0]] + BeforeFirst(s[1..], sep)
  }
}
