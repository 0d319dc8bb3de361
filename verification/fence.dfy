/**
 * Extraction of the JSON payload from the model's free-text reply: the
 * first match of /```json\n([\s\S]*?)\n```/ and its captured group.
 *
 * A JavaScript regular expression reports the match that starts leftmost;
 * among the matches starting there, the lazy group `*?` takes the shortest.
 * `IsRegexMatch` states that choice declaratively; `MatchFence` finds it by
 * scanning, and is proved to find exactly it.
 */
module Fence {
  import opened Wrappers
  import opened Strings

  /** The opening fence: three backticks, `json`, a line break. */
  const Opener: string := "```json\n"
  /** The closing fence: a line break, three backticks. */
  const Closer: string := "\n```"

  /** An opener at `p` and a closer at `q` at or after the end of that opener. */
  predicate IsCandidate(text: string, p: int, q: int) {
    OccursAt(text, Opener, p) && p + |Opener| <= q && OccursAt(text, Closer, q)
  }

  /** The match the regular expression reports: leftmost start, then the shortest group. */
  ghost predicate IsRegexMatch(text: string, p: int, q: int) {
    && IsCandidate(text, p, q)
    && (forall p', q' :: IsCandidate(text, p', q') ==> p <= p')
    && (forall q' :: IsCandidate(text, p, q') ==> q <= q')
  }

  /** There is at most one such match. */
  lemma RegexMatchUnique(text: string, p1: int, q1: int, p2: int, q2: int)
    requires IsRegexMatch(text, p1, q1) && IsRegexMatch(text, p2, q2)
    ensures p1 == p2 && q1 == q2
  {
  }

  /** The first occurrence of `pat` in `s` at or after `from`. */
  function FindFrom(s: string, pat: string, from: nat): (r: Option<nat>)
    ensures r.Some? ==> from <= r.value && OccursAt(s, pat, r.value)
    ensures r.Some? ==> forall i :: from <= i < r.value ==> !OccursAt(s, pat, i)
    ensures r.None? ==> forall i :: from <= i ==> !OccursAt(s, pat, i)
    decreases |s| - from
  {
    if from + |pat| > |s| then None
    else if OccursAt(s, pat, from) then Some(from)
    else FindFrom(s, pat, from + 1)
  }

  /** A first occurrence at `x` is what `FindFrom` returns. */
  lemma FindFromFirst(s: string, pat: string, from: nat, x: nat)
    requires from <= x && OccursAt(s, pat, x)
    requires forall i :: from <= i < x ==> !OccursAt(s, pat, i)
    ensures FindFrom(s, pat, from) == Some(x)
  {
  }

  /**
   * `text.match(/```json\n([\s\S]*?)\n```/)`: the start of the opener and
   * of the closer of the reported match, or `None` when there is none.
   */
  function MatchFence(text: string): (m: Option<(nat, nat)>)
    ensures m.Some? ==> IsRegexMatch(text, m.value.0, m.value.1)
    ensures m.None? ==> forall p, q :: !IsCandidate(text, p, q)
  {
    match FindFrom(text, Opener, 0)
    case None => None
    case Some(p) =>
      match FindFrom(text, Closer, p + |Opener|)
      case None => None
      case Some(q) => Some((p, q))
  }

  /**
   * `jsonResponse && jsonResponse[1]`: the captured text, or `None` when
   * there is no match or when the group is empty (an empty string is falsy).
   */
  function ExtractJsonBlock(text: string): (r: Option<string>)
    ensures r.Some? ==> r.value != [] && exists p, q :: IsRegexMatch(text, p, q) && text[p + |Opener|..q] == r.value
    ensures r.None? ==> || (forall p, q :: !IsCandidate(text, p, q))
                        || (exists p, q :: IsRegexMatch(text, p, q) && q == p + |Opener|)
  {
    match MatchFence(text)
    case None => None
    case Some((p, q)) => if q == p + |Opener| then None else Some(text[p + |Opener|..q])
  }

  /** No opener starts inside `prefix + Opener` before the opener itself. */
  lemma FirstOpener(prefix: string, rest: string)
    requires !Contains(prefix, Opener)
    ensures forall i :: 0 <= i < |prefix| ==> !OccursAt(prefix + Opener + rest, Opener, i)
    ensures OccursAt(prefix + Opener + rest, Opener, |prefix|)
  {
    var text := prefix + Opener + rest;
    assert text[|prefix|..|prefix| + |Opener|] == Opener;
    forall i | 0 <= i < |prefix|
      ensures !OccursAt(text, Opener, i)
    {
      if i + |Opener| <= |prefix| {
        assert text[i..i + |Opener|] == prefix[i..i + |Opener|];
        assert !OccursAt(prefix, Opener, i);
      } else {
        // The opener has no proper suffix that is also a prefix of it, so it
        // cannot start inside `prefix` and run into the real opener: some
        // character of the real opener's three backticks differs.
        var d := |prefix| - i;
        var k := if d == 1 then 2 else if d == 2 then 1 else 0;
        assert text[|prefix| + k] == Opener[k] == '`';
        assert text[i..i + |Opener|][d + k] == text[|prefix| + k];
        assert Opener[d + k] != '`';
      }
    }
  }

  /** No closer starts inside `content + Closer` before the closer itself. */
  lemma FirstCloser(head: string, content: string, suffix: string)
    requires !Contains(content, Closer)
    ensures forall j :: |head| <= j < |head| + |content| ==> !OccursAt(head + content + Closer + suffix, Closer, j)
    ensures OccursAt(head + content + Closer + suffix, Closer, |head| + |content|)
  {
    var text := head + content + Closer + suffix;
    var end := |head| + |content|;
    assert text[end..end + |Closer|] == Closer;
    forall j | |head| <= j < end
      ensures !OccursAt(text, Closer, j)
    {
      if j + |Closer| <= end {
        if OccursAt(text, Closer, j) {
          assert text == head + content + (Closer + suffix);
          OccursInMiddle(head, content, Closer + suffix, Closer, j);
        }
      } else {
        // The closer has no proper suffix that is also a prefix of it.
        assert text[end] == '\n';
      }
    }
  }

  /** The match is fixed by the first opener and the first closer after it. */
  lemma MatchFenceAt(text: string, p: nat, q: nat)
    requires OccursAt(text, Opener, p) && forall i :: 0 <= i < p ==> !OccursAt(text, Opener, i)
    requires p + |Opener| <= q && OccursAt(text, Closer, q)
    requires forall j :: p + |Opener| <= j < q ==> !OccursAt(text, Closer, j)
    ensures MatchFence(text) == Some((p, q))
  {
    FindFromFirst(text, Opener, 0, p);
    FindFromFirst(text, Closer, p + |Opener|, q);
  }

  /**
   * Round trip: a non-empty payload without a closing fence, fenced after a
   * prefix that holds no opening fence, is extracted unchanged.
   */
  lemma {:induction false} ExtractRoundTrip(prefix: string, content: string, suffix: string)
    requires content != []
    requires !Contains(content, Closer)
    requires !Contains(prefix, Opener)
    ensures ExtractJsonBlock(prefix + Opener + content + Closer + suffix) == Some(content)
  {
    var text := prefix + Opener + content + Closer + suffix;
    var p := |prefix|;
    var q := p + |Opener| + |content|;
    FirstOpener(prefix, content + Closer + suffix);
    assert prefix + Opener + (content + Closer + suffix) == text;
    FirstCloser(prefix + Opener, content, suffix);
    MatchFenceAt(text, p, q);
    assert text[p + |Opener|..q] == content;
  }

  /** A fence with nothing between the opener and the closer yields no payload. */
  lemma {:induction false} EmptyFenceFails(prefix: string, suffix: string)
    requires !Contains(prefix, Opener)
    ensures ExtractJsonBlock(prefix + Opener + Closer + suffix) == None
  {
    var text := prefix + Opener + Closer + suffix;
    var p := |prefix|;
    FirstOpener(prefix, Closer + suffix);
    assert prefix + Opener + (Closer + suffix) == text;
    assert text[p + |Opener|..p + |Opener| + |Closer|] == Closer;
    MatchFenceAt(text, p, p + |Opener|);
  }

  /** A reply without an opening fence yields no payload. */
  lemma NoOpenerFails(text: string)
    requires !Contains(text, Opener)
    ensures ExtractJsonBlock(text) == None
  {
  }
}
