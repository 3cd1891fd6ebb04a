/**
 * `re.search(open + ".*" + close, s, re.DOTALL)` for literal delimiters
 * `open` and `close`: the semantics of the pattern, and the span computed
 * from the first `open` and the last `close`.
 */
module Search {
  import opened Wrappers

  /** `pat` occurs in `s` starting at index `k`. */
  predicate OccursAt(s: string, pat: string, k: int)
  {
    0 <= k && k + |pat| <= |s| && s[k..k + |pat|] == pat
  }

  /** The pattern `open.*close` (with `.` matching every character) matches
      exactly `s[i..e]`. */
  ghost predicate IsMatch(s: string, open: string, close: string, i: int, e: int)
  {
    OccursAt(s, open, i) && i + |open| <= e - |close| && OccursAt(s, close, e - |close|)
  }

  /** `s[i..e]` is the match `re.search` reports: the backtracking matcher
      tries start positions from the left, and at each one the greedy `.*`
      gives back characters from the end of `s` until `close` fits, so the
      reported match has the leftmost start and, for that start, the
      rightmost end. */
  ghost predicate IsSearchResult(s: string, open: string, close: string, i: int, e: int)
  {
    && IsMatch(s, open, close, i, e)
    && (forall i', e' :: i' < i ==> !IsMatch(s, open, close, i', e'))
    && (forall e' :: e < e' ==> !IsMatch(s, open, close, i, e'))
  }

  /** The first occurrence of `pat` at or after `from`. */
  function FirstFrom(s: string, pat: string, from: nat): (r: Option<nat>)
    ensures r.Some? ==> from <= r.value && OccursAt(s, pat, r.value)
    ensures r.Some? ==> forall k :: from <= k < r.value ==> !OccursAt(s, pat, k)
    ensures r.None? ==> forall k :: from <= k ==> !OccursAt(s, pat, k)
    decreases |s| - from
  {
    if from + |pat| > |s| then None
    else if s[from..from + |pat|] == pat then Some(from)
    else FirstFrom(s, pat, from + 1)
  }

  /** The last occurrence of `pat` at or before `upTo`. */
  function LastUpTo(s: string, pat: string, upTo: int): (r: Option<int>)
    ensures r.Some? ==> r.value <= upTo && OccursAt(s, pat, r.value)
    ensures r.Some? ==> forall k :: r.value < k <= upTo ==> !OccursAt(s, pat, k)
    ensures r.None? ==> forall k :: k <= upTo ==> !OccursAt(s, pat, k)
    decreases upTo
  {
    if upTo < 0 then None
    else if OccursAt(s, pat, upTo) then Some(upTo)
    else LastUpTo(s, pat, upTo - 1)
  }

  /** `re.search(open + ".*" + close, s, re.DOTALL).group(0)`, or `None`
      when there is no match: the text from the first `open` to the end of
      the last `close` that starts after that `open`. */
  function SearchSpan(s: string, open: string, close: string): (r: Option<string>)
    ensures r.Some? ==> exists i, e :: IsSearchResult(s, open, close, i, e) && r.value == s[i..e]
    ensures r.None? <==> forall i, e :: !IsMatch(s, open, close, i, e)
  {
    match FirstFrom(s, open, 0)
    case None => None
    case Some(i) =>
      match LastUpTo(s, close, |s| - |close|)
      case None => None
      case Some(p) =>
        if i + |open| <= p then
          assert IsSearchResult(s, open, close, i, p + |close|);
          Some(s[i..p + |close|])
        else
          None
  }

  /** A match begins with `open`, ends with `close` and is an infix of `s`. */
  lemma MatchShape(s: string, open: string, close: string, i: int, e: int)
    requires IsMatch(s, open, close, i, e)
    ensures 0 <= i <= e <= |s| && |s[i..e]| >= |open| + |close|
    ensures s[i..e][..|open|] == open && s[i..e][e - i - |close|..] == close
  {
    assert s[i..e][..|open|] == s[i..i + |open|];
    assert s[i..e][e - i - |close|..] == s[e - |close|..e];
  }

  /** `s[i..e]` runs from the first occurrence of `open` to the end of the
      last occurrence of `close`, and the two do not overlap. */
  ghost predicate IsFirstToLast(s: string, open: string, close: string, i: int, e: int)
  {
    && IsMatch(s, open, close, i, e)
    && (forall k :: k < i ==> !OccursAt(s, open, k))
    && (forall k :: e - |close| < k ==> !OccursAt(s, close, k))
  }

  /** The match `re.search` reports is exactly the span from the first
      `open` to the last `close`. */
  lemma SearchResultIsFirstToLast(s: string, open: string, close: string, i: int, e: int)
    ensures IsSearchResult(s, open, close, i, e) <==> IsFirstToLast(s, open, close, i, e)
  {
    if IsSearchResult(s, open, close, i, e) {
      forall k | k < i ensures !OccursAt(s, open, k) {
        assert !IsMatch(s, open, close, k, e);
      }
      forall k | e - |close| < k ensures !OccursAt(s, close, k) {
        assert !IsMatch(s, open, close, i, k + |close|);
      }
    }
    if IsFirstToLast(s, open, close, i, e) {
      forall i', e' | i' < i ensures !IsMatch(s, open, close, i', e') {
        assert !OccursAt(s, open, i');
      }
      forall e' | e < e' ensures !IsMatch(s, open, close, i, e') {
        assert !OccursAt(s, close, e' - |close|);
      }
    }
  }
}
