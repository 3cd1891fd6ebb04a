/**
 * Python's `str.strip()` and `str.lower()` restricted to ASCII text.
 */
module Ascii {

  /** The ASCII characters for which Python's `str.isspace()` holds:
      space, tab, line feed, vertical tab, form feed, carriage return
      and the four separators 0x1C-0x1F. */
  predicate IsSpace(c: char)
  {
    c == ' ' || (9 <= c as int <= 13) || (28 <= c as int <= 31)
  }

  predicate IsUpper(c: char)
  {
    'A' <= c <= 'Z'
  }

  predicate AllSpace(s: string)
  {
    forall i :: 0 <= i < |s| ==> IsSpace(s[i])
  }

  predicate NoSpace(s: string)
  {
    forall i :: 0 <= i < |s| ==> !IsSpace(s[i])
  }

  predicate NoUpper(s: string)
  {
    forall i :: 0 <= i < |s| ==> !IsUpper(s[i])
  }

  /** Lower-cases one ASCII letter and leaves every other character alone. */
  function LowerChar(c: char): (r: char)
    ensures !IsUpper(r)
    ensures r == c <==> !IsUpper(c)
    ensures IsUpper(c) ==> r as int - c as int == 'a' as int - 'A' as int
    ensures IsSpace(r) <==> IsSpace(c)
  {
    if IsUpper(c) then (c as int - 'A' as int + 'a' as int) as char else c
  }

  /** `s.lower()`: the same length, each character lower-cased on its own. */
  function Lower(s: string): (r: string)
    ensures |r| == |s|
    ensures forall i :: 0 <= i < |s| ==> r[i] == LowerChar(s[i])
    ensures NoUpper(r)
  {
    if s == [] then [] else [LowerChar(s[0])] + Lower(s[1..])
  }

  /** The forward scan of `strip()`: the first index at or after `k` that
      does not hold a space, or `|s|` when there is none. */
  function SkipSpaces(s: string, k: nat): (r: nat)
    requires k <= |s|
    ensures k <= r <= |s|
    ensures forall m :: k <= m < r ==> IsSpace(s[m])
    ensures r < |s| ==> !IsSpace(s[r])
    decreases |s| - k
  {
    if k < |s| && IsSpace(s[k]) then SkipSpaces(s, k + 1) else k
  }

  /** The backward scan of `strip()`: from `k`, back over spaces, never
      below `lo`. */
  function BackSpaces(s: string, lo: nat, k: nat): (r: nat)
    requires lo <= k <= |s|
    ensures lo <= r <= k
    ensures forall m :: r <= m < k ==> IsSpace(s[m])
    ensures lo < r ==> !IsSpace(s[r - 1])
    decreases k
  {
    if lo < k && IsSpace(s[k - 1]) then BackSpaces(s, lo, k - 1) else k
  }

  /** `s.strip()`: the infix of `s` between a run of leading and a run of
      trailing spaces, which neither begins nor ends with a space. */
  function Strip(s: string): (r: string)
    ensures exists i, j ::
      && 0 <= i <= j <= |s| && r == s[i..j]
      && (forall k :: 0 <= k < i ==> IsSpace(s[k]))
      && (forall k :: j <= k < |s| ==> IsSpace(s[k]))
    ensures r == [] || (!IsSpace(r[0]) && !IsSpace(r[|r| - 1]))
  {
    var i := SkipSpaces(s, 0);
    var j := BackSpaces(s, i, |s|);
    s[i..j]
  }

  /** The forward scan stops at the first non-space: it is the only index
      with the properties its contract states. */
  lemma SkipSpacesAt(s: string, k: nat, n: nat)
    requires k <= n <= |s|
    requires forall m :: k <= m < n ==> IsSpace(s[m])
    requires n < |s| ==> !IsSpace(s[n])
    ensures SkipSpaces(s, k) == n
  {
  }

  /** Likewise the backward scan stops after the last non-space. */
  lemma BackSpacesAt(s: string, lo: nat, k: nat, n: nat)
    requires lo <= n <= k <= |s|
    requires forall m :: n <= m < k ==> IsSpace(s[m])
    requires lo < n ==> !IsSpace(s[n - 1])
    ensures BackSpaces(s, lo, k) == n
  {
  }

  /** `strip()` returns the empty string exactly when every character is a space. */
  lemma StripEmpty(s: string)
    ensures Strip(s) == [] <==> AllSpace(s)
  {
    var i := SkipSpaces(s, 0);
    var j := BackSpaces(s, i, |s|);
    if Strip(s) == [] {
      assert i == j;
    } else {
      assert Strip(s)[0] == s[i];
    }
  }

  /** `strip()` of a trimmed core padded by spaces on both sides is that core. */
  lemma StripPadded(pre: string, core: string, post: string)
    requires AllSpace(pre) && AllSpace(post)
    requires core == [] || (!IsSpace(core[0]) && !IsSpace(core[|core| - 1]))
    ensures Strip(pre + core + post) == core
  {
    var x := pre + core + post;
    var n := |pre| + |core|;
    assert forall m :: 0 <= m < |pre| ==> x[m] == pre[m];
    assert forall m :: n <= m < |x| ==> x[m] == post[m - n];
    if core == [] {
      SkipSpacesAt(x, 0, |x|);
      BackSpacesAt(x, |x|, |x|, |x|);
    } else {
      assert x[|pre|] == core[0];
      assert x[n - 1] == core[|core| - 1];
      SkipSpacesAt(x, 0, |pre|);
      BackSpacesAt(x, |pre|, |x|, n);
      assert x[|pre|..n] == core;
    }
  }

  /** A string with no upper-case letter is left unchanged by `lower()`. */
  lemma LowerNoUpper(s: string)
    requires NoUpper(s)
    ensures Lower(s) == s
  {
  }

  /** `strip()` is idempotent. */
  lemma StripIdempotent(s: string)
    ensures Strip(Strip(s)) == Strip(s)
  {
    var r := Strip(s);
    assert [] + r + [] == r;
    StripPadded([], r, []);
  }
}
