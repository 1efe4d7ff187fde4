/** Python's `str.strip()` with no argument, as the handler applies it to the
    transcript and to the translation service's reply. */
module Strings {

  /** The characters for which Python's `str.isspace()` holds: the ASCII
      whitespace and separator controls, NEXT LINE, NO-BREAK SPACE and the
      Unicode space separators, line and paragraph separators. */
  predicate IsSpace(c: char)
  {
    c == ' ' || ('\t' <= c <= '\r') || ('\U{1c}' <= c <= '\U{1f}') ||
    c == '\U{85}' || c == '\U{a0}' || c == '\U{1680}' ||
    ('\U{2000}' <= c <= '\U{200a}') || c == '\U{2028}' || c == '\U{2029}' ||
    c == '\U{202f}' || c == '\U{205f}' || c == '\U{3000}'
  }

  /** Every character of `s` is whitespace (the empty string included). */
  predicate IsBlank(s: string)
  {
    forall k :: 0 <= k < |s| ==> IsSpace(s[k])
  }

  /** The length of the longest all-whitespace prefix of `s`. */
  function LeadingSpaces(s: string): (n: nat)
    ensures n <= |s|
    ensures forall k :: 0 <= k < n ==> IsSpace(s[k])
    ensures n < |s| ==> !IsSpace(s[n])
  {
    if |s| == 0 || !IsSpace(s[0]) then 0
    else
      var m := LeadingSpaces(s[1..]);
      assert forall k :: 1 <= k < 1 + m ==> s[k] == s[1..][k - 1];
      1 + m
  }

  /** The length of the longest all-whitespace suffix of `s`. */
  function TrailingSpaces(s: string): (n: nat)
    ensures n <= |s|
    ensures forall k :: |s| - n <= k < |s| ==> IsSpace(s[k])
    ensures n < |s| ==> !IsSpace(s[|s| - 1 - n])
  {
    if |s| == 0 || !IsSpace(s[|s| - 1]) then 0
    else
      var init := s[..|s| - 1];
      var m := TrailingSpaces(init);
      assert forall k :: 0 <= k < |init| ==> s[k] == init[k];
      1 + m
  }

  /** The slice `s[lo..hi]` that `strip()` keeps: whitespace outside it, and
      the slice either empty or starting and ending with a non-whitespace
      character. `StripBoundsUnique` shows these conditions determine the
      slice. */
  function StripBounds(s: string): (b: (nat, nat))
    ensures b.0 <= b.1 <= |s|
    ensures forall k :: 0 <= k < b.0 ==> IsSpace(s[k])
    ensures forall k :: b.1 <= k < |s| ==> IsSpace(s[k])
    ensures b.0 < b.1 ==> !IsSpace(s[b.0]) && !IsSpace(s[b.1 - 1])
    ensures b.0 == b.1 <==> IsBlank(s)
  {
    var lead := LeadingSpaces(s);
    if lead == |s| then
      (lead, lead)
    else
      var trail := TrailingSpaces(s);
      (lead, |s| - trail)
  }

  /** `s.strip()`. */
  function Strip(s: string): (r: string)
    ensures |r| <= |s|
    ensures r == "" <==> IsBlank(s)
    ensures r != "" ==> !IsSpace(r[0]) && !IsSpace(r[|r| - 1])
  {
    var b := StripBounds(s);
    assert b.0 < b.1 ==> s[b.0..b.1][0] == s[b.0] && s[b.0..b.1][b.1 - b.0 - 1] == s[b.1 - 1];
    s[b.0..b.1]
  }

  /** A whitespace prefix followed by a non-whitespace character is the
      longest one. */
  lemma LeadingSpacesUnique(s: string, lo: nat)
    requires lo < |s| && !IsSpace(s[lo])
    requires forall k :: 0 <= k < lo ==> IsSpace(s[k])
    ensures LeadingSpaces(s) == lo
  {
  }

  /** A whitespace suffix preceded by a non-whitespace character is the
      longest one. */
  lemma TrailingSpacesUnique(s: string, hi: nat)
    requires 0 < hi <= |s| && !IsSpace(s[hi - 1])
    requires forall k :: hi <= k < |s| ==> IsSpace(s[k])
    ensures TrailingSpaces(s) == |s| - hi
  {
  }

  /** Any slice with only whitespace outside it, and no whitespace at its ends,
      is what `strip()` keeps. */
  lemma StripBoundsUnique(s: string, lo: nat, hi: nat)
    requires lo <= hi <= |s|
    requires forall k :: 0 <= k < lo ==> IsSpace(s[k])
    requires forall k :: hi <= k < |s| ==> IsSpace(s[k])
    requires lo < hi ==> !IsSpace(s[lo]) && !IsSpace(s[hi - 1])
    ensures Strip(s) == s[lo..hi]
  {
    if lo == hi {
      assert IsBlank(s) by {
        forall k | 0 <= k < |s| ensures IsSpace(s[k]) {
          assert k < lo || hi <= k;
        }
      }
    } else {
      LeadingSpacesUnique(s, lo);
      TrailingSpacesUnique(s, hi);
      assert StripBounds(s) == (lo, hi);
    }
  }

  /** Stripping twice is stripping once. */
  lemma StripIdempotent(s: string)
    ensures Strip(Strip(s)) == Strip(s)
  {
    var r := Strip(s);
    StripBoundsUnique(r, 0, |r|);
    assert r[0..|r|] == r;
  }

  /** Whitespace added around a string that already has no surrounding
      whitespace is exactly what `strip()` removes. */
  lemma StripRemovesPadding(left: string, core: string, right: string)
    requires IsBlank(left) && IsBlank(right)
    requires core != "" ==> !IsSpace(core[0]) && !IsSpace(core[|core| - 1])
    ensures Strip(left + core + right) == core
  {
    var s := left + core + right;
    var lo, hi := |left|, |left| + |core|;
    assert forall k :: 0 <= k < lo ==> s[k] == left[k];
    assert forall k :: lo <= k < hi ==> s[k] == core[k - lo];
    assert forall k :: hi <= k < |s| ==> s[k] == right[k - hi];
    StripBoundsUnique(s, lo, hi);
    assert s[lo..hi] == core;
  }
}
