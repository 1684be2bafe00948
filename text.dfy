/**
 * The two pieces of Python string behaviour the gatekeeper and the
 * delivery router depend on: the `in` operator on strings and `str.strip()`.
 * Strings are `seq<char>` over Unicode scalar values, so `|s|` is Python's `len(s)`.
 */
module Text {

  /** Python's `pat in s`: `pat` occurs in `s` as a contiguous substring. */
  predicate Contains(s: string, pat: string)
    decreases |s|
  {
    pat <= s || (s != [] && Contains(s[1..], pat))
  }

  /** An occurrence at a known offset is enough for `Contains`. */
  lemma {:induction false} ContainsAt(s: string, pat: string, i: nat)
    requires i + |pat| <= |s| && s[i..i + |pat|] == pat
    ensures Contains(s, pat)
    decreases i
  {
    if i > 0 {
      assert s[1..][i - 1..i - 1 + |pat|] == s[i..i + |pat|];
      ContainsAt(s[1..], pat, i - 1);
    } else {
      assert s[..|pat|] == pat;
    }
  }

  /** `Contains` always has a witness offset: it is exactly the substring relation. */
  lemma {:induction false} ContainsOffset(s: string, pat: string) returns (i: nat)
    requires Contains(s, pat)
    ensures i + |pat| <= |s| && s[i..i + |pat|] == pat
    decreases |s|
  {
    if pat <= s {
      i := 0;
    } else {
      var j := ContainsOffset(s[1..], pat);
      assert s[1..][j..j + |pat|] == s[j + 1..j + 1 + |pat|];
      i := j + 1;
    }
  }

  /** A string that is spliced into a larger one is contained in it. */
  lemma ContainsInfix(a: string, x: string, b: string)
    ensures Contains(a + x + b, x)
  {
    var s := a + x + b;
    assert s[|a|..|a| + |x|] == x;
    ContainsAt(s, x, |a|);
  }

  /** The characters for which Python's `str.isspace()` holds. */
  const Whitespace: set<char> :=
    {'\t', '\n', '\U{B}', '\U{C}', '\r', '\U{1C}', '\U{1D}', '\U{1E}', '\U{1F}', ' ', '\U{85}', '\U{A0}',
     '\U{1680}', '\U{2000}', '\U{2001}', '\U{2002}', '\U{2003}', '\U{2004}', '\U{2005}', '\U{2006}',
     '\U{2007}', '\U{2008}', '\U{2009}', '\U{200A}', '\U{2028}', '\U{2029}', '\U{202F}', '\U{205F}', '\U{3000}'}

  /** Python's `str.isspace()` for one character. */
  predicate IsSpace(c: char)
  {
    c in Whitespace
  }

  /** Every character of `s` in `[lo, hi)` is whitespace. */
  predicate SpaceBetween(s: string, lo: int, hi: int)
  {
    forall k :: lo <= k < hi && 0 <= k < |s| ==> IsSpace(s[k])
  }

  /** The first index at or after `i` that holds no whitespace, or `|s|`. */
  function SkipSpaceFrom(s: string, i: nat): (n: nat)
    requires i <= |s|
    ensures i <= n <= |s| && SpaceBetween(s, i, n)
    ensures n == |s| || !IsSpace(s[n])
    decreases |s| - i
  {
    if i < |s| && IsSpace(s[i]) then SkipSpaceFrom(s, i + 1) else i
  }

  /** The index just past the last non-whitespace character of `s[lo..hi]`, or `lo`. */
  function SkipSpaceBack(s: string, lo: nat, hi: nat): (m: nat)
    requires lo <= hi <= |s|
    ensures lo <= m <= hi && SpaceBetween(s, m, hi)
    ensures m == lo || !IsSpace(s[m - 1])
    decreases hi
  {
    if lo < hi && IsSpace(s[hi - 1]) then SkipSpaceBack(s, lo, hi - 1) else hi
  }

  /** `r` is the slice of `s` at offset `lo`, with only whitespace on either side of it. */
  predicate Framed(s: string, r: string, lo: int)
  {
    0 <= lo <= |s| - |r| && r == s[lo..lo + |r|] && SpaceBetween(s, 0, lo) && SpaceBetween(s, lo + |r|, |s|)
  }

  /**
   * Python's `s.strip()`: the contiguous middle of `s` left after removing
   * whitespace at both ends; it neither starts nor ends with whitespace.
   */
  function Strip(s: string): (r: string)
    ensures r == [] || (!IsSpace(r[0]) && !IsSpace(r[|r| - 1]))
    ensures exists lo :: Framed(s, r, lo)
  {
    var lo := SkipSpaceFrom(s, 0);
    var hi := SkipSpaceBack(s, lo, |s|);
    assert Framed(s, s[lo..hi], lo);
    s[lo..hi]
  }
}
