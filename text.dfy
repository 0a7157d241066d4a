/** Python's `str.strip()` with no argument, over code points. */
module Text {

  /** The characters for which Python's `str.isspace()` holds. */
  predicate IsSpace(c: char)
  {
    var n := c as int;
    (0x09 <= n <= 0x0D) || (0x1C <= n <= 0x20) || n == 0x85 || n == 0xA0 || n == 0x1680 ||
    (0x2000 <= n <= 0x200A) || n == 0x2028 || n == 0x2029 || n == 0x202F || n == 0x205F ||
    n == 0x3000
  }

  /** The first position at or after `lo` that holds no whitespace (`|s|` if none). */
  function SkipSpaceForward(s: string, lo: nat): (k: nat)
    requires lo <= |s|
    ensures lo <= k <= |s|
    ensures forall i :: lo <= i < k ==> IsSpace(s[i])
    ensures k < |s| ==> !IsSpace(s[k])
    decreases |s| - lo
  {
    if lo == |s| || !IsSpace(s[lo]) then lo else SkipSpaceForward(s, lo + 1)
  }

  /** The end of `s[lo..hi]` once its trailing whitespace is dropped. */
  function SkipSpaceBackward(s: string, lo: nat, hi: nat): (k: nat)
    requires lo <= hi <= |s|
    ensures lo <= k <= hi
    ensures forall i :: k <= i < hi ==> IsSpace(s[i])
    ensures lo < k ==> !IsSpace(s[k - 1])
    decreases hi
  {
    if hi == lo || !IsSpace(s[hi - 1]) then hi else SkipSpaceBackward(s, lo, hi - 1)
  }

  /** `s.strip()`: the slice of `s` left when the leading and trailing
      whitespace is dropped; it neither starts nor ends with whitespace. */
  function Strip(s: string): (r: string)
    ensures |r| <= |s|
    ensures r != [] ==> !IsSpace(r[0]) && !IsSpace(r[|r| - 1])
  {
    var lo := SkipSpaceForward(s, 0);
    s[lo..SkipSpaceBackward(s, lo, |s|)]
  }

  /** A string strips to nothing exactly when it is all whitespace. */
  lemma StripEmptyIffAllSpace(s: string)
    ensures Strip(s) == [] <==> forall i :: 0 <= i < |s| ==> IsSpace(s[i])
  {
  }

  /** `Strip(s)` is a middle slice of `s`: what lies before and after it is
      whitespace. */
  lemma StripIsMiddleSlice(s: string)
    ensures exists lo, hi ::
      && 0 <= lo <= hi <= |s| && Strip(s) == s[lo..hi]
      && (forall i :: 0 <= i < lo ==> IsSpace(s[i]))
      && (forall i :: hi <= i < |s| ==> IsSpace(s[i]))
  {
    var lo := SkipSpaceForward(s, 0);
    var hi := SkipSpaceBackward(s, lo, |s|);
    assert Strip(s) == s[lo..hi];
  }

  /** Python's `not s.strip()`. */
  predicate IsBlank(s: string)
  {
    Strip(s) == []
  }
}
