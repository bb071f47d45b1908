/**
 * The C string helpers the option and process-name code relies on: copying
 * into a fixed-size buffer with strncpy, and strcaseendswith (case-insensitive
 * suffix test, ASCII case folding).
 */
module CStrings {

  /** The first at most n characters of s: what strncpy(dst, s, n) leaves as a string. */
  function Truncate(s: string, n: nat): (r: string)
    ensures |r| == if |s| <= n then |s| else n
    ensures r == s[..|r|]
  {
    if |s| <= n then s else s[..n]
  }

  /** ASCII tolower. */
  function ToLower(c: char): (r: char)
    ensures 'A' <= c <= 'Z' ==> 'a' <= r <= 'z' && r as int - 'a' as int == c as int - 'A' as int
    ensures !('A' <= c <= 'Z') ==> r == c
  {
    if 'A' <= c <= 'Z' then (c as int - 'A' as int + 'a' as int) as char else c
  }

  /** Two characters equal up to ASCII case. */
  predicate CaseEqual(a: char, b: char)
  {
    ToLower(a) == ToLower(b)
  }

  /** strcaseendswith: s ends with suffix, ignoring ASCII case. */
  predicate CaseEndsWith(s: string, suffix: string)
  {
    |suffix| <= |s| &&
    forall i :: 0 <= i < |suffix| ==> CaseEqual(s[|s| - |suffix| + i], suffix[i])
  }

  /**
   * Case-insensitive suffixes nest: if s ends with both a and b, and b is no
   * longer than a, then a itself ends with b.
   */
  lemma CaseEndsWithNested(s: string, a: string, b: string)
    requires CaseEndsWith(s, a) && CaseEndsWith(s, b) && |b| <= |a|
    ensures CaseEndsWith(a, b)
  {
    forall i | 0 <= i < |b|
      ensures CaseEqual(a[|a| - |b| + i], b[i])
    {
      var k := |a| - |b| + i;
      assert CaseEqual(s[|s| - |a| + k], a[k]);
      assert |s| - |a| + k == |s| - |b| + i;
    }
  }
}
