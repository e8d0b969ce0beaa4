/** String predicates shared by the URL and path modules (Go's strings.HasPrefix / HasSuffix). */
module Text {

  predicate StartsWith(s: string, prefix: string) {
    |prefix| <= |s| && s[..|prefix|] == prefix
  }

  predicate EndsWith(s: string, suffix: string) {
    |suffix| <= |s| && s[|s| - |suffix|..] == suffix
  }

  /** A path the client can hand to Do: relative (no leading '/') and a directory (trailing '/'). */
  predicate RelativeDir(p: string) {
    |p| > 0 && p[0] != '/' && p[|p| - 1] == '/'
  }

  /** The index of the first '/' in s, or |s| when there is none. */
  function IndexOfSlash(s: string): (i: nat)
    ensures i <= |s|
  {
    if s == [] || s[0] == '/' then 0 else 1 + IndexOfSlash(s[1..])
  }

  /** In a segment without '/' followed by a '/', the first '/' is the one right after the segment. */
  lemma {:induction false} SlashEndsSegment(a: string, r: string)
    requires '/' !in a && |r| > 0 && r[0] == '/'
    ensures IndexOfSlash(a + r) == |a|
  {
    if a != [] {
      assert (a + r)[1..] == a[1..] + r;
      SlashEndsSegment(a[1..], r);
    }
  }
}
