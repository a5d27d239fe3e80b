/** Small shared vocabulary: an optional value and the string helpers of Go's
    `strings` package that the reader uses (`HasPrefix`, `HasSuffix`). */
module Util {

  /** Go's "value or nil" and "(value, ok)" idioms. */
  datatype Option<+T> = None | Some(value: T)

  /** `strings.HasPrefix(s, prefix)`. */
  predicate HasPrefix(s: string, prefix: string)
  {
    |prefix| <= |s| && s[..|prefix|] == prefix
  }

  /** `strings.HasSuffix(s, suffix)`. */
  predicate HasSuffix(s: string, suffix: string)
  {
    |suffix| <= |s| && s[|s| - |suffix|..] == suffix
  }

  lemma HasPrefixIndex(s: string, prefix: string, i: nat)
    requires HasPrefix(s, prefix) && i < |prefix|
    ensures s[i] == prefix[i]
  {
    assert s[..|prefix|][i] == s[i];
  }

  /** A one-character suffix check reads only the last character. */
  lemma HasSuffixChar(s: string, c: char)
    ensures HasSuffix(s, [c]) <==> (|s| > 0 && s[|s| - 1] == c)
  {
    if |s| > 0 {
      assert s[|s| - 1..] == [s[|s| - 1]];
    }
  }
}
