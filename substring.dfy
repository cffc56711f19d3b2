/**
 Python's `needle in haystack` test on strings, the only string operation the
 scheme search uses besides equality: `needle` occurs at some position of `s`.
 */
module Substring {

  /** `needle` occurs in `s` starting at position `i`. */
  predicate OccursAt(s: string, needle: string, i: int)
  {
    0 <= i && i + |needle| <= |s| && s[i..i + |needle|] == needle
  }

  /** `needle in s`. */
  predicate Contains(s: string, needle: string)
  {
    exists i | 0 <= i <= |s| - |needle| :: OccursAt(s, needle, i)
  }

  /** Substring containment is transitive: an occurrence inside an occurrence
      is an occurrence, at the sum of the two offsets. */
  lemma ContainsTransitive(s: string, mid: string, needle: string)
    requires Contains(s, mid) && Contains(mid, needle)
    ensures Contains(s, needle)
  {
    var i :| 0 <= i <= |s| - |mid| && OccursAt(s, mid, i);
    var j :| 0 <= j <= |mid| - |needle| && OccursAt(mid, needle, j);
    forall k | 0 <= k < |needle| ensures s[i + j..i + j + |needle|][k] == needle[k] {
      calc {
        s[i + j..i + j + |needle|][k];
        s[i..i + |mid|][j + k];
        mid[j + k];
        mid[j..j + |needle|][k];
      }
    }
    assert s[i + j..i + j + |needle|] == needle;
    assert OccursAt(s, needle, i + j);
  }
}
