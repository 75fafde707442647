/**
 * Python's substring test `needle in hay` on strings, which the form
 * encoder uses for every "label mentions code" decision.
 */
module Text {

  /** `needle` sits in `hay` starting at offset `i`. */
  predicate OccursAt(hay: string, needle: string, i: int)
    ensures OccursAt(hay, needle, i) <==>
      0 <= i && i + |needle| <= |hay| && forall k :: 0 <= k < |needle| ==> hay[i + k] == needle[k]
  {
    0 <= i && i + |needle| <= |hay| && hay[i..i + |needle|] == needle
  }

  /** `needle in hay`: some contiguous run of `hay` equals `needle`.
      The empty needle is in every string, as in Python. */
  predicate Contains(hay: string, needle: string)
    ensures needle == [] ==> Contains(hay, needle)
    ensures needle <= hay ==> Contains(hay, needle)
    ensures Contains(hay, needle) ==> |needle| <= |hay|
  {
    assert needle <= hay ==> OccursAt(hay, needle, 0);
    exists i | 0 <= i <= |hay| - |needle| :: OccursAt(hay, needle, i)
  }

  /** Containment is transitive: a run of a run of `hay` is a run of `hay`. */
  lemma ContainsTransitive(hay: string, mid: string, sub: string)
    requires Contains(hay, mid) && Contains(mid, sub)
    ensures Contains(hay, sub)
  {
    var i :| 0 <= i <= |hay| - |mid| && OccursAt(hay, mid, i);
    var j :| 0 <= j <= |mid| - |sub| && OccursAt(mid, sub, j);
    forall k | 0 <= k < |sub|
      ensures hay[i + j + k] == sub[k]
    {
      assert mid[j + k] == sub[k];
      assert hay[i + j + k] == mid[j + k];
    }
    assert OccursAt(hay, sub, i + j);
  }

  /** A needle with a character that `hay` lacks is not in `hay`. */
  lemma MissingCharExcludes(hay: string, needle: string, k: nat)
    requires k < |needle| && needle[k] !in hay
    ensures !Contains(hay, needle)
  {
  }

  /** A needle whose first two characters never stand side by side in `hay`
      is not in `hay`. */
  lemma MissingPairExcludes(hay: string, needle: string)
    requires |needle| >= 2
    requires forall i :: 0 <= i < |hay| - 1 ==> hay[i] != needle[0] || hay[i + 1] != needle[1]
    ensures !Contains(hay, needle)
  {
    forall i | 0 <= i <= |hay| - |needle|
      ensures !OccursAt(hay, needle, i)
    {
      assert hay[i] != needle[0] || hay[i + 1] != needle[1];
    }
  }
}
