/** Choosing the winning class from the classifier's probability vector. */
module Selection {

  /** `i` is the first position of a largest element of `s`. */
  ghost predicate IsFirstMax(s: seq<real>, i: int) {
    && 0 <= i < |s|
    && (forall j :: 0 <= j < |s| ==> s[j] <= s[i])
    && (forall j :: 0 <= j < i ==> s[j] < s[i])
  }

  /** The index `numpy.argmax` returns: a largest element, the first one on ties. */
  function ArgMax(s: seq<real>): (i: nat)
    requires |s| > 0
    ensures IsFirstMax(s, i)
  {
    if |s| == 1 then 0
    else
      var k := ArgMax(s[..|s| - 1]);
      if s[k] < s[|s| - 1] then |s| - 1 else k
  }

  /** There is only one first maximum, so `IsFirstMax` pins `ArgMax` down. */
  lemma FirstMaxUnique(s: seq<real>, i: int, k: int)
    requires IsFirstMax(s, i) && IsFirstMax(s, k)
    ensures i == k
  {
    assert s[i] <= s[k] && s[k] <= s[i];
  }

  lemma ArgMaxIsFirstMax(s: seq<real>, i: int)
    requires |s| > 0
    ensures ArgMax(s) == i <==> IsFirstMax(s, i)
  {
    if IsFirstMax(s, i) {
      FirstMaxUnique(s, i, ArgMax(s));
    }
  }
}
