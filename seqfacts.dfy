/** Facts about sequences of ids shared by the selection and the score model. */
module SeqFacts {

  /** No value occurs twice (what `includes` before `push` maintains). */
  predicate NoDuplicates(s: seq<int>) {
    forall i, j :: 0 <= i < j < |s| ==> s[i] != s[j]
  }

  /** Cutting out position k removes one occurrence of s[k]. */
  lemma MultisetRemoveAt(s: seq<int>, k: int)
    requires 0 <= k < |s|
    ensures multiset(s[..k] + s[k + 1..]) == multiset(s) - multiset{s[k]}
  {
    assert s == s[..k] + [s[k]] + s[k + 1..];
  }

  /** A position at which a value of the sequence occurs. */
  lemma IndexOf(s: seq<int>, x: int) returns (j: int)
    requires x in multiset(s)
    ensures 0 <= j < |s| && s[j] == x
  {
    assert x in s;
    j :| 0 <= j < |s| && s[j] == x;
  }
}
