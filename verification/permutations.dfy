/**
 * Reordering a batch: two sequences are reorderings of each other when
 * they have the same multiset of entries. Applying a function to every
 * entry (a column computed row by row) keeps that relation.
 */
module Permutations {

  /** f applied to every entry of s, in order. */
  function Map<A, B>(f: A -> B, s: seq<A>): (r: seq<B>)
    ensures |r| == |s|
    ensures forall i :: 0 <= i < |s| ==> r[i] == f(s[i])
  {
    seq(|s|, i requires 0 <= i < |s| => f(s[i]))
  }

  /** Removing entry j removes one occurrence of its value. */
  lemma MultisetRemoveAt<T>(t: seq<T>, j: int)
    requires 0 <= j < |t|
    ensures multiset(t[..j] + t[j + 1..]) == multiset(t) - multiset{t[j]}
  {
    assert t == t[..j] + [t[j]] + t[j + 1..];
  }

  /** Taking the first entry of s and a matching entry of t from two reorderings leaves reorderings. */
  lemma PermutationTail<T>(s: seq<T>, t: seq<T>, j: int)
    requires multiset(s) == multiset(t)
    requires |s| > 0 && 0 <= j < |t| && t[j] == s[0]
    ensures multiset(s[1..]) == multiset(t[..j] + t[j + 1..])
  {
    MultisetRemoveAt(t, j);
    MultisetRemoveAt(s, 0);
    assert s[..0] + s[1..] == s[1..];
  }

  /** The first entry of s occurs somewhere in any reordering t of s. */
  lemma MatchingIndex<T>(s: seq<T>, t: seq<T>) returns (j: int)
    requires multiset(s) == multiset(t) && |s| > 0
    ensures 0 <= j < |t| && t[j] == s[0]
  {
    assert s[0] in multiset(t);
    j :| 0 <= j < |t| && t[j] == s[0];
  }

  /** Mapping entry by entry carries a reordering of the inputs over to the outputs. */
  lemma {:induction false} MapPermutation<A, B>(f: A -> B, s: seq<A>, t: seq<A>)
    requires multiset(s) == multiset(t)
    ensures multiset(Map(f, s)) == multiset(Map(f, t))
    decreases |s|
  {
    if |s| == 0 {
      assert |t| == |multiset(t)| == 0;
      assert Map(f, s) == Map(f, t) == [];
    } else {
      var j := MatchingIndex(s, t);
      var rest := t[..j] + t[j + 1..];
      PermutationTail(s, t, j);
      MapPermutation(f, s[1..], rest);
      assert Map(f, s) == [f(s[0])] + Map(f, s[1..]);
      assert Map(f, t) == Map(f, t[..j]) + [f(t[j])] + Map(f, t[j + 1..]);
      assert Map(f, rest) == Map(f, t[..j]) + Map(f, t[j + 1..]);
    }
  }
}
