/**
 * Percentile ranking of the raw risk column. When all raw risks are equal
 * (including batches of zero or one provider) every score is 0. Otherwise
 * each provider gets its average-tie rank as a percentage of the batch
 * size: 100 * (#less + (#equal + 1) / 2) / n, where #less and #equal count
 * the raw risks below and equal to its own. The rank is kept doubled, as
 * the integer 2 * #less + #equal + 1, so that scores compare by integers.
 */
module Ranking {
  import opened Permutations
  import opened Stats

  /** How an entry compares with a reference value. */
  datatype Relation = Below | Same

  predicate Holds(rel: Relation, v: real, x: real)
  {
    match rel
    case Below => v < x
    case Same => v == x
  }

  /** Number of entries v of s for which Holds(rel, v, x). */
  function Count(s: seq<real>, x: real, rel: Relation): (c: nat)
    ensures c <= |s|
  {
    if |s| == 0 then 0
    else (if Holds(rel, s[0], x) then 1 else 0) + Count(s[1..], x, rel)
  }

  /**
   * Twice the 1-based average rank of x in s: the tied group of x occupies
   * positions #below + 1 .. #below + #equal in sorted order, and the sum of
   * the first and last of these is 2 * #below + #equal + 1.
   */
  function TwiceRank(s: seq<real>, x: real): nat
  {
    2 * Count(s, x, Below) + Count(s, x, Same) + 1
  }

  /** Every entry of s equals every other one. */
  predicate AllEqual(s: seq<real>)
  {
    forall i, j :: 0 <= i < |s| && 0 <= j < |s| ==> s[i] == s[j]
  }

  /** At most one distinct value occurs in s, counted as: every entry equals the first. */
  predicate SingleValued(s: seq<real>)
  {
    |s| == 0 || Count(s, s[0], Same) == |s|
  }

  /** A twice-rank as a percentage of the batch size n: 100 * (twiceRank / 2) / n. */
  function Percent(twiceRank: int, n: nat): real
    requires n > 0
  {
    (50 * twiceRank) as real / (n as real)
  }

  /** The percentile score of every entry of the raw risk column. */
  function PercentileScores(raw: seq<real>): (scores: seq<real>)
    ensures |scores| == |raw|
  {
    if SingleValued(raw) then seq(|raw|, _ => 0.0)
    else seq(|raw|, i requires 0 <= i < |raw| => Percent(TwiceRank(raw, raw[i]), |raw|))
  }

  /** All entries equal x exactly when all of them count as equal to x. */
  lemma {:induction false} CountSameAll(s: seq<real>, x: real)
    ensures Count(s, x, Same) == |s| <==> forall i :: 0 <= i < |s| ==> s[i] == x
  {
    if |s| > 0 {
      CountSameAll(s[1..], x);
      if forall i :: 0 <= i < |s| ==> s[i] == x {
        assert forall i :: 0 <= i < |s[1..]| ==> s[1..][i] == x;
      }
      if Count(s, x, Same) == |s| {
        assert s[0] == x;
        forall i | 0 <= i < |s|
          ensures s[i] == x
        {
          if i > 0 {
            assert s[i] == s[1..][i - 1];
          }
        }
      }
    }
  }

  /** The counting test for "one distinct value" agrees with "all entries are equal". */
  lemma SingleValuedIffAllEqual(s: seq<real>)
    ensures SingleValued(s) <==> AllEqual(s)
  {
    if |s| > 0 {
      CountSameAll(s, s[0]);
    }
  }

  /** The score of entry i: 0 when all raw risks are equal, its rank as a percentage otherwise. */
  lemma ScoreAt(raw: seq<real>, i: int)
    requires 0 <= i < |raw|
    ensures AllEqual(raw) ==> PercentileScores(raw)[i] == 0.0
    ensures !AllEqual(raw) ==> PercentileScores(raw)[i] == Percent(TwiceRank(raw, raw[i]), |raw|)
  {
    SingleValuedIffAllEqual(raw);
  }

  /** Converting ranks to percentages keeps their order and their sign. */
  lemma PercentMonotone(a: int, b: int, n: nat)
    requires n > 0
    ensures a <= b ==> Percent(a, n) <= Percent(b, n)
    ensures a < b ==> Percent(a, n) < Percent(b, n)
    ensures a > 0 ==> Percent(a, n) > 0.0
  {
    DivideOrder((50 * a) as real, (50 * b) as real, n as real);
  }

  /** The top rank of a batch of n (twice-rank 2n) is 100 percent. */
  lemma PercentOfTopRank(n: nat)
    requires n > 0
    ensures Percent(2 * n, n) == 100.0
  {
    var d := n as real;
    assert (50 * (2 * n)) as real == 100.0 * d;
    assert 100.0 * d / d == 100.0;
  }

  lemma {:induction false} CountAppend(a: seq<real>, b: seq<real>, x: real, rel: Relation)
    ensures Count(a + b, x, rel) == Count(a, x, rel) + Count(b, x, rel)
  {
    if |a| == 0 {
      assert a + b == b;
    } else {
      assert (a + b)[0] == a[0];
      assert (a + b)[1..] == a[1..] + b;
      CountAppend(a[1..], b, x, rel);
    }
  }

  /** No entry is both below and equal to x. */
  lemma {:induction false} CountsWithinLength(s: seq<real>, x: real)
    ensures Count(s, x, Below) + Count(s, x, Same) <= |s|
  {
    if |s| > 0 {
      CountsWithinLength(s[1..], x);
    }
  }

  /** A value that occurs in s is counted as equal at least once. */
  lemma {:induction false} CountSameOfMember(s: seq<real>, i: int)
    requires 0 <= i < |s|
    ensures Count(s, s[i], Same) >= 1
  {
    if i > 0 {
      CountSameOfMember(s[1..], i - 1);
    }
  }

  /** Entries below a or equal to a are all below any b > a. */
  lemma {:induction false} CountBelowGrows(s: seq<real>, a: real, b: real)
    requires a < b
    ensures Count(s, b, Below) >= Count(s, a, Below) + Count(s, a, Same)
  {
    if |s| > 0 {
      CountBelowGrows(s[1..], a, b);
    }
  }

  /** If every entry is below x then all of them count as below and none as equal. */
  lemma {:induction false} CountAllBelow(s: seq<real>, x: real)
    requires forall k :: 0 <= k < |s| ==> s[k] < x
    ensures Count(s, x, Below) == |s| && Count(s, x, Same) == 0
  {
    if |s| > 0 {
      CountAllBelow(s[1..], x);
    }
  }

  /** Removing entry j lowers a count by what that entry contributed. */
  lemma CountRemoveAt(t: seq<real>, j: int, x: real, rel: Relation)
    requires 0 <= j < |t|
    ensures Count(t, x, rel) == Count([t[j]], x, rel) + Count(t[..j] + t[j + 1..], x, rel)
  {
    assert t == t[..j] + [t[j]] + t[j + 1..];
    CountAppend(t[..j] + [t[j]], t[j + 1..], x, rel);
    CountAppend(t[..j], [t[j]], x, rel);
    CountAppend(t[..j], t[j + 1..], x, rel);
  }

  /** Counts depend only on the multiset of entries, not on their order. */
  lemma {:induction false} CountPermutation(s: seq<real>, t: seq<real>, x: real, rel: Relation)
    requires multiset(s) == multiset(t)
    ensures Count(s, x, rel) == Count(t, x, rel)
    decreases |s|
  {
    if |s| == 0 {
      assert |t| == |multiset(t)| == 0;
    } else {
      var j := MatchingIndex(s, t);
      PermutationTail(s, t, j);
      CountPermutation(s[1..], t[..j] + t[j + 1..], x, rel);
      CountRemoveAt(t, j, x, rel);
    }
  }

  /** If a multiset's entries are all equal in one order, they are in any order. */
  lemma AllEqualPermutation(s: seq<real>, t: seq<real>)
    requires multiset(s) == multiset(t) && AllEqual(s)
    ensures AllEqual(t)
  {
    forall a, b | 0 <= a < |t| && 0 <= b < |t|
      ensures t[a] == t[b]
    {
      assert t[a] in multiset(s) && t[b] in multiset(s);
      var a' :| 0 <= a' < |s| && s[a'] == t[a];
      var b' :| 0 <= b' < |s| && s[b'] == t[b];
    }
  }

  /** Every member's average rank lies between 1 and the batch size. */
  lemma TwiceRankBounds(s: seq<real>, i: int)
    requires 0 <= i < |s|
    ensures 2 <= TwiceRank(s, s[i]) <= 2 * |s|
  {
    CountSameOfMember(s, i);
    CountsWithinLength(s, s[i]);
  }

  /** A strictly larger value has a strictly larger average rank. */
  lemma TwiceRankStrictlyMonotone(s: seq<real>, i: int, j: int)
    requires 0 <= i < |s| && 0 <= j < |s| && s[i] < s[j]
    ensures TwiceRank(s, s[i]) < TwiceRank(s, s[j])
  {
    CountSameOfMember(s, i);
    CountBelowGrows(s, s[i], s[j]);
  }

  /**
   * Scores lie in [0, 100]; they are all 0 when the raw risks are all equal,
   * and otherwise all strictly positive, so a score is 0 exactly when there
   * is no dispersion to rank.
   */
  lemma ScoresInRange(raw: seq<real>, i: int)
    requires 0 <= i < |raw|
    ensures 0.0 <= PercentileScores(raw)[i] <= 100.0
    ensures PercentileScores(raw)[i] == 0.0 <==> AllEqual(raw)
  {
    ScoreAt(raw, i);
    if !AllEqual(raw) {
      TwiceRankBounds(raw, i);
      PercentMonotone(TwiceRank(raw, raw[i]), 2 * |raw|, |raw|);
      PercentOfTopRank(|raw|);
    }
  }

  /** Equal raw risks get equal scores; a strictly larger raw risk gets a strictly larger score. */
  lemma ScoresFollowRawRisk(raw: seq<real>, i: int, j: int)
    requires 0 <= i < |raw| && 0 <= j < |raw|
    ensures raw[i] == raw[j] ==> PercentileScores(raw)[i] == PercentileScores(raw)[j]
    ensures raw[i] < raw[j] ==> PercentileScores(raw)[i] < PercentileScores(raw)[j]
  {
    ScoreAt(raw, i);
    ScoreAt(raw, j);
    if raw[i] < raw[j] {
      TwiceRankStrictlyMonotone(raw, i, j);
      PercentMonotone(TwiceRank(raw, raw[i]), TwiceRank(raw, raw[j]), |raw|);
    }
  }

  /** A raw risk strictly greater than every other one scores exactly 100. */
  lemma UniqueMaximumScoresHundred(raw: seq<real>, i: int)
    requires 0 <= i < |raw| && |raw| >= 2
    requires forall k :: 0 <= k < |raw| && k != i ==> raw[k] < raw[i]
    ensures PercentileScores(raw)[i] == 100.0
  {
    var x := raw[i];
    var other := if i == 0 then 1 else 0;
    assert raw[other] != raw[i];
    var left, right := raw[..i], raw[i + 1..];
    assert raw == left + [x] + right;
    forall k | 0 <= k < |left| ensures left[k] < x {
      assert left[k] == raw[k];
    }
    forall k | 0 <= k < |right| ensures right[k] < x {
      assert right[k] == raw[i + 1 + k];
    }
    CountAllBelow(left, x);
    CountAllBelow(right, x);
    CountAppend(left + [x], right, x, Below);
    CountAppend(left + [x], right, x, Same);
    CountAppend(left, [x], x, Below);
    CountAppend(left, [x], x, Same);
    assert TwiceRank(raw, x) == 2 * |raw|;
    ScoreAt(raw, i);
    PercentOfTopRank(|raw|);
  }

  /** The average rank of a value depends only on the multiset of entries. */
  lemma TwiceRankPermutation(s: seq<real>, t: seq<real>, x: real)
    requires multiset(s) == multiset(t)
    ensures TwiceRank(s, x) == TwiceRank(t, x)
  {
    CountPermutation(s, t, x, Below);
    CountPermutation(s, t, x, Same);
  }

  /** Reordering the raw risks reorders the scores with them: a score depends only on the value and the multiset of values. */
  lemma ScoresIndependentOfOrder(raw: seq<real>, other: seq<real>, i: int, j: int)
    requires multiset(raw) == multiset(other)
    requires 0 <= i < |raw| && 0 <= j < |other| && raw[i] == other[j]
    ensures PercentileScores(raw)[i] == PercentileScores(other)[j]
  {
    assert |raw| == |other| by {
      assert |multiset(raw)| == |multiset(other)|;
    }
    TwiceRankPermutation(raw, other, raw[i]);
    ScoreAt(raw, i);
    ScoreAt(other, j);
    if AllEqual(raw) {
      AllEqualPermutation(raw, other);
    } else if AllEqual(other) {
      AllEqualPermutation(other, raw);
    }
  }

  /** Every score of the batch lies in [0, 100]. */
  lemma AllScoresInRange(raw: seq<real>)
    ensures forall i :: 0 <= i < |raw| ==> 0.0 <= PercentileScores(raw)[i] <= 100.0
  {
    forall i | 0 <= i < |raw|
      ensures 0.0 <= PercentileScores(raw)[i] <= 100.0
    {
      ScoresInRange(raw, i);
    }
  }
}
