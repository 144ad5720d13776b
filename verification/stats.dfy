/**
 * Population statistics over a column of reals: the mean and the
 * population variance (divisor N, "ddof=0") that the one-sided
 * normalisation uses. Dafny has no square root, so a standard deviation
 * is any non-negative real whose square is the population variance
 * (IsPopStd); callers supply it.
 */
module Stats {
  import opened Permutations

  /** Sum of all entries of a column. */
  function Sum(s: seq<real>): real
  {
    if |s| == 0 then 0.0 else s[0] + Sum(s[1..])
  }

  /** Arithmetic mean; an empty column has mean 0.0 (nothing is derived from it). */
  function Mean(s: seq<real>): real
  {
    if |s| == 0 then 0.0 else Sum(s) / (|s| as real)
  }

  /** Sum of squared deviations of the entries from m. */
  function SquaredDeviations(s: seq<real>, m: real): (r: real)
    ensures r >= 0.0
  {
    if |s| == 0 then 0.0
    else
      var d := s[0] - m;
      d * d + SquaredDeviations(s[1..], m)
  }

  /** Population variance: squared deviations from the mean divided by N. */
  function PopVariance(s: seq<real>): (v: real)
    ensures v >= 0.0
  {
    if |s| == 0 then 0.0 else SquaredDeviations(s, Mean(s)) / (|s| as real)
  }

  /** std is the population standard deviation of s. */
  predicate IsPopStd(std: real, s: seq<real>)
  {
    std >= 0.0 && std * std == PopVariance(s)
  }

  /** Every entry of s is c. */
  predicate ConstantColumn(s: seq<real>, c: real)
  {
    forall i :: 0 <= i < |s| ==> s[i] == c
  }

  lemma {:induction false} SumOfConstant(s: seq<real>, c: real)
    requires ConstantColumn(s, c)
    ensures Sum(s) == (|s| as real) * c
  {
    if |s| > 0 {
      SumOfConstant(s[1..], c);
    }
  }

  lemma {:induction false} SquaredDeviationsOfConstant(s: seq<real>, c: real)
    requires ConstantColumn(s, c)
    ensures SquaredDeviations(s, c) == 0.0
  {
    if |s| > 0 {
      SquaredDeviationsOfConstant(s[1..], c);
    }
  }

  /** A constant column has that constant as its mean and no spread. */
  lemma ConstantColumnStats(s: seq<real>, c: real)
    requires |s| > 0 && ConstantColumn(s, c)
    ensures Mean(s) == c
    ensures PopVariance(s) == 0.0
  {
    SumOfConstant(s, c);
    SquaredDeviationsOfConstant(s, c);
  }

  /** The standard deviation of a column whose entries are all equal is zero. */
  lemma StdOfConstantColumn(std: real, s: seq<real>)
    requires IsPopStd(std, s)
    requires forall i, j :: 0 <= i < |s| && 0 <= j < |s| ==> s[i] == s[j]
    ensures std == 0.0
  {
    if |s| > 0 {
      ConstantColumnStats(s, s[0]);
    }
    assert std * std == 0.0;
    if std > 0.0 {
      SquareGrows(std * 0.5, std);
    }
  }

  lemma SquareGrows(a: real, b: real)
    requires 0.0 < a < b
    ensures a * a < b * b
  {
  }

  /** Dividing by a positive real keeps order and sign. */
  lemma DivideOrder(x: real, y: real, d: real)
    requires d > 0.0
    ensures x <= y ==> x / d <= y / d
    ensures x < y ==> x / d < y / d
    ensures x > 0.0 ==> x / d > 0.0
  {
    assert y / d - x / d == (y - x) / d;
  }

  /** Entries bounded by m sum to at most N*m, with equality only if all equal m. */
  lemma {:induction false} SumAtMost(s: seq<real>, m: real)
    requires forall i :: 0 <= i < |s| ==> s[i] <= m
    ensures Sum(s) <= (|s| as real) * m
    ensures Sum(s) == (|s| as real) * m ==> ConstantColumn(s, m)
  {
    if |s| > 0 {
      var rest := s[1..];
      SumAtMost(rest, m);
      assert Sum(s) == s[0] + Sum(rest);
      assert (|s| as real) * m == m + (|rest| as real) * m;
      if Sum(s) == (|s| as real) * m {
        assert s[0] == m;
        assert ConstantColumn(rest, m);
        forall i | 0 <= i < |s|
          ensures s[i] == m
        {
          if i > 0 {
            assert s[i] == rest[i - 1];
          }
        }
      }
    }
  }

  /** A column with positive variance has an entry strictly above its mean. */
  lemma PositiveVarianceHasEntryAboveMean(s: seq<real>)
    requires PopVariance(s) > 0.0
    ensures exists i :: 0 <= i < |s| && s[i] > Mean(s)
  {
    var m := Mean(s);
    if forall i :: 0 <= i < |s| ==> s[i] <= m {
      assert |s| > 0;
      assert Sum(s) == (|s| as real) * m;
      SumAtMost(s, m);
      SquaredDeviationsOfConstant(s, m);
      assert false;
    }
  }

  lemma {:induction false} SumAppend(a: seq<real>, b: seq<real>)
    ensures Sum(a + b) == Sum(a) + Sum(b)
  {
    if |a| == 0 {
      assert a + b == b;
    } else {
      SumAppend(a[1..], b);
      assert (a + b)[1..] == a[1..] + b;
    }
  }

  /** Removing entry j lowers the sum by that entry. */
  lemma SumRemoveAt(t: seq<real>, j: int)
    requires 0 <= j < |t|
    ensures Sum(t) == t[j] + Sum(t[..j] + t[j + 1..])
  {
    assert t == t[..j] + [t[j]] + t[j + 1..];
    SumAppend(t[..j] + [t[j]], t[j + 1..]);
    SumAppend(t[..j], [t[j]]);
    SumAppend(t[..j], t[j + 1..]);
  }

  /** The sum of a column does not depend on the order of its entries. */
  lemma {:induction false} SumPermutation(s: seq<real>, t: seq<real>)
    requires multiset(s) == multiset(t)
    ensures Sum(s) == Sum(t)
    decreases |s|
  {
    if |s| == 0 {
      assert |t| == |multiset(t)| == 0;
    } else {
      var j := MatchingIndex(s, t);
      PermutationTail(s, t, j);
      SumPermutation(s[1..], t[..j] + t[j + 1..]);
      SumRemoveAt(t, j);
    }
  }

  /** The squared deviation of an entry from m. */
  function SquareFrom(m: real): real -> real
  {
    v => (v - m) * (v - m)
  }

  /** The squared deviations are the sum of the column of squared deviations. */
  lemma {:induction false} SquaredDeviationsAsSum(s: seq<real>, m: real)
    ensures SquaredDeviations(s, m) == Sum(Map(SquareFrom(m), s))
  {
    if |s| > 0 {
      SquaredDeviationsAsSum(s[1..], m);
      assert Map(SquareFrom(m), s)[1..] == Map(SquareFrom(m), s[1..]);
    }
  }

  /** Mean and population variance depend only on the multiset of entries, not on their order. */
  lemma StatsPermutation(s: seq<real>, t: seq<real>)
    requires multiset(s) == multiset(t)
    ensures |s| == |t|
    ensures Mean(s) == Mean(t)
    ensures PopVariance(s) == PopVariance(t)
  {
    assert |s| == |multiset(s)| == |multiset(t)| == |t|;
    SumPermutation(s, t);
    var m := Mean(s);
    SquaredDeviationsAsSum(s, m);
    SquaredDeviationsAsSum(t, m);
    MapPermutation(SquareFrom(m), s, t);
    SumPermutation(Map(SquareFrom(m), s), Map(SquareFrom(m), t));
  }
}
