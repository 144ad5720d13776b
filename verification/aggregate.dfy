/**
 * Aggregation: each provider's raw risk is the unweighted mean of its
 * per-feature contributions (one column per normalised feature). With no
 * feature columns at all the raw risk is 0 for every provider.
 */
module Aggregate {
  import opened Stats

  /** All contribution columns have n entries. */
  predicate Aligned(cols: seq<seq<real>>, n: nat)
  {
    forall k :: 0 <= k < |cols| ==> |cols[k]| == n
  }

  /** Sum of row i across the contribution columns. */
  function RowSum(cols: seq<seq<real>>, i: nat): real
    requires forall k :: 0 <= k < |cols| ==> i < |cols[k]|
  {
    if |cols| == 0 then 0.0 else cols[0][i] + RowSum(cols[1..], i)
  }

  /**
   * The raw risk of each of the n rows: the mean of that row's entries
   * across the columns (the mean times the number of columns is the
   * row's total), and 0 when there are no columns.
   */
  function RiskRaw(cols: seq<seq<real>>, n: nat): (r: seq<real>)
    requires Aligned(cols, n)
    ensures |r| == n
    ensures |cols| == 0 ==> forall i :: 0 <= i < n ==> r[i] == 0.0
    ensures forall i :: 0 <= i < n ==> r[i] * (|cols| as real) == RowSum(cols, i)
  {
    if |cols| == 0 then seq(n, _ => 0.0)
    else seq(n, i requires 0 <= i < n => RowSum(cols, i) / (|cols| as real))
  }

  /** Every entry of every column is non-negative. */
  predicate NonNegative(cols: seq<seq<real>>)
  {
    forall k, i :: 0 <= k < |cols| && 0 <= i < |cols[k]| ==> cols[k][i] >= 0.0
  }

  /** A row of non-negative entries sums to at least each entry, and to 0 only when all are 0. */
  lemma {:induction false} RowSumNonNegative(cols: seq<seq<real>>, i: nat)
    requires forall k :: 0 <= k < |cols| ==> i < |cols[k]|
    requires NonNegative(cols)
    ensures RowSum(cols, i) >= 0.0
    ensures forall k :: 0 <= k < |cols| ==> RowSum(cols, i) >= cols[k][i]
    ensures RowSum(cols, i) == 0.0 <==> forall k :: 0 <= k < |cols| ==> cols[k][i] == 0.0
  {
    if |cols| > 0 {
      var rest := cols[1..];
      RowSumNonNegative(rest, i);
      forall k | 1 <= k < |cols|
        ensures cols[k][i] == rest[k - 1][i]
      {
      }
    }
  }

  /**
   * With non-negative contributions, the raw risk of a row is non-negative,
   * is at least its largest contribution divided by the number of columns,
   * and is 0 exactly when every contribution of the row is 0.
   */
  lemma RiskRawNonNegative(cols: seq<seq<real>>, n: nat, i: nat)
    requires Aligned(cols, n) && NonNegative(cols) && i < n
    ensures RiskRaw(cols, n)[i] >= 0.0
    ensures forall k :: 0 <= k < |cols| ==> RiskRaw(cols, n)[i] * (|cols| as real) >= cols[k][i]
    ensures RiskRaw(cols, n)[i] == 0.0 <==> forall k :: 0 <= k < |cols| ==> cols[k][i] == 0.0
  {
    RowSumNonNegative(cols, i);
  }

  /** With non-negative contributions every raw risk is non-negative. */
  lemma RiskRawAllNonNegative(cols: seq<seq<real>>, n: nat)
    requires Aligned(cols, n) && NonNegative(cols)
    ensures forall i :: 0 <= i < n ==> RiskRaw(cols, n)[i] >= 0.0
  {
    forall i | 0 <= i < n
      ensures RiskRaw(cols, n)[i] >= 0.0
    {
      RiskRawNonNegative(cols, n, i);
    }
  }

  /** Row i of the columns, as a sequence of one entry per column. */
  function RowOf(cols: seq<seq<real>>, i: nat): (row: seq<real>)
    requires forall k :: 0 <= k < |cols| ==> i < |cols[k]|
    ensures |row| == |cols| && forall k :: 0 <= k < |cols| ==> row[k] == cols[k][i]
  {
    seq(|cols|, k requires 0 <= k < |cols| => cols[k][i])
  }

  /** Summing across the columns is summing the row. */
  lemma {:induction false} RowSumIsSum(cols: seq<seq<real>>, i: nat)
    requires forall k :: 0 <= k < |cols| ==> i < |cols[k]|
    ensures RowSum(cols, i) == Sum(RowOf(cols, i))
  {
    if |cols| > 0 {
      RowSumIsSum(cols[1..], i);
      assert RowOf(cols, i)[1..] == RowOf(cols[1..], i);
    }
  }
}
