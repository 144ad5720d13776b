/**
 * One-sided normalisation of a feature column: the positive part of each
 * entry's z-score against the column's population mean and standard
 * deviation. Below-average entries contribute nothing; an (effectively)
 * constant column contributes nothing at all.
 */
module Normalize {
  import opened Stats

  /** A standard deviation at or below this marks the column as constant. */
  const ConstantTolerance: real := 1e-12

  /** The positive part of x: negative values are raised to 0. */
  function ClipAtZero(x: real): (r: real)
    ensures r >= 0.0 && r >= x
    ensures x >= 0.0 ==> r == x
    ensures x <= 0.0 ==> r == 0.0
  {
    if x < 0.0 then 0.0 else x
  }

  /**
   * The positive z-scores of a column, given its population standard
   * deviation std. The result is as long as the column and never negative;
   * it is all zeros when std <= ConstantTolerance; otherwise an entry is
   * positive exactly when its value lies above the mean, and then it is the
   * distance to the mean measured in standard deviations.
   */
  function PositiveZScores(vals: seq<real>, std: real): (z: seq<real>)
    requires IsPopStd(std, vals)
    ensures |z| == |vals|
    ensures forall i :: 0 <= i < |z| ==> z[i] >= 0.0
    ensures std <= ConstantTolerance ==> forall i :: 0 <= i < |z| ==> z[i] == 0.0
    ensures std > ConstantTolerance ==>
              forall i :: 0 <= i < |z| ==> (z[i] > 0.0 <==> vals[i] > Mean(vals))
    ensures std > ConstantTolerance ==>
              forall i :: 0 <= i < |z| && vals[i] > Mean(vals) ==> z[i] * std == vals[i] - Mean(vals)
  {
    var mean := Mean(vals);
    seq(|vals|, i requires 0 <= i < |vals| => ZScore(vals[i], mean, std))
  }

  /** Within one column, a larger value never gets a smaller positive z-score. */
  lemma PositiveZScoresMonotone(vals: seq<real>, std: real, i: int, j: int)
    requires IsPopStd(std, vals)
    requires 0 <= i < |vals| && 0 <= j < |vals| && vals[i] <= vals[j]
    ensures PositiveZScores(vals, std)[i] <= PositiveZScores(vals, std)[j]
  {
    if std > ConstantTolerance {
      DivideOrder(vals[i] - Mean(vals), vals[j] - Mean(vals), std);
    }
  }

  /** A column whose entries are all equal contributes nothing. */
  lemma ConstantColumnContributesNothing(vals: seq<real>, std: real)
    requires IsPopStd(std, vals)
    requires forall i, j :: 0 <= i < |vals| && 0 <= j < |vals| ==> vals[i] == vals[j]
    ensures forall i :: 0 <= i < |vals| ==> PositiveZScores(vals, std)[i] == 0.0
  {
    StdOfConstantColumn(std, vals);
  }

  /** A column that is not treated as constant has some provider with a positive contribution. */
  lemma SpreadColumnHasPositiveEntry(vals: seq<real>, std: real)
    requires IsPopStd(std, vals) && std > ConstantTolerance
    ensures exists i :: 0 <= i < |vals| && PositiveZScores(vals, std)[i] > 0.0
  {
    assert PopVariance(vals) > 0.0 by {
      SquareGrows(ConstantTolerance, std);
    }
    PositiveVarianceHasEntryAboveMean(vals);
    var i :| 0 <= i < |vals| && vals[i] > Mean(vals);
    assert PositiveZScores(vals, std)[i] > 0.0;
  }

  /**
   * The positive z-score of one value, given its column's mean and standard
   * deviation: the row-by-row form of PositiveZScores.
   */
  function ZScore(v: real, mean: real, std: real): (z: real)
    requires std >= 0.0
    ensures z >= 0.0
    ensures std <= ConstantTolerance ==> z == 0.0
    ensures std > ConstantTolerance ==> (z > 0.0 <==> v > mean)
  {
    if std <= ConstantTolerance then 0.0 else ClipAtZero((v - mean) / std)
  }

  /** Normalising the whole column gives every entry its row-by-row z-score. */
  lemma PositiveZScoresByRow(vals: seq<real>, std: real, i: int)
    requires IsPopStd(std, vals) && 0 <= i < |vals|
    ensures PositiveZScores(vals, std)[i] == ZScore(vals[i], Mean(vals), std)
  {
  }
}
