/**
 * The whole scoring pipeline over one batch: derive the features, turn
 * each feature column into positive z-scores, average them per provider
 * into a raw risk, rank the raw risks into percentile scores and label
 * each score with its tier. The input batch is not changed; a new,
 * annotated batch of the same length is returned.
 */
module Scoring {
  import opened Stats
  import opened Features
  import opened Normalize
  import opened Aggregate
  import opened Ranking
  import opened Tiers
  import opened Permutations

  /** A scored row: the loaded columns, the derived ones and the three risk columns. */
  datatype ScoredRow = ScoredRow(
    raw: ProviderRecord,
    features: Derived,
    riskRaw: real,
    riskScore: real,
    riskLabel: Tier)

  /**
   * sds[k] is the population standard deviation of the k-th derived column
   * of an enriched batch (the columns taken in FeatureColumns order).
   */
  predicate SpreadsOf(enriched: seq<Row>, sds: seq<real>)
    requires HasFeatures(enriched)
  {
    |sds| == |FeatureColumns| &&
    forall k :: 0 <= k < |sds| ==> IsPopStd(sds[k], Column(enriched, FeatureColumns[k]))
  }

  /** sds are the standard deviations of the feature columns derived from batch. */
  predicate ValidSpreads(batch: seq<Row>, sds: seq<real>)
  {
    SpreadsOf(ComputeFeatures(batch), sds)
  }

  /** One column of positive z-scores per derived feature, all as long as the batch and non-negative. */
  function Contributions(enriched: seq<Row>, sds: seq<real>): (cols: seq<seq<real>>)
    requires HasFeatures(enriched) && SpreadsOf(enriched, sds)
    ensures |cols| == |FeatureColumns|
    ensures Aligned(cols, |enriched|) && NonNegative(cols)
  {
    seq(|FeatureColumns|, k requires 0 <= k < |FeatureColumns| =>
      PositiveZScores(Column(enriched, FeatureColumns[k]), sds[k]))
  }

  /** The raw risk column of a scored batch. */
  function RiskRaws(out: seq<ScoredRow>): (r: seq<real>)
    ensures |r| == |out| && forall i :: 0 <= i < |r| ==> r[i] == out[i].riskRaw
  {
    seq(|out|, i requires 0 <= i < |out| => out[i].riskRaw)
  }

  /** The score column of a scored batch. */
  function RiskScores(out: seq<ScoredRow>): (r: seq<real>)
    ensures |r| == |out| && forall i :: 0 <= i < |r| ==> r[i] == out[i].riskScore
  {
    seq(|out|, i requires 0 <= i < |out| => out[i].riskScore)
  }

  /**
   * Scores a batch. Every row keeps its loaded columns and gains its
   * derived features; its raw risk is non-negative, its score lies in
   * [0, 100] and is its percentile rank among the batch's raw risks, and
   * its label is the tier of its score.
   */
  function ScoreProviders(batch: seq<Row>, sds: seq<real>): (out: seq<ScoredRow>)
    requires ValidSpreads(batch, sds)
    ensures |out| == |batch|
    ensures forall i :: 0 <= i < |out| ==>
              out[i].raw == batch[i].raw && out[i].features == Derive(batch[i].raw)
    ensures forall i :: 0 <= i < |out| ==>
              out[i].riskRaw >= 0.0 && 0.0 <= out[i].riskScore <= 100.0
    ensures forall i :: 0 <= i < |out| ==> out[i].riskLabel == Label(out[i].riskScore)
    ensures RiskScores(out) == PercentileScores(RiskRaws(out))
  {
    var enriched := ComputeFeatures(batch);
    var cols := Contributions(enriched, sds);
    var raw := RiskRaw(cols, |batch|);
    var scores := PercentileScores(raw);
    RiskRawAllNonNegative(cols, |batch|);
    AllScoresInRange(raw);
    var out := seq(|batch|, i requires 0 <= i < |batch| =>
      ScoredRow(enriched[i].raw, enriched[i].derived.value, raw[i], scores[i], Label(scores[i])));
    assert RiskRaws(out) == raw;
    out
  }

  /**
   * Within one batch, equal raw risks get equal scores and labels, and a
   * strictly larger raw risk gets a strictly larger score and no lower tier.
   */
  lemma ScoresOrderedByRisk(batch: seq<Row>, sds: seq<real>, i: int, j: int)
    requires ValidSpreads(batch, sds)
    requires 0 <= i < |batch| && 0 <= j < |batch|
    ensures var out := ScoreProviders(batch, sds);
      out[i].riskRaw == out[j].riskRaw ==>
        out[i].riskScore == out[j].riskScore && out[i].riskLabel == out[j].riskLabel
    ensures var out := ScoreProviders(batch, sds);
      out[i].riskRaw < out[j].riskRaw ==>
        out[i].riskScore < out[j].riskScore && out[i].riskLabel.Level() <= out[j].riskLabel.Level()
  {
    var out := ScoreProviders(batch, sds);
    ScoresFollowRawRisk(RiskRaws(out), i, j);
    assert out[i].riskScore == RiskScores(out)[i];
    assert out[j].riskScore == RiskScores(out)[j];
    if out[i].riskScore <= out[j].riskScore {
      LabelMonotone(out[i].riskScore, out[j].riskScore);
    }
  }

  /** When every provider has the same raw risk, every score is 0 and every label is low. */
  lemma UniformRiskScoresZero(batch: seq<Row>, sds: seq<real>)
    requires ValidSpreads(batch, sds)
    requires var out := ScoreProviders(batch, sds);
      forall i, j :: 0 <= i < |out| && 0 <= j < |out| ==> out[i].riskRaw == out[j].riskRaw
    ensures var out := ScoreProviders(batch, sds);
      forall i :: 0 <= i < |out| ==> out[i].riskScore == 0.0 && out[i].riskLabel == Low
  {
    var out := ScoreProviders(batch, sds);
    assert AllEqual(RiskRaws(out));
    forall i | 0 <= i < |out|
      ensures out[i].riskScore == 0.0
    {
      ScoreAt(RiskRaws(out), i);
      assert out[i].riskScore == RiskScores(out)[i];
    }
  }

  /** A provider whose raw risk is strictly above every other provider's scores 100 and is labelled high. */
  lemma UniqueTopRiskIsHigh(batch: seq<Row>, sds: seq<real>, i: int)
    requires ValidSpreads(batch, sds)
    requires 0 <= i < |batch| && |batch| >= 2
    requires var out := ScoreProviders(batch, sds);
      forall k :: 0 <= k < |out| && k != i ==> out[k].riskRaw < out[i].riskRaw
    ensures ScoreProviders(batch, sds)[i].riskScore == 100.0
    ensures ScoreProviders(batch, sds)[i].riskLabel == High
  {
    var out := ScoreProviders(batch, sds);
    UniqueMaximumScoresHundred(RiskRaws(out), i);
    assert out[i].riskScore == RiskScores(out)[i];
  }

  /**
   * If every provider has the same derived features, no feature column has
   * any spread: every raw risk is 0, every score 0 and every label low.
   */
  lemma IdenticalFeaturesScoreZero(batch: seq<Row>, sds: seq<real>)
    requires ValidSpreads(batch, sds)
    requires forall i, j :: 0 <= i < |batch| && 0 <= j < |batch| ==>
               Derive(batch[i].raw) == Derive(batch[j].raw)
    ensures var out := ScoreProviders(batch, sds);
      forall i :: 0 <= i < |out| ==>
        out[i].riskRaw == 0.0 && out[i].riskScore == 0.0 && out[i].riskLabel == Low
  {
    var enriched := ComputeFeatures(batch);
    var cols := Contributions(enriched, sds);
    forall k, i | 0 <= k < |cols| && 0 <= i < |batch|
      ensures cols[k][i] == 0.0
    {
      var column := Column(enriched, FeatureColumns[k]);
      forall a, b | 0 <= a < |column| && 0 <= b < |column|
        ensures column[a] == column[b]
      {
        assert enriched[a].derived.value == enriched[b].derived.value;
      }
      ConstantColumnContributesNothing(column, sds[k]);
    }
    var out := ScoreProviders(batch, sds);
    forall i | 0 <= i < |batch|
      ensures out[i].riskRaw == 0.0
    {
      RiskRawNonNegative(cols, |batch|, i);
    }
    UniformRiskScoresZero(batch, sds);
  }

  /**
   * If some feature column is spread out (its standard deviation is above
   * the tolerance), some provider has a positive raw risk.
   */
  lemma SpreadFeatureGivesPositiveRisk(batch: seq<Row>, sds: seq<real>, k: int)
    requires ValidSpreads(batch, sds)
    requires 0 <= k < |sds| && sds[k] > ConstantTolerance
    ensures exists i :: 0 <= i < |batch| && ScoreProviders(batch, sds)[i].riskRaw > 0.0
  {
    var enriched := ComputeFeatures(batch);
    var cols := Contributions(enriched, sds);
    SpreadColumnHasPositiveEntry(Column(enriched, FeatureColumns[k]), sds[k]);
    var i :| 0 <= i < |batch| && cols[k][i] > 0.0;
    RiskRawNonNegative(cols, |batch|, i);
    assert ScoreProviders(batch, sds)[i].riskRaw > 0.0;
  }

  /** The mean of each feature column of an enriched batch, in FeatureColumns order. */
  function FeatureMeans(enriched: seq<Row>): (means: seq<real>)
    requires HasFeatures(enriched)
    ensures |means| == |FeatureColumns|
    ensures forall k :: 0 <= k < |means| ==> means[k] == Mean(Column(enriched, FeatureColumns[k]))
  {
    seq(|FeatureColumns|, k requires 0 <= k < |FeatureColumns| => Mean(Column(enriched, FeatureColumns[k])))
  }

  /** The contributions of one provider, given the batch's feature means and standard deviations. */
  function RowContributions(r: ProviderRecord, means: seq<real>, sds: seq<real>): (c: seq<real>)
    requires |means| == |sds| == |FeatureColumns|
    requires forall k :: 0 <= k < |sds| ==> sds[k] >= 0.0
    ensures |c| == |FeatureColumns| && forall k :: 0 <= k < |c| ==> c[k] >= 0.0
  {
    seq(|FeatureColumns|, k requires 0 <= k < |FeatureColumns| =>
      ZScore(Value(Derive(r), FeatureColumns[k]), means[k], sds[k]))
  }

  /**
   * The raw risk of one provider computed on its own, given the batch's
   * feature means and standard deviations: the mean of its contributions.
   */
  function RowRisk(r: ProviderRecord, means: seq<real>, sds: seq<real>): real
    requires |means| == |sds| == |FeatureColumns|
    requires forall k :: 0 <= k < |sds| ==> sds[k] >= 0.0
  {
    Sum(RowContributions(r, means, sds)) / (|FeatureColumns| as real)
  }

  /**
   * The column-wise pipeline and the row-by-row computation agree: a
   * provider's raw risk depends only on its own loaded columns and on the
   * batch's four feature means and standard deviations.
   */
  lemma RiskRawByRow(batch: seq<Row>, sds: seq<real>, i: int)
    requires ValidSpreads(batch, sds) && 0 <= i < |batch|
    ensures ScoreProviders(batch, sds)[i].riskRaw ==
              RowRisk(batch[i].raw, FeatureMeans(ComputeFeatures(batch)), sds)
  {
    var enriched := ComputeFeatures(batch);
    var cols := Contributions(enriched, sds);
    var means := FeatureMeans(enriched);
    forall k | 0 <= k < |cols|
      ensures cols[k][i] == RowContributions(batch[i].raw, means, sds)[k]
    {
      PositiveZScoresByRow(Column(enriched, FeatureColumns[k]), sds[k], i);
    }
    assert RowOf(cols, i) == RowContributions(batch[i].raw, means, sds);
    RowSumIsSum(cols, i);
  }

  /** A feature column of the enriched batch, computed row by row from the loaded columns. */
  lemma ColumnByRow(batch: seq<Row>, k: int)
    requires 0 <= k < |FeatureColumns|
    ensures Column(ComputeFeatures(batch), FeatureColumns[k]) ==
              Map((r: Row) => Value(Derive(r.raw), FeatureColumns[k]), batch)
  {
  }

  /**
   * Reordering the batch changes neither the feature means nor the feature
   * standard deviations: spreads valid for one order are valid for any.
   */
  lemma SpreadsIndependentOfOrder(batch: seq<Row>, other: seq<Row>, sds: seq<real>)
    requires multiset(batch) == multiset(other)
    requires ValidSpreads(batch, sds)
    ensures ValidSpreads(other, sds)
    ensures FeatureMeans(ComputeFeatures(batch)) == FeatureMeans(ComputeFeatures(other))
  {
    var eb, eo := ComputeFeatures(batch), ComputeFeatures(other);
    forall k | 0 <= k < |FeatureColumns|
      ensures Mean(Column(eb, FeatureColumns[k])) == Mean(Column(eo, FeatureColumns[k]))
      ensures PopVariance(Column(eb, FeatureColumns[k])) == PopVariance(Column(eo, FeatureColumns[k]))
    {
      var f := (r: Row) => Value(Derive(r.raw), FeatureColumns[k]);
      ColumnByRow(batch, k);
      ColumnByRow(other, k);
      MapPermutation(f, batch, other);
      StatsPermutation(Column(eb, FeatureColumns[k]), Column(eo, FeatureColumns[k]));
    }
  }

  /**
   * Scoring does not depend on the order of the batch: a provider gets the
   * same scored row (raw risk, score and label included) wherever it
   * stands in any reordering of the batch.
   */
  lemma ScoreProvidersIndependentOfOrder(batch: seq<Row>, other: seq<Row>, sds: seq<real>, i: int, j: int)
    requires multiset(batch) == multiset(other)
    requires ValidSpreads(batch, sds)
    requires 0 <= i < |batch| && 0 <= j < |other| && batch[i] == other[j]
    ensures ValidSpreads(other, sds)
    ensures ScoreProviders(batch, sds)[i] == ScoreProviders(other, sds)[j]
  {
    SpreadsIndependentOfOrder(batch, other, sds);
    var means := FeatureMeans(ComputeFeatures(batch));
    var outB, outO := ScoreProviders(batch, sds), ScoreProviders(other, sds);
    var risk := (r: Row) => RowRisk(r.raw, means, sds);
    forall a | 0 <= a < |batch|
      ensures RiskRaws(outB)[a] == Map(risk, batch)[a]
    {
      RiskRawByRow(batch, sds, a);
    }
    forall b | 0 <= b < |other|
      ensures RiskRaws(outO)[b] == Map(risk, other)[b]
    {
      RiskRawByRow(other, sds, b);
    }
    assert RiskRaws(outB) == Map(risk, batch);
    assert RiskRaws(outO) == Map(risk, other);
    MapPermutation(risk, batch, other);
    ScoresIndependentOfOrder(RiskRaws(outB), RiskRaws(outO), i, j);
    assert outB[i].riskScore == RiskScores(outB)[i];
    assert outO[j].riskScore == RiskScores(outO)[j];
  }
}
