/**
 * Tier classification: a percentile score is mapped to one of four ordered
 * labels by inclusive lower thresholds at 90, 70 and 40, checked from the
 * top. Every real is classified: above 100 is still high, below 0 still low.
 */
module Tiers {

  datatype Tier = Low | Medium | Elevated | High
  {
    /** The label as it appears in the scored batch. */
    function Name(): string
    {
      match this
      case Low => "low"
      case Medium => "medium"
      case Elevated => "elevated"
      case High => "high"
    }

    /** Position in the order low < medium < elevated < high. */
    function Level(): nat
    {
      match this
      case Low => 0
      case Medium => 1
      case Elevated => 2
      case High => 3
    }
  }

  const HighThreshold: real := 90.0
  const ElevatedThreshold: real := 70.0
  const MediumThreshold: real := 40.0

  /** The tier of a score: each tier is exactly the half-open band between its threshold and the next. */
  function Label(score: real): (t: Tier)
    ensures t == High <==> score >= 90.0
    ensures t == Elevated <==> 70.0 <= score < 90.0
    ensures t == Medium <==> 40.0 <= score < 70.0
    ensures t == Low <==> score < 40.0
  {
    if score >= HighThreshold then High
    else if score >= ElevatedThreshold then Elevated
    else if score >= MediumThreshold then Medium
    else Low
  }

  /** A larger score never gets a lower tier. */
  lemma LabelMonotone(a: real, b: real)
    requires a <= b
    ensures Label(a).Level() <= Label(b).Level()
  {
  }

  /** Distinct tiers carry distinct names, so the label column identifies the tier. */
  lemma NamesDistinct(t: Tier, u: Tier)
    ensures t.Name() == u.Name() <==> t == u
  {
    if t != u {
      assert t.Name()[0] != u.Name()[0] || |t.Name()| != |u.Name()|;
    }
  }

  /** The thresholds are inclusive: each boundary belongs to the tier above it. */
  lemma LabelBoundaries()
    ensures Label(90.0) == High && Label(89.999) == Elevated
    ensures Label(70.0) == Elevated && Label(69.999) == Medium
    ensures Label(40.0) == Medium && Label(39.999) == Low
    ensures Label(100.5) == High && Label(-1.0) == Low
  {
  }
}
