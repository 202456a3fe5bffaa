/**
 * The final label of the verdict aggregator and its confidence.  The
 * confidence starts from the coverage of the scored methods and the
 * consistency of their scores (one minus the population variance).
 */
module Determination {
  import opened Common
  import opened VerdictStats

  /** The four labels, from most to least AI-like. */
  datatype Label = AIGenerated | LikelyAIGenerated | LikelyAuthentic | Authentic

  function LabelText(l: Label): string
  {
    match l
    case AIGenerated => "AI Generated"
    case LikelyAIGenerated => "Likely AI Generated"
    case LikelyAuthentic => "Likely Authentic"
    case Authentic => "Authentic"
  }

  /** Position on the scale from Authentic (0) to AI Generated (3). */
  function Rank(l: Label): nat
  {
    match l
    case Authentic => 0
    case LikelyAuthentic => 1
    case LikelyAIGenerated => 2
    case AIGenerated => 3
  }

  /** Fewer than four scores raise every threshold by 0.05. */
  function ThresholdAdjustment(count: nat): real
  {
    if count < 4 then 0.05 else 0.0
  }

  /** The label and confidence for a final score, given the number of scores
      and the base confidence. */
  function BalancedVerdict(score: real, count: nat, base: real): (r: (Label, real))
    ensures r.0 == AIGenerated <==> score >= 0.75 + ThresholdAdjustment(count)
    ensures r.0 == LikelyAIGenerated <==>
      0.60 + ThresholdAdjustment(count) <= score < 0.75 + ThresholdAdjustment(count)
    ensures r.0 == LikelyAuthentic <==>
      0.59 + ThresholdAdjustment(count) <= score < 0.60 + ThresholdAdjustment(count)
    ensures r.0 == Authentic <==> score < 0.59 + ThresholdAdjustment(count)
  {
    var adj := ThresholdAdjustment(count);
    if score >= 0.75 + adj then (AIGenerated, Min(0.95, base + 0.15))
    else if score >= 0.60 + adj then (LikelyAIGenerated, Min(0.85, base + 0.10))
    else if score >= 0.59 + adj then (LikelyAuthentic, Min(0.85, base + 0.10))
    else (Authentic, Min(0.40, base + 0.15))
  }

  /** For a fixed number of scores the label never moves toward Authentic
      as the score grows. */
  lemma LabelMonotone(s1: real, s2: real, count: nat, b1: real, b2: real)
    requires s1 <= s2
    ensures Rank(BalancedVerdict(s1, count, b1).0) <= Rank(BalancedVerdict(s2, count, b2).0)
  {
  }

  /** With a base confidence in [0.5, 0.99] each label's confidence has a fixed
      range, and Authentic always reports exactly 0.40. */
  lemma ConfidencePerLabel(score: real, count: nat, base: real)
    requires 0.5 <= base <= 0.99
    ensures var r := BalancedVerdict(score, count, base);
      && (r.0 == AIGenerated ==> 0.65 <= r.1 <= 0.95)
      && (r.0 == LikelyAIGenerated ==> 0.60 <= r.1 <= 0.85)
      && (r.0 == LikelyAuthentic ==> 0.60 <= r.1 <= 0.85)
      && (r.0 == Authentic ==> r.1 == 0.40)
  {
  }

  /** One minus the population variance, floored at 0; 0.5 for fewer than two scores. */
  ghost function Consistency(scores: Scores): real
  {
    if |scores| < 2 then 0.5 else Max(0.0, 1.0 - Variance(scores))
  }

  /** Two passes over the map: the mean, then the mean squared deviation. */
  method CalculateConsistency(scores: Scores) returns (consistency: real)
    ensures consistency == Consistency(scores)
    ensures 0.0 <= consistency <= 1.0
  {
    if |scores| < 2 {
      return 0.5;
    }
    var sum := SumOver(scores.Keys, ValueOf(scores));
    var mean := sum / |scores| as real;
    var variance := SumOver(scores.Keys, SquaredDeviationOf(scores, mean));
    variance := variance / |scores| as real;
    consistency := Max(0.0, 1.0 - variance);
    VarianceNonNegative(scores);
  }

  /** Scores that all agree are fully consistent. */
  lemma UnanimousScoresFullyConsistent(scores: Scores, v: real)
    requires |scores| >= 2
    requires forall k :: k in scores ==> scores[k] == v
    ensures Consistency(scores) == 1.0
  {
    MeanBounds(scores, v, v);
    var f := SquaredDeviationOf(scores, Mean(scores));
    SumBounds(scores.Keys, f, 0.0, 0.0);
  }

  /** Coverage weighted 0.7 plus consistency weighted 0.3, clamped to [0.5, 0.99]. */
  function ConfidenceOf(count: nat, totalMethods: int, consistency: real): (r: real)
    ensures totalMethods == 0 ==> r == 0.5
    ensures 0.5 <= r <= 0.99
  {
    if totalMethods == 0 then 0.5
    else Clamp((count as real / totalMethods as real) * 0.7 + consistency * 0.3, 0.5, 0.99)
  }

  method CalculateConfidence(scores: Scores, totalMethods: int) returns (confidence: real)
    ensures confidence == ConfidenceOf(|scores|, totalMethods, Consistency(scores))
    ensures 0.5 <= confidence <= 0.99
  {
    if totalMethods == 0 {
      return 0.5;
    }
    var consistencyBonus := CalculateConsistency(scores);
    confidence := ConfidenceOf(|scores|, totalMethods, consistencyBonus);
  }

  /** When every method counted has a score the coverage term is 1, so the
      base confidence is at least 0.7. */
  lemma FullCoverageConfidence(count: nat, consistency: real)
    requires count > 0 && 0.0 <= consistency <= 1.0
    ensures 0.7 <= ConfidenceOf(count, count, consistency) <= 0.99
  {
    assert count as real / count as real == 1.0;
  }

  /** The verdict and confidence for the final score over the calibrated scores. */
  method DetermineBalancedVerdict(score: real, scores: Scores) returns (verdict: Label, confidence: real)
    ensures (verdict, confidence) == BalancedVerdict(score, |scores|, ConfidenceOf(|scores|, |scores|, Consistency(scores)))
    ensures verdict == Authentic ==> confidence == 0.40
    ensures verdict != Authentic && |scores| > 0 ==> 0.80 <= confidence
  {
    var baseConfidence := CalculateConfidence(scores, |scores|);
    ConfidencePerLabel(score, |scores|, baseConfidence);
    if |scores| > 0 {
      ConsistencyInUnitInterval(scores);
      FullCoverageConfidence(|scores|, Consistency(scores));
    }
    var r := BalancedVerdict(score, |scores|, baseConfidence);
    verdict, confidence := r.0, r.1;
  }

  lemma ConsistencyInUnitInterval(scores: Scores)
    ensures 0.0 <= Consistency(scores) <= 1.0
  {
    if |scores| >= 2 {
      VarianceNonNegative(scores);
    }
  }
}
