/**
 * Score calibration and dynamic weighting of the verdict aggregator.  Both
 * operations build a fresh map and leave their inputs untouched (Dafny maps
 * are values, so the inputs cannot change).
 */
module Calibration {
  import opened Common
  import opened Stages
  import opened VerdictStats

  /** The calibration table: a multiplier for each of the 12 stage names. */
  function CalibrationFactor(name: string): Option<real>
  {
    if name == LightingAnalysisStage then Some(1.30)
    else if name == ArtifactsStage then Some(1.05)
    else if name == AdvancedArtifactsStage then Some(0.95)
    else if name == PixelAnalysisStage then Some(0.80)
    else if name == ColorBalanceStage then Some(1.20)
    else if name == ObjectCoherenceStage then Some(1.10)
    else if name == CompressionStage then Some(0.20)
    else if name == MetadataStage then Some(1.15)
    else if name == C2PAStage then Some(0.90)
    else if name == ExifStage then Some(0.70)
    else if name == AiModelStage then Some(1.25)
    else if name == MetadataQuickStage then Some(1.08)
    else None
  }

  /** A calibrated score: scaled and capped at 1 for a table name, unchanged
      for any other name. */
  function Calibrated(name: string, score: real): (r: real)
    ensures CalibrationFactor(name).None? ==> r == score
    ensures CalibrationFactor(name).Some? ==> r == Min(1.0, score * CalibrationFactor(name).value)
    ensures CalibrationFactor(name).Some? ==> r <= 1.0
    ensures score >= 0.0 ==> r >= 0.0
    ensures 0.0 <= score <= 1.0 ==> 0.0 <= r <= 1.0
  {
    match CalibrationFactor(name)
    case Some(factor) => Min(1.0, score * factor)
    case None => score
  }

  /** Every entry calibrated on its own; the key set is kept. */
  method ApplyBalancedCalibration(scores: Scores) returns (calibrated: Scores)
    ensures calibrated.Keys == scores.Keys
    ensures forall n :: n in calibrated ==> calibrated[n] == Calibrated(n, scores[n])
  {
    calibrated := map[];
    var pending := scores.Keys;
    while pending != {}
      invariant pending <= scores.Keys
      invariant calibrated.Keys == scores.Keys - pending
      invariant forall n :: n in calibrated ==> calibrated[n] == Calibrated(n, scores[n])
      decreases pending
    {
      var name :| name in pending;
      var score := scores[name];
      var factor := CalibrationFactor(name);
      if factor.Some? {
        calibrated := calibrated[name := Min(1.0, score * factor.value)];
      } else {
        calibrated := calibrated[name := score];
      }
      assert calibrated[name] == Calibrated(name, scores[name]);
      pending := pending - {name};
    }
  }

  /** Scores that are probabilities stay probabilities after calibration. */
  lemma CalibrationKeepsUnitInterval(scores: Scores, calibrated: Scores)
    requires calibrated.Keys == scores.Keys
    requires forall n :: n in calibrated ==> calibrated[n] == Calibrated(n, scores[n])
    requires forall n :: n in scores ==> 0.0 <= scores[n] <= 1.0
    ensures forall n :: n in calibrated ==> 0.0 <= calibrated[n] <= 1.0
  {
  }

  // The five score-dependent weight factors; None leaves the weight as copied.

  function ExifFactor(scores: Scores): Option<real>
  {
    if ExifStage !in scores then None
    else if scores[ExifStage] >= 0.8 then Some(1.4)
    else if scores[ExifStage] <= 0.2 then Some(1.3)
    else None
  }

  function ColorFactor(scores: Scores): Option<real>
  {
    if ColorBalanceStage !in scores then None
    else if scores[ColorBalanceStage] >= 0.7 then Some(1.3)
    else if scores[ColorBalanceStage] <= 0.3 then Some(1.2)
    else None
  }

  function LightingFactor(scores: Scores): Option<real>
  {
    if LightingAnalysisStage in scores && scores[LightingAnalysisStage] >= 0.6 then Some(1.3) else None
  }

  function CompressionFactor(scores: Scores): Option<real>
  {
    if CompressionStage in scores && scores[CompressionStage] >= 0.4 then Some(0.5) else None
  }

  function AiModelFactor(scores: Scores): Option<real>
  {
    if AiModelStage in scores && scores[AiModelStage] >= 0.0 then Some(1.5) else None
  }

  const AdjustableNames: set<string> :=
    {ExifStage, ColorBalanceStage, LightingAnalysisStage, CompressionStage, AiModelStage}

  /** Go's `m[k] *= f`: a missing key reads as 0 and is then created. */
  function Scale(m: Scores, k: string, factor: real): (r: Scores)
    ensures r.Keys == m.Keys + {k}
    ensures r[k] == At(m, k) * factor
    ensures forall n :: n in m && n != k ==> r[n] == m[n]
  {
    m[k := At(m, k) * factor]
  }

  function AdjustWith(m: Scores, name: string, factor: Option<real>): Scores
  {
    match factor
    case Some(f) => Scale(m, name, f)
    case None => m
  }

  /** The five steps in the order the source applies them. */
  function DynamicWeights(weights: Scores, scores: Scores): Scores
  {
    var m1 := AdjustWith(weights, ExifStage, ExifFactor(scores));
    var m2 := AdjustWith(m1, ColorBalanceStage, ColorFactor(scores));
    var m3 := AdjustWith(m2, LightingAnalysisStage, LightingFactor(scores));
    var m4 := AdjustWith(m3, CompressionStage, CompressionFactor(scores));
    AdjustWith(m4, AiModelStage, AiModelFactor(scores))
  }

  /** `r` holds `name` as the base weight times `factor` (a missing base
      weight counting as 0), or exactly as in `weights` when there is no factor. */
  predicate AdjustedAs(r: Scores, weights: Scores, name: string, factor: Option<real>)
  {
    match factor
    case Some(f) => name in r && r[name] == At(weights, name) * f
    case None => (name in r <==> name in weights) && (name in weights ==> r[name] == weights[name])
  }

  /** Every adjusted name gets its own factor, every other name keeps its
      base weight, and no other key appears. */
  ghost predicate DynamicallyWeighted(r: Scores, weights: Scores, scores: Scores)
  {
    && AdjustedAs(r, weights, ExifStage, ExifFactor(scores))
    && AdjustedAs(r, weights, ColorBalanceStage, ColorFactor(scores))
    && AdjustedAs(r, weights, LightingAnalysisStage, LightingFactor(scores))
    && AdjustedAs(r, weights, CompressionStage, CompressionFactor(scores))
    && AdjustedAs(r, weights, AiModelStage, AiModelFactor(scores))
    && (forall n :: n !in AdjustableNames ==> AdjustedAs(r, weights, n, None))
  }

  lemma AdjustableNamesDistinct()
    ensures ExifStage != ColorBalanceStage && ExifStage != LightingAnalysisStage
    ensures ExifStage != CompressionStage && ExifStage != AiModelStage
    ensures ColorBalanceStage != LightingAnalysisStage && ColorBalanceStage != CompressionStage
    ensures ColorBalanceStage != AiModelStage
    ensures LightingAnalysisStage != CompressionStage && LightingAnalysisStage != AiModelStage
    ensures CompressionStage != AiModelStage
  {
  }

  /** A step for another name keeps what earlier steps gave `name`. */
  lemma KeptBy(m: Scores, weights: Scores, name: string, factor: Option<real>, step: string, stepFactor: Option<real>)
    requires name != step && AdjustedAs(m, weights, name, factor)
    ensures AdjustedAs(AdjustWith(m, step, stepFactor), weights, name, factor)
  {
  }

  lemma ExifAdjusted(weights: Scores, scores: Scores)
    ensures AdjustedAs(DynamicWeights(weights, scores), weights, ExifStage, ExifFactor(scores))
  {
    AdjustableNamesDistinct();
    var f := ExifFactor(scores);
    var m1 := AdjustWith(weights, ExifStage, f);
    var m2 := AdjustWith(m1, ColorBalanceStage, ColorFactor(scores));
    var m3 := AdjustWith(m2, LightingAnalysisStage, LightingFactor(scores));
    var m4 := AdjustWith(m3, CompressionStage, CompressionFactor(scores));
    KeptBy(m1, weights, ExifStage, f, ColorBalanceStage, ColorFactor(scores));
    KeptBy(m2, weights, ExifStage, f, LightingAnalysisStage, LightingFactor(scores));
    KeptBy(m3, weights, ExifStage, f, CompressionStage, CompressionFactor(scores));
    KeptBy(m4, weights, ExifStage, f, AiModelStage, AiModelFactor(scores));
  }

  lemma ColorAdjusted(weights: Scores, scores: Scores)
    ensures AdjustedAs(DynamicWeights(weights, scores), weights, ColorBalanceStage, ColorFactor(scores))
  {
    AdjustableNamesDistinct();
    var f := ColorFactor(scores);
    var m1 := AdjustWith(weights, ExifStage, ExifFactor(scores));
    var m2 := AdjustWith(m1, ColorBalanceStage, f);
    var m3 := AdjustWith(m2, LightingAnalysisStage, LightingFactor(scores));
    var m4 := AdjustWith(m3, CompressionStage, CompressionFactor(scores));
    KeptBy(m2, weights, ColorBalanceStage, f, LightingAnalysisStage, LightingFactor(scores));
    KeptBy(m3, weights, ColorBalanceStage, f, CompressionStage, CompressionFactor(scores));
    KeptBy(m4, weights, ColorBalanceStage, f, AiModelStage, AiModelFactor(scores));
  }

  lemma LightingAdjusted(weights: Scores, scores: Scores)
    ensures AdjustedAs(DynamicWeights(weights, scores), weights, LightingAnalysisStage, LightingFactor(scores))
  {
    AdjustableNamesDistinct();
    var f := LightingFactor(scores);
    var m1 := AdjustWith(weights, ExifStage, ExifFactor(scores));
    var m2 := AdjustWith(m1, ColorBalanceStage, ColorFactor(scores));
    var m3 := AdjustWith(m2, LightingAnalysisStage, f);
    var m4 := AdjustWith(m3, CompressionStage, CompressionFactor(scores));
    KeptBy(m3, weights, LightingAnalysisStage, f, CompressionStage, CompressionFactor(scores));
    KeptBy(m4, weights, LightingAnalysisStage, f, AiModelStage, AiModelFactor(scores));
  }

  lemma CompressionAndAiModelAdjusted(weights: Scores, scores: Scores)
    ensures AdjustedAs(DynamicWeights(weights, scores), weights, CompressionStage, CompressionFactor(scores))
    ensures AdjustedAs(DynamicWeights(weights, scores), weights, AiModelStage, AiModelFactor(scores))
  {
    AdjustableNamesDistinct();
    var f := CompressionFactor(scores);
    var m1 := AdjustWith(weights, ExifStage, ExifFactor(scores));
    var m2 := AdjustWith(m1, ColorBalanceStage, ColorFactor(scores));
    var m3 := AdjustWith(m2, LightingAnalysisStage, LightingFactor(scores));
    var m4 := AdjustWith(m3, CompressionStage, f);
    KeptBy(m4, weights, CompressionStage, f, AiModelStage, AiModelFactor(scores));
  }

  /** The steps touch distinct names, so their order does not matter. */
  lemma DynamicWeightsPointwise(weights: Scores, scores: Scores)
    ensures DynamicallyWeighted(DynamicWeights(weights, scores), weights, scores)
  {
    ExifAdjusted(weights, scores);
    ColorAdjusted(weights, scores);
    LightingAdjusted(weights, scores);
    CompressionAndAiModelAdjusted(weights, scores);
    var m1 := AdjustWith(weights, ExifStage, ExifFactor(scores));
    var m2 := AdjustWith(m1, ColorBalanceStage, ColorFactor(scores));
    var m3 := AdjustWith(m2, LightingAnalysisStage, LightingFactor(scores));
    var m4 := AdjustWith(m3, CompressionStage, CompressionFactor(scores));
    forall n | n !in AdjustableNames
      ensures AdjustedAs(DynamicWeights(weights, scores), weights, n, None)
    {
      KeptBy(weights, weights, n, None, ExifStage, ExifFactor(scores));
      KeptBy(m1, weights, n, None, ColorBalanceStage, ColorFactor(scores));
      KeptBy(m2, weights, n, None, LightingAnalysisStage, LightingFactor(scores));
      KeptBy(m3, weights, n, None, CompressionStage, CompressionFactor(scores));
      KeptBy(m4, weights, n, None, AiModelStage, AiModelFactor(scores));
    }
  }

  /** The entry-by-entry copy of the base weights. */
  method CopyWeights(weights: Scores) returns (copy: Scores)
    ensures copy == weights
  {
    copy := map[];
    var pending := weights.Keys;
    while pending != {}
      invariant pending <= weights.Keys
      invariant copy.Keys == weights.Keys - pending
      invariant forall n :: n in copy ==> copy[n] == weights[n]
      decreases pending
    {
      var name :| name in pending;
      copy := copy[name := weights[name]];
      pending := pending - {name};
    }
  }

  /** A copy of the weights with the five score-dependent adjustments. */
  method ApplyDynamicWeights(weights: Scores, scores: Scores) returns (adjusted: Scores)
    ensures adjusted == DynamicWeights(weights, scores)
  {
    adjusted := CopyWeights(weights);

    ghost var before := adjusted;
    if ExifStage in scores {
      var exifScore := scores[ExifStage];
      if exifScore >= 0.8 {
        adjusted := Scale(adjusted, ExifStage, 1.4);
      } else if exifScore <= 0.2 {
        adjusted := Scale(adjusted, ExifStage, 1.3);
      }
    }
    assert adjusted == AdjustWith(before, ExifStage, ExifFactor(scores));
    before := adjusted;
    if ColorBalanceStage in scores {
      var colorScore := scores[ColorBalanceStage];
      if colorScore >= 0.7 {
        adjusted := Scale(adjusted, ColorBalanceStage, 1.3);
      } else if colorScore <= 0.3 {
        adjusted := Scale(adjusted, ColorBalanceStage, 1.2);
      }
    }
    assert adjusted == AdjustWith(before, ColorBalanceStage, ColorFactor(scores));
    before := adjusted;
    if LightingAnalysisStage in scores && scores[LightingAnalysisStage] >= 0.6 {
      adjusted := Scale(adjusted, LightingAnalysisStage, 1.3);
    }
    assert adjusted == AdjustWith(before, LightingAnalysisStage, LightingFactor(scores));
    before := adjusted;
    if CompressionStage in scores && scores[CompressionStage] >= 0.4 {
      adjusted := Scale(adjusted, CompressionStage, 0.5);
    }
    assert adjusted == AdjustWith(before, CompressionStage, CompressionFactor(scores));
    before := adjusted;
    if AiModelStage in scores && scores[AiModelStage] >= 0.0 {
      adjusted := Scale(adjusted, AiModelStage, 1.5);
    }
    assert adjusted == AdjustWith(before, AiModelStage, AiModelFactor(scores));
  }

  /** A scored method that has no base weight gets weight 0 when it is adjusted. */
  lemma MissingWeightBecomesZero(weights: Scores, scores: Scores)
    requires AiModelStage !in weights && AiModelStage in scores && scores[AiModelStage] >= 0.0
    ensures var r := DynamicWeights(weights, scores);
      AiModelStage in r && r[AiModelStage] == 0.0
  {
    DynamicWeightsPointwise(weights, scores);
  }
}
