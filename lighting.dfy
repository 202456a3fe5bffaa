/**
 * The lighting-physics analyzer: three consistency checks (shadow
 * directions, exposure, light sources) each give a score in [0, 1]; every
 * check below its threshold is an anomaly, and the AI lighting score is the
 * number of anomalies in thirds.  The image statistics (the histogram of
 * gradient angles, the brightness spread, the bright regions) are inputs of
 * the model.
 */
module Lighting {
  import opened Common
  import opened Indicators

  // ---------------------------------------------------------------------
  // Shadow directions
  // ---------------------------------------------------------------------

  /** The number of angle-histogram bins over [-pi, pi]. */
  const AngleBins: nat := 36

  function SeqSum(xs: seq<nat>): nat
  {
    if xs == [] then 0 else SeqSum(xs[..|xs| - 1]) + xs[|xs| - 1]
  }

  /** `np.max` of a non-empty histogram (0 for an empty one). */
  function SeqMax(xs: seq<nat>): (m: nat)
    ensures forall i :: 0 <= i < |xs| ==> xs[i] <= m
    ensures xs != [] ==> m in xs
  {
    if xs == [] then 0
    else
      var m := SeqMax(xs[..|xs| - 1]);
      assert forall i :: 0 <= i < |xs| - 1 ==> xs[..|xs| - 1][i] == xs[i];
      if xs[|xs| - 1] > m then xs[|xs| - 1] else m
  }

  /** Entries bounded by b add up to at most b times their number. */
  lemma {:induction false} SumBoundedBy(xs: seq<nat>, b: nat)
    requires forall i :: 0 <= i < |xs| ==> xs[i] <= b
    ensures SeqSum(xs) <= b * |xs|
  {
    if xs != [] {
      var n := |xs| - 1;
      SumBoundedBy(xs[..n], b);
      assert b * |xs| == b * n + b;
    }
  }

  /** The fullest bin holds at least the average: max times the number of
      bins is at least the total. */
  lemma MaxAtLeastMean(xs: seq<nat>)
    ensures SeqMax(xs) * |xs| >= SeqSum(xs)
  {
    SumBoundedBy(xs, SeqMax(xs));
  }

  /** A lower bound on a quotient of non-negative reals. */
  lemma RatioAtLeast(m: real, t: real, c: real)
    requires t > 0.0 && m >= c * t
    ensures m / t >= c
  {
    var q := m / t;
    assert q * t == m;
    assert (q - c) * t == m - c * t;
  }

  /** `analyze_shadow_directions` from the angle histogram: the share of the
      fullest bin, doubled and capped at 1, or 0 for an empty histogram. */
  function ShadowConsistency(hist: seq<nat>): (r: real)
    ensures 0.0 <= r <= 1.0
    ensures SeqSum(hist) == 0 ==> r == 0.0
  {
    var total := SeqSum(hist);
    var consistency := if total > 0 then SeqMax(hist) as real / total as real else 0.0;
    Min(consistency * 2.0, 1.0)
  }

  /** However evenly the angles spread, a non-empty histogram of 36 bins
      scores at least 2/36. */
  lemma ShadowConsistencyFloor(hist: seq<nat>)
    requires |hist| == AngleBins && SeqSum(hist) > 0
    ensures ShadowConsistency(hist) >= 2.0 / 36.0
  {
    MaxAtLeastMean(hist);
    RatioAtLeast(SeqMax(hist) as real, SeqSum(hist) as real, 1.0 / 36.0);
  }

  /** A histogram whose fullest bin holds half the angles scores 1. */
  lemma DominantDirectionIsConsistent(hist: seq<nat>)
    requires SeqSum(hist) > 0 && SeqMax(hist) * 2 >= SeqSum(hist)
    ensures ShadowConsistency(hist) == 1.0
  {
    RatioAtLeast(SeqMax(hist) as real, SeqSum(hist) as real, 0.5);
  }

  // ---------------------------------------------------------------------
  // Exposure and light sources
  // ---------------------------------------------------------------------

  /** `check_exposure_anomalies`: too even or too contrasty brightness fails
      the exposure check (score below 0.7). */
  function ExposureScore(brightnessStd: real): (r: real)
    ensures r < 0.7 <==> brightnessStd < 20.0 || brightnessStd > 80.0
    ensures r in {0.2, 0.3, 0.8}
  {
    if brightnessStd < 20.0 then 0.2
    else if brightnessStd > 80.0 then 0.3
    else 0.8
  }

  /** `check_light_source_consistency` from the connected-component count of
      the bright mask (the background counts as one), the number of pixels
      brighter than 200 and their spread. */
  function LightSourceConsistency(brightRegions: nat, brightPixels: nat, brightPixelStd: real): (r: real)
    ensures brightRegions < 2 ==> r == 0.7
    ensures brightRegions >= 2 && brightPixels == 0 ==> r == 0.5
    ensures 0.0 <= r
    ensures brightPixelStd >= 0.0 ==> r <= 1.0
    ensures brightRegions >= 2 && brightPixels > 0 ==> (r < 0.7 <==> brightPixelStd > 15.0)
  {
    if brightRegions < 2 then 0.7
    else if brightPixels == 0 then 0.5
    else Max(0.0, 1.0 - brightPixelStd / 50.0)
  }

  // ---------------------------------------------------------------------
  // The lighting analysis
  // ---------------------------------------------------------------------

  /** The statistics the checks read. */
  datatype LightingStats = LightingStats(
    angleHistogram: seq<nat>,
    brightnessStd: real,
    brightRegions: nat,
    brightPixels: nat,
    brightPixelStd: real)

  datatype LightingAnalysis = LightingAnalysis(
    lightSourceConsistency: real,
    shadowDirectionConsistency: real,
    exposureUniformity: real,
    aiLightingScore: real,
    anomalies: seq<string>)

  const InconsistentShadows := "Inconsistent shadow directions"
  const UnnaturalExposure := "Unnatural exposure patterns"
  const InconsistentLightSources := "Inconsistent light sources"

  const AnomalyLabels: seq<string> := [InconsistentShadows, UnnaturalExposure, InconsistentLightSources]

  /** The three checks that fail: shadows below 0.8, exposure and light
      sources below 0.7. */
  function FailedChecks(shadow: real, exposure: real, light: real): (failed: seq<bool>)
    ensures |failed| == |AnomalyLabels|
  {
    [shadow < 0.8, exposure < 0.7, light < 0.7]
  }

  /** `analyze_lighting_physics`. */
  method AnalyzeLightingPhysics(l: LightingStats) returns (a: LightingAnalysis)
    ensures a.shadowDirectionConsistency == ShadowConsistency(l.angleHistogram)
    ensures a.exposureUniformity == ExposureScore(l.brightnessStd)
    ensures a.lightSourceConsistency == LightSourceConsistency(l.brightRegions, l.brightPixels, l.brightPixelStd)
    ensures a.anomalies
      == SelectedUpTo(FailedChecks(a.shadowDirectionConsistency, a.exposureUniformity, a.lightSourceConsistency), AnomalyLabels, 3)
    ensures a.aiLightingScore == |a.anomalies| as real / 3.0
  {
    var shadow := ShadowConsistency(l.angleHistogram);
    var exposure := ExposureScore(l.brightnessStd);
    var light := LightSourceConsistency(l.brightRegions, l.brightPixels, l.brightPixelStd);
    ghost var failed := FailedChecks(shadow, exposure, light);
    var aiIndicators := 0;
    var anomalies: seq<string> := [];
    if shadow < 0.8 {
      aiIndicators := aiIndicators + 1;
      anomalies := anomalies + [InconsistentShadows];
    }
    assert anomalies == SelectedUpTo(failed, AnomalyLabels, 1);
    if exposure < 0.7 {
      aiIndicators := aiIndicators + 1;
      anomalies := anomalies + [UnnaturalExposure];
    }
    assert anomalies == SelectedUpTo(failed, AnomalyLabels, 2);
    if light < 0.7 {
      aiIndicators := aiIndicators + 1;
      anomalies := anomalies + [InconsistentLightSources];
    }
    assert anomalies == SelectedUpTo(failed, AnomalyLabels, 3);
    a := LightingAnalysis(light, shadow, exposure, aiIndicators as real / 3.0, anomalies);
  }

  /** Each anomaly is listed exactly when its check fails, and the score is
      one of 0, 1/3, 2/3 and 1. */
  lemma AnomaliesExact(shadow: real, exposure: real, light: real, k: nat)
    requires k < |AnomalyLabels|
    ensures var anomalies := SelectedUpTo(FailedChecks(shadow, exposure, light), AnomalyLabels, 3);
      && (AnomalyLabels[k] in anomalies <==> FailedChecks(shadow, exposure, light)[k])
      && |anomalies| as real / 3.0 in {0.0, 1.0 / 3.0, 2.0 / 3.0, 1.0}
  {
    SelectedExactly(FailedChecks(shadow, exposure, light), AnomalyLabels, 3, k);
  }

  /** Evenly lit, moderately contrasted images with a single light source
      and a dominant shadow direction show no anomaly. */
  lemma NaturalLightingHasNoAnomaly(l: LightingStats)
    requires 20.0 <= l.brightnessStd <= 80.0 && l.brightRegions < 2
    requires SeqSum(l.angleHistogram) > 0 && SeqMax(l.angleHistogram) * 5 >= SeqSum(l.angleHistogram) * 2
    ensures SelectedUpTo(FailedChecks(ShadowConsistency(l.angleHistogram), ExposureScore(l.brightnessStd),
                                      LightSourceConsistency(l.brightRegions, l.brightPixels, l.brightPixelStd)),
                         AnomalyLabels, 3) == []
  {
    RatioAtLeast(SeqMax(l.angleHistogram) as real, SeqSum(l.angleHistogram) as real, 0.4);
    var failed := FailedChecks(ShadowConsistency(l.angleHistogram), ExposureScore(l.brightnessStd),
                               LightSourceConsistency(l.brightRegions, l.brightPixels, l.brightPixelStd));
    assert !failed[0] && !failed[1] && !failed[2];
    assert SelectedUpTo(failed, AnomalyLabels, 1) == [];
    assert SelectedUpTo(failed, AnomalyLabels, 2) == [];
  }
}
