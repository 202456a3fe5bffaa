/**
 * The colour-balance analyzer: channel statistics give channel ratios, a
 * list of named imbalance indicators and a heuristic colour score in steps
 * of 0.2; the reported score is the larger of the imbalance score and the
 * colour score, capped at 1.  The channel statistics themselves (means,
 * spreads, skewness computed with OpenCV and SciPy) are inputs of the model.
 */
module ColorBalance {
  import opened Common
  import opened Indicators

  /** The analyzer's configuration; only the thresholds take part in the
      scoring, the five imbalance weights are carried but never read. */
  datatype ColorBalanceConfig = ColorBalanceConfig(
    histogramStdThreshold: real,
    channelDiffThreshold: real,
    dominantColorThreshold: real,
    saturationThreshold: real,
    brightnessThreshold: real,
    contrastThreshold: real,
    colorCastThreshold: real,
    imbalanceWeightHistogram: real,
    imbalanceWeightChannel: real,
    imbalanceWeightDominant: real,
    imbalanceWeightSaturation: real,
    imbalanceWeightBrightness: real)

  const DefaultConfig := ColorBalanceConfig(60.0, 20.0, 0.3, 0.6, 0.15, 40.0, 15.0, 0.35, 0.3, 0.2, 0.1, 0.05)

  /** Mean and standard deviation of one RGB channel. */
  datatype ChannelStats = ChannelStats(mean: real, std: real)

  /** The statistics the scoring reads: the three RGB channels, the spread
      of the HSV saturation, the spread of the LAB luminance and the
      skewness of the red channel. */
  datatype BalanceStats = BalanceStats(
    red: ChannelStats,
    green: ChannelStats,
    blue: ChannelStats,
    saturationStd: real,
    luminanceStd: real,
    redSkewness: real)

  /** Means and spreads of pixel values are never negative. */
  predicate ValidStats(s: BalanceStats)
  {
    s.red.mean >= 0.0 && s.green.mean >= 0.0 && s.blue.mean >= 0.0
    && s.red.std >= 0.0 && s.green.std >= 0.0 && s.blue.std >= 0.0
  }

  // ---------------------------------------------------------------------
  // Channel ratios
  // ---------------------------------------------------------------------

  datatype ChannelRatios = ChannelRatios(rToG: real, rToB: real, gToB: real)

  /** A ratio of channel means, 0 when the divisor mean is not positive. */
  function Ratio(numerator: real, divisor: real): (q: real)
    ensures divisor > 0.0 ==> q * divisor == numerator
    ensures divisor <= 0.0 ==> q == 0.0
  {
    if divisor > 0.0 then numerator / divisor else 0.0
  }

  function Ratios(s: BalanceStats): ChannelRatios
  {
    ChannelRatios(Ratio(s.red.mean, s.green.mean), Ratio(s.red.mean, s.blue.mean), Ratio(s.green.mean, s.blue.mean))
  }

  // ---------------------------------------------------------------------
  // Imbalance indicators
  // ---------------------------------------------------------------------

  /** The largest channel spread over the smallest (offset by 0.001). */
  function StdRatio(s: BalanceStats): real
    requires ValidStats(s)
  {
    Max(Max(s.red.std, s.green.std), s.blue.std) / (Min(Min(s.red.std, s.green.std), s.blue.std) + 0.001)
  }

  predicate Unnatural(ratio: real)
  {
    Abs(ratio - 1.0) > 0.15
  }

  /** The nine imbalance checks, in the order they are made. */
  function ImbalanceChecks(s: BalanceStats, c: ColorBalanceConfig): (checks: seq<bool>)
    requires ValidStats(s)
    ensures |checks| == |ImbalanceLabels|
  {
    var r := Ratios(s);
    [StdRatio(s) > 1.5,
     s.red.std < c.histogramStdThreshold,
     s.green.std < c.histogramStdThreshold,
     s.blue.std < c.histogramStdThreshold,
     Unnatural(r.rToG),
     Unnatural(r.rToB),
     Unnatural(r.gToB),
     s.saturationStd < c.saturationThreshold * 100.0,
     s.luminanceStd < c.contrastThreshold]
  }

  const UnevenChannelVariation := "uneven_channel_variation"
  const LowRedVariation := "low_red_variation"
  const LowGreenVariation := "low_green_variation"
  const LowBlueVariation := "low_blue_variation"
  const UnnaturalRgRatio := "unnatural_rg_ratio"
  const UnnaturalRbRatio := "unnatural_rb_ratio"
  const UnnaturalGbRatio := "unnatural_gb_ratio"
  const UniformSaturation := "uniform_saturation"
  const LowContrast := "low_contrast"

  /** The indicator names, in check order. */
  const ImbalanceLabels: seq<string> := [
    UnevenChannelVariation, LowRedVariation, LowGreenVariation, LowBlueVariation,
    UnnaturalRgRatio, UnnaturalRbRatio, UnnaturalGbRatio, UniformSaturation, LowContrast]

  /** No two indicator names are equal. */
  lemma LabelsDistinct()
    ensures forall i, j :: 0 <= i < j < |ImbalanceLabels| ==> ImbalanceLabels[i] != ImbalanceLabels[j]
  {
  }

  /** The names of the imbalance indicators that fire. */
  function ImbalanceIndicators(s: BalanceStats, c: ColorBalanceConfig): seq<string>
    requires ValidStats(s)
  {
    SelectedUpTo(ImbalanceChecks(s, c), ImbalanceLabels, |ImbalanceLabels|)
  }

  /** The imbalance list as the analyzer builds it, one check after another. */
  method CollectImbalanceIndicators(s: BalanceStats, c: ColorBalanceConfig) returns (names: seq<string>)
    requires ValidStats(s)
    ensures names == ImbalanceIndicators(s, c)
  {
    names := ChannelVariationChecks(s, c);
    names := AppendBalanceChecks(s, c, names);
  }

  /** The first four checks: uneven and low channel variation. */
  method ChannelVariationChecks(s: BalanceStats, c: ColorBalanceConfig) returns (names: seq<string>)
    requires ValidStats(s)
    ensures names == SelectedUpTo(ImbalanceChecks(s, c), ImbalanceLabels, 4)
  {
    ghost var checks, labels := ImbalanceChecks(s, c), ImbalanceLabels;
    names := [];
    if StdRatio(s) > 1.5 {
      names := names + [UnevenChannelVariation];
    }
    assert names == SelectedUpTo(checks, labels, 1);
    if s.red.std < c.histogramStdThreshold {
      names := names + [LowRedVariation];
    }
    assert names == SelectedUpTo(checks, labels, 2);
    if s.green.std < c.histogramStdThreshold {
      names := names + [LowGreenVariation];
    }
    assert names == SelectedUpTo(checks, labels, 3);
    if s.blue.std < c.histogramStdThreshold {
      names := names + [LowBlueVariation];
    }
    assert names == SelectedUpTo(checks, labels, 4);
  }

  /** The last five checks: channel ratios, saturation and contrast. */
  method AppendBalanceChecks(s: BalanceStats, c: ColorBalanceConfig, names0: seq<string>) returns (names: seq<string>)
    requires ValidStats(s) && names0 == SelectedUpTo(ImbalanceChecks(s, c), ImbalanceLabels, 4)
    ensures names == ImbalanceIndicators(s, c)
  {
    ghost var checks, labels := ImbalanceChecks(s, c), ImbalanceLabels;
    var r := Ratios(s);
    names := names0;
    if Abs(r.rToG - 1.0) > 0.15 {
      names := names + [UnnaturalRgRatio];
    }
    assert names == SelectedUpTo(checks, labels, 5);
    if Abs(r.rToB - 1.0) > 0.15 {
      names := names + [UnnaturalRbRatio];
    }
    assert names == SelectedUpTo(checks, labels, 6);
    if Abs(r.gToB - 1.0) > 0.15 {
      names := names + [UnnaturalGbRatio];
    }
    assert names == SelectedUpTo(checks, labels, 7);
    if s.saturationStd < c.saturationThreshold * 100.0 {
      names := names + [UniformSaturation];
    }
    assert names == SelectedUpTo(checks, labels, 8);
    if s.luminanceStd < c.contrastThreshold {
      names := names + [LowContrast];
    }
    assert names == SelectedUpTo(checks, labels, 9);
  }

  /** The imbalance score: the number of indicators over 8. */
  function ImbalanceScore(names: seq<string>): real
  {
    |names| as real / 8.0
  }

  /** Each label is reported exactly when its check holds; at most nine
      fire, so the imbalance score can reach 9/8. */
  lemma ImbalanceIndicatorsExact(s: BalanceStats, c: ColorBalanceConfig, k: nat)
    requires ValidStats(s) && k < |ImbalanceLabels|
    ensures ImbalanceLabels[k] in ImbalanceIndicators(s, c) <==> ImbalanceChecks(s, c)[k]
    ensures 0.0 <= ImbalanceScore(ImbalanceIndicators(s, c)) <= 1.125
  {
    LabelsDistinct();
    SelectedExactly(ImbalanceChecks(s, c), ImbalanceLabels, |ImbalanceLabels|, k);
  }

  /** Dark, colour-cast, flat images fire all nine checks: the imbalance
      score, normalised by 8, reaches 1.125. */
  lemma NineIndicatorsExceedOne()
    ensures var s := BalanceStats(ChannelStats(10.0, 10.0), ChannelStats(50.0, 20.0), ChannelStats(100.0, 30.0), 10.0, 10.0, 0.0);
      && ValidStats(s)
      && ImbalanceScore(ImbalanceIndicators(s, DefaultConfig)) == 1.125
  {
    var s := BalanceStats(ChannelStats(10.0, 10.0), ChannelStats(50.0, 20.0), ChannelStats(100.0, 30.0), 10.0, 10.0, 0.0);
    var checks := ImbalanceChecks(s, DefaultConfig);
    assert StdRatio(s) == 30.0 / 10.001;
    assert forall i :: 0 <= i < |checks| ==> checks[i];
    SelectedAll(checks, ImbalanceLabels, |checks|);
  }

  // ---------------------------------------------------------------------
  // The colour score
  // ---------------------------------------------------------------------

  /** The four colour conditions: a dark red channel, a strongly skewed red
      channel, red weak against both green and blue, and a saturation
      spread outside [25, 55]. */
  function ColorConditions(s: BalanceStats): nat
  {
    var r := Ratios(s);
    BoolCount(s.red.mean < 50.0) + BoolCount(s.redSkewness > 2.0)
    + BoolCount(r.rToG < 0.7 && r.rToB < 0.7)
    + BoolCount(s.saturationStd > 55.0 || s.saturationStd < 25.0)
  }

  /** The number of 0.2 steps: one per condition, and one more when there is
      no imbalance at all but some condition holds. */
  function ColorSteps(s: BalanceStats, imbalanceScore: real): (k: nat)
    ensures k <= 5
    ensures k == 5 ==> imbalanceScore == 0.0
    ensures imbalanceScore == 0.0 ==> k != 1
  {
    var base := ColorConditions(s);
    base + (if imbalanceScore == 0.0 && base > 0 then 1 else 0)
  }

  /** `ai_color_score` accumulated in steps of 0.2. */
  method AccumulateColorScore(s: BalanceStats, imbalanceScore: real) returns (score: real)
    ensures score == ColorSteps(s, imbalanceScore) as real * 0.2
    ensures 0.0 <= score <= 1.0
  {
    var r := Ratios(s);
    score := 0.0;
    ghost var steps: nat := 0;
    if s.red.mean < 50.0 {
      score, steps := score + 0.2, steps + 1;
    }
    if s.redSkewness > 2.0 {
      score, steps := score + 0.2, steps + 1;
    }
    if r.rToG < 0.7 && r.rToB < 0.7 {
      score, steps := score + 0.2, steps + 1;
    }
    if s.saturationStd > 55.0 || s.saturationStd < 25.0 {
      score, steps := score + 0.2, steps + 1;
    }
    assert steps == ColorConditions(s) && score == steps as real * 0.2;
    if imbalanceScore == 0.0 && score > 0.0 {
      score, steps := score + 0.2, steps + 1;
    }
  }

  /** The reported score: the larger of the two scores, capped at 1 (the
      rounding to two decimals is not modelled). */
  function FinalScore(imbalanceScore: real, colorScore: real): (f: real)
    requires imbalanceScore >= 0.0
    ensures 0.0 <= f <= 1.0
    ensures f >= Min(colorScore, 1.0) && f >= Min(imbalanceScore, 1.0)
  {
    Min(Max(imbalanceScore, colorScore), 1.0)
  }

  // ---------------------------------------------------------------------
  // The analysis
  // ---------------------------------------------------------------------

  datatype ColorBalanceResult =
    | LoadError
    | Balanced(channelRatios: ChannelRatios, imbalanceIndicators: seq<string>, imbalanceScore: real, aiColorScore: real)

  /** `analyze_color_balance`: None stands for an image that cannot be read. */
  method AnalyzeColorBalance(image: Option<BalanceStats>, c: ColorBalanceConfig) returns (result: ColorBalanceResult)
    requires image.Some? ==> ValidStats(image.value)
    ensures result.LoadError? <==> image.None?
    ensures result.Balanced? ==>
      && result.channelRatios == Ratios(image.value)
      && result.imbalanceIndicators == ImbalanceIndicators(image.value, c)
      && result.imbalanceScore == ImbalanceScore(result.imbalanceIndicators)
      && result.aiColorScore == FinalScore(result.imbalanceScore, ColorSteps(image.value, result.imbalanceScore) as real * 0.2)
      && 0.0 <= result.aiColorScore <= 1.0
  {
    if image.None? {
      return LoadError;
    }
    var s := image.value;
    var names := CollectImbalanceIndicators(s, c);
    var imbalance := |names| as real / 8.0;
    var colorScore := AccumulateColorScore(s, imbalance);
    result := Balanced(Ratios(s), names, imbalance, Min(Max(imbalance, colorScore), 1.0));
  }
}
