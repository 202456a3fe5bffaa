/**
 * The pixel-level analyzer: a noise check, a frequency check and a colour
 * consistency check each report indicators, and the pixel score is the
 * share of four of them that fired.  The image statistics (noise spread,
 * spectrum energies, saturation and hue statistics) are inputs of the model.
 */
module PixelScore {
  import opened Common
  import opened Indicators
  import opened ArtifactScore

  // ---------------------------------------------------------------------
  // Noise and frequency
  // ---------------------------------------------------------------------

  /** The noise residual's spread, its skewness and the spread of its local
      strength over 50-pixel tiles. */
  datatype NoiseStats = NoiseStats(noiseStd: real, noiseSkewness: real, uniformityScore: real)

  datatype NoiseReport = NoiseReport(stats: NoiseStats, aiNoiseIndicator: bool)

  /** `analyze_noise_patterns`: noise that is too even across tiles is an
      AI indicator. */
  function AnalyzeNoisePatterns(n: NoiseStats): (r: NoiseReport)
    ensures r.stats == n
    ensures r.aiNoiseIndicator <==> n.uniformityScore < 10.0
  {
    NoiseReport(n, n.uniformityScore < 10.0)
  }

  /** The mean log-magnitude inside radius 20 and outside radius 100 of the
      centred spectrum, and their ratio. */
  datatype FrequencyStats = FrequencyStats(lowFreqEnergy: real, highFreqEnergy: real, freqRatio: real)

  datatype FrequencyReport = FrequencyReport(stats: FrequencyStats, aiFreqIndicator: bool)

  /** `analyze_frequency_domain`: too little high-frequency energy is an AI
      indicator. */
  function AnalyzeFrequencyDomain(f: FrequencyStats): (r: FrequencyReport)
    ensures r.stats == f
    ensures r.aiFreqIndicator <==> f.freqRatio < 0.7
  {
    FrequencyReport(f, f.freqRatio < 0.7)
  }

  // ---------------------------------------------------------------------
  // Colour consistency
  // ---------------------------------------------------------------------

  /** The mean and spread of the HSV saturation channel and the spread of
      the hue channel. */
  datatype ColorStats = ColorStats(saturationMean: real, saturationStd: real, hueStd: real)

  datatype ColorReport = ColorReport(
    stats: ColorStats,
    oversaturationIndicator: bool,
    undersaturationIndicator: bool,
    colorUniformityIndicator: bool,
    unnaturalHueIndicator: bool,
    aiColorScore: real,
    colorNaturalnessScore: real)

  /** Oversaturation, undersaturation, uniform saturation, uniform hue. */
  function ColorIndicators(c: ColorStats): (ind: seq<bool>)
    ensures |ind| == 4
  {
    [c.saturationMean > 200.0, c.saturationMean < 30.0, c.saturationStd < 15.0, c.hueStd < 10.0]
  }

  /** Moderate, varied saturation looks like a photograph. */
  predicate NaturalSaturation(c: ColorStats)
  {
    50.0 <= c.saturationMean <= 180.0 && c.saturationStd >= 25.0
  }

  /** The colour score: the share of the four indicators, damped by 40% for
      natural saturation. */
  function ColorScore(c: ColorStats): real
  {
    Share(ColorIndicators(c)) * (if NaturalSaturation(c) then 0.6 else 1.0)
  }

  /** `check_color_consistency`. */
  method CheckColorConsistency(c: ColorStats) returns (r: ColorReport)
    ensures r.stats == c
    ensures [r.oversaturationIndicator, r.undersaturationIndicator,
             r.colorUniformityIndicator, r.unnaturalHueIndicator] == ColorIndicators(c)
    ensures r.aiColorScore == ColorScore(c)
    ensures r.colorNaturalnessScore == 1.0 - r.aiColorScore
  {
    var oversaturation := c.saturationMean > 200.0;
    var undersaturation := c.saturationMean < 30.0;
    var uniformity := c.saturationStd < 15.0;
    var unnaturalHue := c.hueStd < 10.0;
    var indicators := [oversaturation, undersaturation, uniformity, unnaturalHue];
    var score := CountTrue(indicators) as real / |indicators| as real;
    if 50.0 <= c.saturationMean <= 180.0 && c.saturationStd >= 25.0 {
      score := score * 0.6;
    }
    r := ColorReport(c, oversaturation, undersaturation, uniformity, unnaturalHue, score, 1.0 - score);
  }

  /** Counting four indicators one by one. */
  lemma CountFour(a: bool, b: bool, c: bool, d: bool)
    ensures CountTrue([a, b, c, d]) == BoolCount(a) + BoolCount(b) + BoolCount(c) + BoolCount(d)
  {
    CountTrueAppend([a, b, c], d);
    CountTrueAppend([a, b], c);
    CountTrueAppend([a], b);
    CountTrueAppend([], a);
    assert [a, b, c] + [d] == [a, b, c, d];
    assert [a, b] + [c] == [a, b, c];
    assert [a] + [b] == [a, b];
    assert [] + [a] == [a];
  }

  /** Over- and undersaturation exclude each other, so the colour score is
      at most 3/4; with natural saturation only the hue indicator can fire,
      so the score is at most 0.15. */
  lemma {:induction false} ColorScoreBounds(c: ColorStats)
    ensures 0.0 <= ColorScore(c) <= 0.75
    ensures NaturalSaturation(c) ==> ColorScore(c) <= 0.15
    ensures NaturalSaturation(c) ==> (ColorScore(c) == 0.15 <==> c.hueStd < 10.0)
  {
    var ind := ColorIndicators(c);
    CountFour(ind[0], ind[1], ind[2], ind[3]);
    assert ind == [ind[0], ind[1], ind[2], ind[3]];
  }

  // ---------------------------------------------------------------------
  // The pixel score
  // ---------------------------------------------------------------------

  /** The colour section as the scorer sees it: its oversaturation and
      uniformity keys. */
  datatype ColorSection = NoColorSection | ColorSectionPresent(oversaturation: Option<bool>, uniformity: Option<bool>)

  datatype PixelResults = PixelResults(noise: Section, frequency: Section, color: ColorSection)

  datatype PixelAssessment = PixelAssessment(aiProbabilityScore: real, positiveIndicators: nat, totalIndicators: nat)

  function KeyFlag(k: Option<bool>): bool
  {
    k.Some? && k.value
  }

  /** Two indicators from a present colour section, none otherwise. */
  function ColorPart(c: ColorSection): seq<bool>
  {
    if c.ColorSectionPresent? then [KeyFlag(c.oversaturation), KeyFlag(c.uniformity)] else []
  }

  /** Noise, frequency, then oversaturation and colour uniformity. */
  function PixelIndicators(r: PixelResults): (ind: seq<bool>)
    ensures |ind| <= 4
  {
    SectionPart(r.noise) + SectionPart(r.frequency) + ColorPart(r.color)
  }

  method AppendColor(indicators: seq<bool>, c: ColorSection) returns (out: seq<bool>)
    ensures out == indicators + ColorPart(c)
  {
    out := indicators;
    if c.ColorSectionPresent? {
      out := out + [if c.oversaturation.Some? then c.oversaturation.value else false];
      out := out + [if c.uniformity.Some? then c.uniformity.value else false];
    }
  }

  /** `calculate_ai_pixel_score`. */
  method CalculateAiPixelScore(r: PixelResults) returns (a: PixelAssessment)
    ensures a.totalIndicators == |PixelIndicators(r)|
    ensures a.positiveIndicators == CountTrue(PixelIndicators(r))
    ensures a.aiProbabilityScore == Share(PixelIndicators(r))
  {
    var indicators: seq<bool> := [];
    indicators := AppendSection(indicators, r.noise);
    assert indicators == SectionPart(r.noise);
    indicators := AppendSection(indicators, r.frequency);
    indicators := AppendColor(indicators, r.color);
    var score := if |indicators| > 0 then CountTrue(indicators) as real / |indicators| as real else 0.0;
    a := PixelAssessment(score, CountTrue(indicators), |indicators|);
  }

  /** The sections of a completed pixel analysis. */
  function AnalyzedPixelResults(n: NoiseStats, f: FrequencyStats, c: ColorStats): (r: PixelResults)
    ensures Flag(r.noise) == AnalyzeNoisePatterns(n).aiNoiseIndicator
    ensures Flag(r.frequency) == AnalyzeFrequencyDomain(f).aiFreqIndicator
    ensures ColorPart(r.color) == [ColorIndicators(c)[0], ColorIndicators(c)[2]]
  {
    PixelResults(
      Present(Some(AnalyzeNoisePatterns(n).aiNoiseIndicator)),
      Present(Some(AnalyzeFrequencyDomain(f).aiFreqIndicator)),
      ColorSectionPresent(Some(ColorIndicators(c)[0]), Some(ColorIndicators(c)[2])))
  }

  /** A completed analysis scores four indicators, in [0, 1]; the
      undersaturation and hue indicators never reach the pixel score. */
  lemma CompletedPixelScore(n: NoiseStats, f: FrequencyStats, c: ColorStats, c': ColorStats)
    requires c'.saturationStd == c.saturationStd
    requires (c'.saturationMean > 200.0) == (c.saturationMean > 200.0)
    ensures |PixelIndicators(AnalyzedPixelResults(n, f, c))| == 4
    ensures 0.0 <= Share(PixelIndicators(AnalyzedPixelResults(n, f, c))) <= 1.0
    ensures PixelIndicators(AnalyzedPixelResults(n, f, c')) == PixelIndicators(AnalyzedPixelResults(n, f, c))
  {
    ShareInUnitRange(PixelIndicators(AnalyzedPixelResults(n, f, c)));
  }

  /** The pixel score is a probability and at most four indicators count. */
  lemma PixelAssessmentBounds(r: PixelResults)
    ensures 0.0 <= Share(PixelIndicators(r)) <= 1.0
    ensures CountTrue(PixelIndicators(r)) <= |PixelIndicators(r)| <= 4
  {
    ShareInUnitRange(PixelIndicators(r));
  }
}
