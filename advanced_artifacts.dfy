/**
 * The advanced artifact analyzer: three detectors (AI-specific patterns,
 * compression history, synthetic noise) each report one indicator, and the
 * advanced assessment is the share of indicators that fired.  The image
 * statistics the detectors compute (spectra, local binary patterns, JPEG
 * re-encodings, noise autocorrelation) are inputs of the model.
 */
module AdvancedArtifacts {
  import opened Common
  import opened Indicators
  import opened ArtifactScore

  // ---------------------------------------------------------------------
  // AI-specific patterns
  // ---------------------------------------------------------------------

  /** The frequency balance, the texture consistency and the gradient
      uniformity of an image. */
  datatype PatternStats = PatternStats(frequencyBalance: real, textureConsistency: real, gradientUniformity: real)

  datatype PatternReport = PatternReport(
    stats: PatternStats,
    aiPatternIndicator: bool,
    spectralAnomalyScore: real,
    textureAnomalyScore: real,
    gradientAnomalyScore: real)

  /** `detect_ai_specific_patterns` from the statistics: flags weak high
      frequencies, incoherent textures or flat gradients, and repeats the
      three statistics as anomaly scores. */
  function DetectAiPatterns(s: PatternStats): (r: PatternReport)
    ensures r.aiPatternIndicator <==>
      s.frequencyBalance < 0.5 || s.textureConsistency > 20.0 || s.gradientUniformity < 10.0
    ensures r.spectralAnomalyScore == s.frequencyBalance
    ensures r.textureAnomalyScore == s.textureConsistency
    ensures r.gradientAnomalyScore == s.gradientUniformity
  {
    PatternReport(s,
      s.frequencyBalance < 0.5 || s.textureConsistency > 20.0 || s.gradientUniformity < 10.0,
      s.frequencyBalance, s.textureConsistency, s.gradientUniformity)
  }

  // ---------------------------------------------------------------------
  // Compression history
  // ---------------------------------------------------------------------

  /** The JPEG qualities the image is re-encoded at, highest first. */
  const JpegQualities: seq<nat> := [95, 85, 75, 65, 55]

  /** `np.diff`: the differences of neighbouring entries. */
  function Diffs(xs: seq<real>): (d: seq<real>)
    requires xs != []
    ensures |d| == |xs| - 1
    ensures forall i :: 0 <= i < |d| ==> d[i] == xs[i + 1] - xs[i]
  {
    if |xs| == 1 then [] else Diffs(xs[..|xs| - 1]) + [xs[|xs| - 1] - xs[|xs| - 2]]
  }

  /** The differences of neighbours add up to the last entry minus the first. */
  lemma {:induction false} DiffsTelescope(xs: seq<real>)
    requires xs != []
    ensures SeqTotal(Diffs(xs)) == xs[|xs| - 1] - xs[0]
  {
    if |xs| > 1 {
      var init := xs[..|xs| - 1];
      DiffsTelescope(init);
      assert Diffs(xs)[..|xs| - 2] == Diffs(init);
    }
  }

  datatype TimelineReport = TimelineReport(
    compressionResistance: real,
    likelyRecompressed: bool,
    compressionTimelineScore: real,
    compressionArtifactsProgression: seq<real>)

  /** `detect_compression_timeline` from the mean squared errors of the
      re-encodings, one per quality: the resistance is the mean of their
      differences, which is the change from the best to the worst quality
      over four steps, so the image counts as recompressed exactly when the
      error at quality 55 lies more than 40 below the error at quality 95. */
  function DetectCompressionTimeline(mse: seq<real>): (r: TimelineReport)
    requires |mse| == |JpegQualities|
    ensures r.compressionResistance == (mse[4] - mse[0]) / 4.0
    ensures r.likelyRecompressed <==> mse[4] - mse[0] < -40.0
    ensures r.compressionTimelineScore == r.compressionResistance
    ensures r.compressionArtifactsProgression == mse
  {
    var d := Diffs(mse);
    var resistance := SeqTotal(d) / |d| as real;
    DiffsTelescope(mse);
    TimelineReport(resistance, resistance < -10.0, resistance, mse)
  }

  // ---------------------------------------------------------------------
  // Synthetic noise
  // ---------------------------------------------------------------------

  /** The autocorrelation peak of the noise residual, the flatness of its
      spectrum and the spread of its local strength. */
  datatype NoiseStats = NoiseStats(autocorrPeak: real, spectrumFlatness: real, noiseUniformity: real)

  datatype NoiseReport = NoiseReport(stats: NoiseStats, syntheticNoiseIndicator: bool, noiseAnalysisScore: real)

  function NoiseScore(n: NoiseStats): real
  {
    (n.autocorrPeak + (1.0 - n.noiseUniformity / 5.0)) / 2.0
  }

  /** `detect_synthetic_noise` from the statistics: strongly self-similar or
      very even noise is synthetic; an unflagged image scores at most 0.8. */
  function DetectSyntheticNoise(n: NoiseStats): (r: NoiseReport)
    ensures r.syntheticNoiseIndicator <==> n.autocorrPeak > 0.8 || n.noiseUniformity < 1.0
    ensures r.noiseAnalysisScore == NoiseScore(n)
    ensures !r.syntheticNoiseIndicator ==> r.noiseAnalysisScore <= 0.8
  {
    NoiseReport(n, n.autocorrPeak > 0.8 || n.noiseUniformity < 1.0, NoiseScore(n))
  }

  /** The noise score grows with the autocorrelation peak and falls as the
      noise becomes less uniform. */
  lemma NoiseScoreMonotone(n: NoiseStats, m: NoiseStats)
    requires n.autocorrPeak <= m.autocorrPeak && n.noiseUniformity >= m.noiseUniformity
    ensures NoiseScore(n) <= NoiseScore(m)
  {
  }

  /** The template is cut from the residual it is matched against, so the
      normalised match peaks at 1 wherever the template has any variance;
      with that peak the indicator always fires. */
  lemma SelfTemplatePeakFlags(n: NoiseStats)
    requires n.autocorrPeak == 1.0
    ensures DetectSyntheticNoise(n).syntheticNoiseIndicator
    ensures DetectSyntheticNoise(n).noiseAnalysisScore == 1.0 - n.noiseUniformity / 10.0
  {
  }

  // ---------------------------------------------------------------------
  // The advanced assessment
  // ---------------------------------------------------------------------

  /** The three result sections as the scorer sees them. */
  datatype AdvancedResults = AdvancedResults(aiPatterns: Section, compressionTimeline: Section, syntheticNoise: Section)

  datatype AdvancedAssessment = AdvancedAssessment(
    advancedAiProbability: real,
    advancedConfidence: real,
    unnaturalPatterns: bool,
    compressionHistory: bool,
    syntheticNoise: bool)

  /** One indicator per present section: patterns, timeline, noise. */
  function AdvancedIndicators(r: AdvancedResults): (ind: seq<bool>)
    ensures |ind| <= 3
  {
    SectionPart(r.aiPatterns) + SectionPart(r.compressionTimeline) + SectionPart(r.syntheticNoise)
  }

  /** `calculate_advanced_ai_score`: the share of fired indicators, the
      number of indicators over 3, and each section's flag (False when the
      section or its key is missing). */
  method CalculateAdvancedAiScore(r: AdvancedResults) returns (a: AdvancedAssessment)
    ensures a.advancedAiProbability == Share(AdvancedIndicators(r))
    ensures a.advancedConfidence == |AdvancedIndicators(r)| as real / 3.0
    ensures a.unnaturalPatterns == Flag(r.aiPatterns)
    ensures a.compressionHistory == Flag(r.compressionTimeline)
    ensures a.syntheticNoise == Flag(r.syntheticNoise)
  {
    var indicators: seq<bool> := [];
    indicators := AppendSection(indicators, r.aiPatterns);
    assert indicators == SectionPart(r.aiPatterns);
    indicators := AppendSection(indicators, r.compressionTimeline);
    indicators := AppendSection(indicators, r.syntheticNoise);
    var score := if |indicators| > 0 then CountTrue(indicators) as real / |indicators| as real else 0.0;
    a := AdvancedAssessment(score, |indicators| as real / 3.0,
      Flag(r.aiPatterns), Flag(r.compressionTimeline), Flag(r.syntheticNoise));
  }

  /** The probability and the confidence both lie in [0, 1]; with no section
      both are 0. */
  lemma AdvancedAssessmentBounds(r: AdvancedResults)
    ensures 0.0 <= Share(AdvancedIndicators(r)) <= 1.0
    ensures 0.0 <= |AdvancedIndicators(r)| as real / 3.0 <= 1.0
    ensures r == AdvancedResults(Absent, Absent, Absent) ==> Share(AdvancedIndicators(r)) == 0.0
    ensures r == AdvancedResults(Absent, Absent, Absent) ==> |AdvancedIndicators(r)| as real / 3.0 == 0.0
  {
    ShareInUnitRange(AdvancedIndicators(r));
  }

  /** The sections of a completed analysis, each with its indicator. */
  function AnalyzedResults(p: PatternStats, mse: seq<real>, n: NoiseStats): (r: AdvancedResults)
    requires |mse| == |JpegQualities|
    ensures Flag(r.aiPatterns) == DetectAiPatterns(p).aiPatternIndicator
    ensures Flag(r.compressionTimeline) == DetectCompressionTimeline(mse).likelyRecompressed
    ensures Flag(r.syntheticNoise) == DetectSyntheticNoise(n).syntheticNoiseIndicator
  {
    AdvancedResults(
      Present(Some(DetectAiPatterns(p).aiPatternIndicator)),
      Present(Some(DetectCompressionTimeline(mse).likelyRecompressed)),
      Present(Some(DetectSyntheticNoise(n).syntheticNoiseIndicator)))
  }

  /** A completed analysis always has all three indicators, so its
      confidence is 1 and its probability counts the fired detectors in
      thirds. */
  lemma {:induction false} CompletedAnalysisScore(p: PatternStats, mse: seq<real>, n: NoiseStats)
    requires |mse| == |JpegQualities|
    ensures var r := AnalyzedResults(p, mse, n);
      && |AdvancedIndicators(r)| == 3
      && Share(AdvancedIndicators(r))
         == (BoolCount(Flag(r.aiPatterns)) + BoolCount(Flag(r.compressionTimeline))
             + BoolCount(Flag(r.syntheticNoise))) as real / 3.0
  {
    var r := AnalyzedResults(p, mse, n);
    var a, b, c := Flag(r.aiPatterns), Flag(r.compressionTimeline), Flag(r.syntheticNoise);
    assert AdvancedIndicators(r) == [a, b, c];
    CountTrueAppend([a, b], c);
    CountTrueAppend([a], b);
    CountTrueAppend([], a);
    assert [a, b] + [c] == [a, b, c];
    assert [a] + [b] == [a, b];
    assert [] + [a] == [a];
  }
}
