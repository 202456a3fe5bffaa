/**
 * The user-facing explanation of an artifact analysis: a verdict and a
 * confidence level from the overall assessment's AI probability, a list of
 * recommendations, and one detailed finding for each of the ringing, PNG
 * and AI-pattern indicators that fired.  The finding texts interpolate a
 * number (ringing intensity, unique colours, frequency balance); the model
 * keeps the number and leaves the text formatting out.
 */
module UserExplanations {
  import opened Common

  // ---------------------------------------------------------------------
  // Inputs
  // ---------------------------------------------------------------------

  /** The overall assessment: absent, or present with or without its
      "ai_probability_score" key. */
  datatype OverallSection = NoOverall | Overall(aiProbabilityScore: Option<real>)

  /** A section with an indicator key and the number its finding reports. */
  datatype FindingSection = NoSection | FindingSectionPresent(indicator: Option<bool>, value: Option<real>)

  datatype ArtifactsData = ArtifactsData(overall: OverallSection, ringing: FindingSection, png: FindingSection)

  /** The advanced analysis data, when given, with its "ai_patterns" section. */
  datatype AdvancedData = AdvancedData(aiPatterns: FindingSection)

  // ---------------------------------------------------------------------
  // Outputs
  // ---------------------------------------------------------------------

  datatype FindingKind = EdgeRinging | PngAnomalies | AiPatternDetection

  datatype Finding = Finding(kind: FindingKind, severity: string, value: real)

  datatype UserExplanation = UserExplanation(
    verdict: string,
    confidenceLevel: string,
    reasoning: seq<string>,
    detailedFindings: seq<Finding>,
    recommendations: seq<string>,
    whatToLookFor: seq<string>)

  const Inconclusive := "inconclusive"
  const LikelyAiGenerated := "likely_ai_generated"
  const PossiblyAiGenerated := "possibly_ai_generated"
  const LikelyAuthentic := "likely_authentic"
  const LowLevel := "low"
  const MediumLevel := "medium"
  const HighLevel := "high"

  const StrongIndicators := "\U{1F6A8} Mehrere starke AI-Indikatoren gefunden"
  const FurtherAnalyses := "\U{1F52C} Weitere Analysen empfohlen"
  const SomeSuspicious := "⚠️ Einige verdächtige Merkmale gefunden"
  const AdditionalTests := "\U{1F504} Zusätzliche Tests könnten hilfreich sein"
  const NoStrongIndicators := "✅ Keine starken AI-Indikatoren gefunden"

  // ---------------------------------------------------------------------
  // Specification
  // ---------------------------------------------------------------------

  /** The verdict, the confidence level and the recommendations the
      overall assessment selects; without one the explanation stays
      inconclusive with low confidence. */
  function Summary(o: OverallSection): (s: (string, string, seq<string>))
    ensures o.NoOverall? ==> s == (Inconclusive, LowLevel, [])
    ensures o.Overall? ==> s.0 != Inconclusive && |s.2| >= 1
  {
    if o.NoOverall? then (Inconclusive, LowLevel, [])
    else
      var score := if o.aiProbabilityScore.Some? then o.aiProbabilityScore.value else 0.0;
      if score >= 0.7 then (LikelyAiGenerated, HighLevel, [StrongIndicators, FurtherAnalyses])
      else if score >= 0.4 then (PossiblyAiGenerated, MediumLevel, [SomeSuspicious, AdditionalTests])
      else (LikelyAuthentic, MediumLevel, [NoStrongIndicators])
  }

  /** The indicator of a section, False when the section or key is missing. */
  predicate Fired(s: FindingSection)
  {
    s.FindingSectionPresent? && s.indicator.Some? && s.indicator.value
  }

  /** A fired indicator whose number is missing raises a KeyError. */
  predicate Raises(s: FindingSection)
  {
    Fired(s) && s.value.None?
  }

  function FindingPart(s: FindingSection, kind: FindingKind, severity: string): seq<Finding>
    requires !Raises(s)
  {
    if Fired(s) then [Finding(kind, severity, s.value.value)] else []
  }

  /** The AI-pattern section, which only counts when advanced data is given. */
  function PatternSection(advanced: Option<AdvancedData>): FindingSection
  {
    if advanced.Some? then advanced.value.aiPatterns else NoSection
  }

  predicate ExplanationRaises(a: ArtifactsData, advanced: Option<AdvancedData>)
  {
    Raises(a.ringing) || Raises(a.png) || Raises(PatternSection(advanced))
  }

  /** The findings in the order they are checked: ringing, PNG, patterns. */
  function Findings(a: ArtifactsData, advanced: Option<AdvancedData>): (f: seq<Finding>)
    requires !ExplanationRaises(a, advanced)
    ensures |f| <= 3
  {
    FindingPart(a.ringing, EdgeRinging, HighLevel)
    + FindingPart(a.png, PngAnomalies, MediumLevel)
    + FindingPart(PatternSection(advanced), AiPatternDetection, HighLevel)
  }

  // ---------------------------------------------------------------------
  // The explanation
  // ---------------------------------------------------------------------

  /** `generate_user_explanations`; None when a KeyError is raised. */
  method GenerateUserExplanations(a: ArtifactsData, advanced: Option<AdvancedData>) returns (r: Option<UserExplanation>)
    ensures r.None? <==> ExplanationRaises(a, advanced)
    ensures r.Some? ==>
      && (r.value.verdict, r.value.confidenceLevel, r.value.recommendations) == Summary(a.overall)
      && r.value.detailedFindings == Findings(a, advanced)
      && r.value.reasoning == [] && r.value.whatToLookFor == []
  {
    var e := UserExplanation(Inconclusive, LowLevel, [], [], [], []);
    if a.overall.Overall? {
      var aiScore := if a.overall.aiProbabilityScore.Some? then a.overall.aiProbabilityScore.value else 0.0;
      if aiScore >= 0.7 {
        e := e.(verdict := LikelyAiGenerated, confidenceLevel := HighLevel,
                 recommendations := e.recommendations + [StrongIndicators, FurtherAnalyses]);
        assert e.recommendations == [StrongIndicators, FurtherAnalyses];
      } else if aiScore >= 0.4 {
        e := e.(verdict := PossiblyAiGenerated, confidenceLevel := MediumLevel,
                 recommendations := e.recommendations + [SomeSuspicious, AdditionalTests]);
        assert e.recommendations == [SomeSuspicious, AdditionalTests];
      } else {
        e := e.(verdict := LikelyAuthentic, confidenceLevel := MediumLevel,
                 recommendations := e.recommendations + [NoStrongIndicators]);
        assert e.recommendations == [NoStrongIndicators];
      }
    }
    r := AddFindings(a, advanced, e);
  }

  /** The three finding checks, each appending to the detailed findings. */
  method AddFindings(a: ArtifactsData, advanced: Option<AdvancedData>, e: UserExplanation)
    returns (r: Option<UserExplanation>)
    requires e.detailedFindings == []
    ensures r.None? <==> ExplanationRaises(a, advanced)
    ensures r.Some? ==> r.value == e.(detailedFindings := Findings(a, advanced))
  {
    var findings: seq<Finding> := [];
    if Fired(a.ringing) {
      if a.ringing.value.None? {
        return None;
      }
      findings := findings + [Finding(EdgeRinging, HighLevel, a.ringing.value.value)];
    }
    if Fired(a.png) {
      if a.png.value.None? {
        return None;
      }
      findings := findings + [Finding(PngAnomalies, MediumLevel, a.png.value.value)];
    }
    if advanced.Some? && advanced.value.aiPatterns.FindingSectionPresent? {
      var patterns := advanced.value.aiPatterns;
      if patterns.indicator.Some? && patterns.indicator.value {
        if patterns.value.None? {
          return None;
        }
        findings := findings + [Finding(AiPatternDetection, HighLevel, patterns.value.value)];
      }
    }
    r := Some(e.(detailedFindings := findings));
  }

  /** A finding of each kind appears exactly when its indicator fired. */
  lemma FindingsExact(a: ArtifactsData, advanced: Option<AdvancedData>)
    requires !ExplanationRaises(a, advanced)
    ensures (exists f :: f in Findings(a, advanced) && f.kind == EdgeRinging) <==> Fired(a.ringing)
    ensures (exists f :: f in Findings(a, advanced) && f.kind == PngAnomalies) <==> Fired(a.png)
    ensures (exists f :: f in Findings(a, advanced) && f.kind == AiPatternDetection) <==> Fired(PatternSection(advanced))
  {
    var f := Findings(a, advanced);
    var r, p, q := FindingPart(a.ringing, EdgeRinging, HighLevel), FindingPart(a.png, PngAnomalies, MediumLevel),
                   FindingPart(PatternSection(advanced), AiPatternDetection, HighLevel);
    assert f == r + p + q;
    assert forall x :: x in f <==> x in r || x in p || x in q;
  }

  /** The verdict follows the score bands: 0.7 and above is likely AI with
      high confidence, [0.4, 0.7) possibly AI, below 0.4 likely authentic;
      a missing score counts as 0. */
  lemma VerdictBands(score: real)
    ensures Summary(Overall(Some(score))).0 == LikelyAiGenerated <==> score >= 0.7
    ensures Summary(Overall(Some(score))).0 == PossiblyAiGenerated <==> 0.4 <= score < 0.7
    ensures Summary(Overall(Some(score))).0 == LikelyAuthentic <==> score < 0.4
    ensures Summary(Overall(None)) == Summary(Overall(Some(0.0)))
  {
  }
}
