/**
 * The object-coherence analyzer: three piecewise checks (perspective lines,
 * lighting gradients, edge patterns) each give a fixed score, and the
 * coherence score is their mean.  The line count, the gradient spread, the
 * edge density and the Laplacian variance are inputs of the model.
 */
module Coherence {
  import opened Common
  import opened GoValues
  import Explanations
  import VerdictScores

  /** `check_perspective_consistency` from the number of Hough line
      segments, None when none are found. */
  function PerspectiveScore(lines: Option<nat>): (r: real)
    ensures lines.None? ==> r == 0.1
    ensures lines.Some? && lines.value < 10 ==> r == 0.9
    ensures lines.Some? && lines.value > 200 ==> r == 0.7
    ensures lines.Some? && 10 <= lines.value <= 200 ==> r == 0.3
  {
    if lines.None? then 0.1
    else if lines.value < 10 then 0.9
    else if lines.value > 200 then 0.7
    else 0.3
  }

  /** `check_lighting_physics` from the spread of the luminance gradient. */
  function LightingPhysicsScore(gradientStd: real): (r: real)
    ensures gradientStd < 20.0 ==> r == 0.6
    ensures gradientStd > 80.0 ==> r == 0.2
    ensures 20.0 <= gradientStd <= 80.0 ==> r == 0.3
  {
    if gradientStd < 20.0 then 0.6
    else if gradientStd > 80.0 then 0.2
    else 0.3
  }

  /** `analyze_edge_patterns`: an unusual edge density wins over smoothness. */
  function EdgeScore(edgeDensity: real, laplacianVar: real): (r: real)
    ensures edgeDensity < 0.05 || edgeDensity > 0.3 ==> r == 0.5
    ensures 0.05 <= edgeDensity <= 0.3 ==> (r == 0.4 <==> laplacianVar < 100.0)
    ensures 0.05 <= edgeDensity <= 0.3 ==> (r == 0.1 <==> laplacianVar >= 100.0)
  {
    if edgeDensity < 0.05 || edgeDensity > 0.3 then 0.5
    else if laplacianVar < 100.0 then 0.4
    else 0.1
  }

  datatype CoherenceStats = CoherenceStats(lines: Option<nat>, gradientStd: real, edgeDensity: real, laplacianVar: real)

  datatype CoherenceResult =
    | LoadError
    | ObjectAnalysis(
        perspectiveConsistency: real,
        lightingCoherence: real,
        edgeConsistency: real,
        aiCoherenceScore: real,
        anomalies: seq<string>)

  /** The mean of the three check scores. */
  function CoherenceScore(s: CoherenceStats): real
  {
    (PerspectiveScore(s.lines) + LightingPhysicsScore(s.gradientStd) + EdgeScore(s.edgeDensity, s.laplacianVar)) / 3.0
  }

  /** `analyze_object_coherence`: None stands for an image that cannot be
      read.  The anomaly list is always empty. */
  function AnalyzeObjectCoherence(image: Option<CoherenceStats>): (r: CoherenceResult)
    ensures r.LoadError? <==> image.None?
    ensures r.ObjectAnalysis? ==>
      && r.perspectiveConsistency == PerspectiveScore(image.value.lines)
      && r.lightingCoherence == LightingPhysicsScore(image.value.gradientStd)
      && r.edgeConsistency == EdgeScore(image.value.edgeDensity, image.value.laplacianVar)
      && r.aiCoherenceScore * 3.0 == r.perspectiveConsistency + r.lightingCoherence + r.edgeConsistency
      && r.anomalies == []
  {
    if image.None? then LoadError
    else
      var s := image.value;
      ObjectAnalysis(PerspectiveScore(s.lines), LightingPhysicsScore(s.gradientStd),
                     EdgeScore(s.edgeDensity, s.laplacianVar), CoherenceScore(s), [])
  }

  /** The coherence score lies in [0.4/3, 2/3], and both ends are reached. */
  lemma CoherenceScoreRange(s: CoherenceStats)
    ensures 0.4 / 3.0 <= CoherenceScore(s) <= 2.0 / 3.0
    ensures CoherenceScore(CoherenceStats(None, 100.0, 0.1, 500.0)) == 0.4 / 3.0
    ensures CoherenceScore(CoherenceStats(Some(5), 10.0, 0.01, 0.0)) == 2.0 / 3.0
  {
  }

  /** The score stays below 0.7, the threshold of the four-band
      explanations' top band, and its lowest value falls in their bottom
      band; the program itself never bands this score (`CoherenceOutcome`). */
  lemma CoherenceNeverInTopBand(s: CoherenceStats)
    ensures CoherenceScore(s) < 0.7
    ensures Explanations.BandOf(CoherenceScore(s)) != Explanations.HighBand
    ensures Explanations.BandOf(CoherenceScore(CoherenceStats(None, 100.0, 0.1, 500.0))) == Explanations.LowBand
  {
    CoherenceScoreRange(s);
  }

  /** The object the Go server decodes from the script's JSON output; every
      number arrives as a float64. */
  function CoherenceJson(r: CoherenceResult): (o: Object)
    ensures r.LoadError? ==> o == map["error" := JStr("Could not load image")]
    ensures r.ObjectAnalysis? ==>
      && o.Keys == {"object_analysis"}
      && o["object_analysis"].JObj?
      && "ai_coherence_score" in o["object_analysis"].fields
      && o["object_analysis"].fields["ai_coherence_score"] == JFloat(r.aiCoherenceScore)
  {
    match r
    case LoadError => map["error" := JStr("Could not load image")]
    case ObjectAnalysis(p, l, e, score, anomalies) =>
      map["object_analysis" := JObj(map[
        "perspective_consistency" := JFloat(p),
        "lighting_coherence" := JFloat(l),
        "edge_consistency" := JFloat(e),
        "ai_coherence_score" := JFloat(score),
        "anomalies" := JArr(seq(|anomalies|, i requires 0 <= i < |anomalies| => JStr(anomalies[i])))])]
  }

  /** The script never writes a top-level "ai_probability", so whatever the
      image, the coherence explanation is its fallback sentence and the
      verdict's coherence scorer falls back to 0.333; the score itself only
      reaches the confidence list. */
  lemma CoherenceOutcome(image: Option<CoherenceStats>)
    ensures var data := CoherenceJson(AnalyzeObjectCoherence(image));
      && Explanations.GenerateObjectCoherenceExplanation(data)
         == Explanations.BandedFallback(Explanations.ObjectCoherenceExplainer)
      && VerdictScores.ObjectCoherenceScore(data) == 0.333
  {
    var data := CoherenceJson(AnalyzeObjectCoherence(image));
    assert Explanations.AIProbabilityKey !in data;
    assert VerdictScores.AIProbabilityKey !in data;
  }
}
