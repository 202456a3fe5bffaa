/**
 * The helpers of the verdict aggregator that describe the scores beside the
 * verdict itself: the two category averages and their comparison, the
 * weighted breakdown, the strength indicators, the consistency check and
 * the per-category explanations.  Map iteration order is unspecified in
 * Go, so wherever output order follows it the methods also return the
 * visiting order as a ghost sequence of keys.
 */
module VerdictDetails {
  import opened Common
  import opened Stages
  import opened VerdictStats

  /** The keys of `m`, each exactly once: an order a `range` loop may take. */
  ghost predicate VisitsEachKey(order: seq<string>, keys: set<string>)
  {
    && (forall i :: 0 <= i < |order| ==> order[i] in keys)
    && (forall k :: k in keys ==> k in order)
    && (forall i, j :: 0 <= i < j < |order| ==> order[i] != order[j])
  }

  // ---------------------------------------------------------------------
  // Category averages and their comparison
  // ---------------------------------------------------------------------

  /** -1 for an empty category, the mean otherwise. */
  ghost function CategoryAverage(m: Scores): real
  {
    if |m| == 0 then -1.0 else Mean(m)
  }

  /** The computer-vision and AI category scores (the source has one copy of
      this loop per category). */
  method CategoryScore(m: Scores) returns (score: real)
    ensures score == CategoryAverage(m)
  {
    if |m| == 0 {
      return -1.0;
    }
    var sum := SumOver(m.Keys, ValueOf(m));
    score := sum / |m| as real;
  }

  /** A non-empty category of probabilities averages to a probability. */
  lemma CategoryAverageBounds(m: Scores)
    requires |m| > 0 && forall k :: k in m ==> 0.0 <= m[k] <= 1.0
    ensures 0.0 <= CategoryAverage(m) <= 1.0
  {
    MeanBounds(m, 0.0, 1.0);
  }

  datatype CategoryVerdict = NoData | AIGeneratedCategory | LikelyHuman

  function CategoryVerdictText(v: CategoryVerdict): string
  {
    match v
    case NoData => "No Data"
    case AIGeneratedCategory => "AI Generated"
    case LikelyHuman => "Likely Human"
  }

  /** Negative means no data; from 0.7 up the category calls the image AI;
      everything in between (both of the source's remaining branches) is
      "Likely Human". */
  function GetCategoryVerdict(score: real): (v: CategoryVerdict)
    ensures v == NoData <==> score < 0.0
    ensures v == AIGeneratedCategory <==> score >= 0.7
    ensures v == LikelyHuman <==> 0.0 <= score < 0.7
  {
    if score < 0.0 then NoData
    else if score >= 0.7 then AIGeneratedCategory
    else if score >= 0.3 then LikelyHuman
    else LikelyHuman
  }

  /** -1 when either category has no data, else the absolute difference. */
  function CalculateDifference(score1: real, score2: real): (d: real)
    ensures score1 < 0.0 || score2 < 0.0 ==> d == -1.0
    ensures score1 >= 0.0 && score2 >= 0.0 ==> d >= 0.0 && (d == score1 - score2 || d == score2 - score1)
  {
    if score1 < 0.0 || score2 < 0.0 then -1.0 else Abs(score1 - score2)
  }

  datatype AgreementLevel = InsufficientData | StrongAgreement | ModerateAgreement | WeakAgreement | StrongDisagreement

  function AgreementLevelText(a: AgreementLevel): string
  {
    match a
    case InsufficientData => "insufficient_data"
    case StrongAgreement => "strong_agreement"
    case ModerateAgreement => "moderate_agreement"
    case WeakAgreement => "weak_agreement"
    case StrongDisagreement => "strong_disagreement"
  }

  /** The agreement bands on the absolute difference: ≤ 0.1, ≤ 0.3, ≤ 0.5, above. */
  function CalculateAgreementLevel(cvScore: real, aiScore: real): (a: AgreementLevel)
    ensures a == InsufficientData <==> cvScore < 0.0 || aiScore < 0.0
    ensures a == StrongAgreement <==> CalculateDifference(cvScore, aiScore) >= 0.0 && CalculateDifference(cvScore, aiScore) <= 0.1
    ensures a == ModerateAgreement <==> 0.1 < CalculateDifference(cvScore, aiScore) <= 0.3
    ensures a == WeakAgreement <==> 0.3 < CalculateDifference(cvScore, aiScore) <= 0.5
    ensures a == StrongDisagreement <==> 0.5 < CalculateDifference(cvScore, aiScore)
  {
    if cvScore < 0.0 || aiScore < 0.0 then InsufficientData
    else
      var diff := Abs(cvScore - aiScore);
      if diff <= 0.1 then StrongAgreement
      else if diff <= 0.3 then ModerateAgreement
      else if diff <= 0.5 then WeakAgreement
      else StrongDisagreement
  }

  datatype DominantMethod = NoDominantData | ComputerVisionDominant | AIAnalysisDominant | Equal

  function DominantMethodText(d: DominantMethod): string
  {
    match d
    case NoDominantData => "no_data"
    case ComputerVisionDominant => "computer_vision"
    case AIAnalysisDominant => "ai_analysis"
    case Equal => "equal"
  }

  /** The category with data, or with the higher score when both have data. */
  function GetDominantMethodSimple(cvScore: real, aiScore: real): (d: DominantMethod)
    ensures d == NoDominantData <==> cvScore < 0.0 && aiScore < 0.0
    ensures d == Equal <==> 0.0 <= cvScore && cvScore == aiScore
    ensures d == ComputerVisionDominant <==> 0.0 <= cvScore && (aiScore < 0.0 || cvScore > aiScore)
  {
    if cvScore < 0.0 && aiScore < 0.0 then NoDominantData
    else if cvScore < 0.0 then AIAnalysisDominant
    else if aiScore < 0.0 then ComputerVisionDominant
    else if cvScore > aiScore then ComputerVisionDominant
    else if aiScore > cvScore then AIAnalysisDominant
    else Equal
  }

  function Swapped(d: DominantMethod): DominantMethod
  {
    match d
    case ComputerVisionDominant => AIAnalysisDominant
    case AIAnalysisDominant => ComputerVisionDominant
    case other => other
  }

  /** The choice treats the two categories alike: swapping the scores swaps the answer. */
  lemma DominantMethodSymmetric(cvScore: real, aiScore: real)
    ensures GetDominantMethodSimple(aiScore, cvScore) == Swapped(GetDominantMethodSimple(cvScore, aiScore))
  {
  }

  // ---------------------------------------------------------------------
  // Quality and breakdown
  // ---------------------------------------------------------------------

  /** The share of the stage results that produced a score. */
  function CalculateAnalysisQuality(totalMethods: int, successfulMethods: int): (q: real)
    ensures totalMethods == 0 ==> q == 0.0
    ensures 0 <= successfulMethods <= totalMethods && totalMethods > 0 ==> 0.0 <= q <= 1.0
    ensures 0 < successfulMethods == totalMethods ==> q == 1.0
  {
    if totalMethods == 0 then 0.0 else successfulMethods as real / totalMethods as real
  }

  /** Each scored method that has a weight, mapped to score times weight. */
  method CalculateWeightedBreakdown(scores: Scores, weights: Scores) returns (breakdown: Scores)
    ensures breakdown.Keys == scores.Keys * weights.Keys
    ensures forall n :: n in breakdown ==> breakdown[n] == scores[n] * weights[n]
  {
    breakdown := map[];
    var pending := scores.Keys;
    while pending != {}
      invariant pending <= scores.Keys
      invariant breakdown.Keys == (scores.Keys - pending) * weights.Keys
      invariant forall n :: n in breakdown ==> breakdown[n] == scores[n] * weights[n]
      decreases pending
    {
      var name :| name in pending;
      if name in weights {
        breakdown := breakdown[name := scores[name] * weights[name]];
      }
      pending := pending - {name};
    }
  }

  // ---------------------------------------------------------------------
  // Strength indicators
  // ---------------------------------------------------------------------

  /** "Very strong: <name>" from 0.9, "Strong: <name>" from 0.7. */
  datatype Strength = VeryStrong(name: string) | Strong(name: string)

  function StrengthOf(name: string, score: real): Option<Strength>
  {
    if score >= 0.9 then Some(VeryStrong(name))
    else if score >= 0.7 then Some(Strong(name))
    else None
  }

  /** `indicators` has one entry per method scoring at least 0.7, listed in
      the visiting order `order`. */
  ghost predicate StrengthListing(indicators: seq<Strength>, order: seq<string>, scores: Scores)
  {
    && VisitsEachKey(order, set n | n in scores && scores[n] >= 0.7)
    && |indicators| == |order|
    && forall i :: 0 <= i < |order| ==> Some(indicators[i]) == StrengthOf(order[i], scores[order[i]])
  }

  /** One indicator per method scoring at least 0.7, in visiting order. */
  method AnalyzeStrengthIndicators(scores: Scores) returns (indicators: seq<Strength>, ghost order: seq<string>)
    ensures VisitsEachKey(order, set n | n in scores && scores[n] >= 0.7)
    ensures |indicators| == |order|
    ensures forall i :: 0 <= i < |order| ==> Some(indicators[i]) == StrengthOf(order[i], scores[order[i]])
  {
    indicators, order := [], [];
    var pending := scores.Keys;
    ghost var strong := set n | n in scores && scores[n] >= 0.7;
    while pending != {}
      invariant pending <= scores.Keys
      invariant VisitsEachKey(order, strong - pending)
      invariant |indicators| == |order|
      invariant forall i :: 0 <= i < |order| ==> Some(indicators[i]) == StrengthOf(order[i], scores[order[i]])
      decreases pending
    {
      var name :| name in pending;
      var score := scores[name];
      if score >= 0.9 {
        indicators, order := indicators + [VeryStrong(name)], order + [name];
      } else if score >= 0.7 {
        indicators, order := indicators + [Strong(name)], order + [name];
      }
      pending := pending - {name};
    }
  }

  // ---------------------------------------------------------------------
  // Consistency check
  // ---------------------------------------------------------------------

  datatype ConsistencyLevel = High | Moderate | Low

  /** Variance bands: ≤ 0.1 high, ≤ 0.3 moderate, above that low. */
  function LevelOf(variance: real): ConsistencyLevel
  {
    if variance <= 0.1 then High else if variance <= 0.3 then Moderate else Low
  }

  datatype ConsistencyCheck =
    | InsufficientScores                                   // fewer than two scores
    | Checked(level: ConsistencyLevel, variance: real, mean: real)

  ghost function ConsistencyOf(scores: Scores): ConsistencyCheck
  {
    if |scores| < 2 then InsufficientScores
    else Checked(LevelOf(Variance(scores)), Variance(scores), Mean(scores))
  }

  method CheckConsistency(scores: Scores) returns (check: ConsistencyCheck)
    ensures check == ConsistencyOf(scores)
    ensures check.Checked? ==> check.variance >= 0.0
  {
    if |scores| < 2 {
      return InsufficientScores;
    }
    var sum := SumOver(scores.Keys, ValueOf(scores));
    var mean := sum / |scores| as real;
    var variance := SumOver(scores.Keys, SquaredDeviationOf(scores, mean));
    variance := variance / |scores| as real;
    var level := if variance <= 0.1 then High else if variance <= 0.3 then Moderate else Low;
    check := Checked(level, variance, mean);
    VarianceNonNegative(scores);
  }


  /** On [0, 1], (x − μ)² ≤ (1 − 2μ)·x + μ², because x² ≤ x there. */
  lemma SquaredDeviationBelowAffine(x: real, mu: real, deviation: real, bound: real)
    requires 0.0 <= x <= 1.0
    requires deviation == (x - mu) * (x - mu) && bound == (1.0 - 2.0 * mu) * x + mu * mu
    ensures deviation <= bound
  {
    assert x * x <= x * 1.0;
  }

  lemma DeviationBelowBound(scores: Scores, mu: real, k: string)
    requires k in scores && 0.0 <= scores[k] <= 1.0
    ensures SquaredDeviationOf(scores, mu)(k) <= Affine(ValueOf(scores), 1.0 - 2.0 * mu, mu * mu)(k)
  {
    var x := At(scores, k);
    SquaredDeviationBelowAffine(x, mu, SquaredDeviationOf(scores, mu)(k), Affine(ValueOf(scores), 1.0 - 2.0 * mu, mu * mu)(k));
  }

  /** μ − μ² never exceeds 1/4. */
  lemma MeanSquareGap(mu: real, total: real, n: nat)
    requires n > 0 && mu == total / n as real
    ensures Linear(1.0 - 2.0 * mu, total, mu * mu, n) <= n as real * 0.25
  {
    var r := n as real;
    assert total == mu * r;
    assert r * 0.25 - Linear(1.0 - 2.0 * mu, total, mu * mu, n) == r * ((mu - 0.5) * (mu - 0.5));
    var q := (mu - 0.5) * (mu - 0.5);
    assert q >= 0.0;
    assert r * q >= 0.0;
  }

  /** Probabilities have variance at most 1/4, so their consistency level is
      never "low". */
  lemma ProbabilitiesNeverLow(scores: Scores)
    requires |scores| >= 2 && forall k :: k in scores ==> 0.0 <= scores[k] <= 1.0
    ensures Variance(scores) <= 0.25
    ensures ConsistencyOf(scores).level != Low
  {
    var mu := Mean(scores);
    var bound := Affine(ValueOf(scores), 1.0 - 2.0 * mu, mu * mu);
    forall k | k in scores.Keys ensures SquaredDeviationOf(scores, mu)(k) <= bound(k) {
      DeviationBelowBound(scores, mu, k);
    }
    SumMonotone(scores.Keys, SquaredDeviationOf(scores, mu), bound);
    SumAffine(scores.Keys, ValueOf(scores), 1.0 - 2.0 * mu, mu * mu);
    MeanSquareGap(mu, Total(scores), |scores|);
    VarianceNonNegative(scores);
    AverageBounds(Sum(scores.Keys, SquaredDeviationOf(scores, mu)), |scores|, 0.0, 0.25);
  }

  // ---------------------------------------------------------------------
  // Category explanations
  // ---------------------------------------------------------------------

  /** One sentence per computer-vision method, chosen by band and, for the
      metadata-type methods, worded for metadata; the percentage is score·100. */
  datatype CVNote =
    | StrongMarkers(name: string, percent: real)     // "%s found strong AI markers (%.1f%%)"
    | StrongArtifacts(name: string, percent: real)   // "%s indicates strong AI artifacts (%.1f%%)"
    | MixedSignals(name: string, percent: real)      // "%s shows mixed signals (%.1f%%)"
    | CleanMetadata(name: string, percent: real)     // "%s found clean metadata (%.1f%%)"
    | HumanOrigin(name: string, percent: real)       // "%s suggests human origin (%.1f%%)"

  predicate IsMetadataMethod(name: string)
  {
    name == MetadataStage || name == C2PAStage || name == ExifStage
  }

  function CVNoteFor(name: string, score: real): (n: CVNote)
    ensures n.name == name && n.percent == score * 100.0
    ensures n.MixedSignals? <==> 0.3 <= score < 0.7
    ensures (n.StrongMarkers? || n.CleanMetadata?) <==> IsMetadataMethod(name) && !(0.3 <= score < 0.7)
  {
    if score >= 0.7 then
      (if IsMetadataMethod(name) then StrongMarkers(name, score * 100.0) else StrongArtifacts(name, score * 100.0))
    else if score >= 0.3 then MixedSignals(name, score * 100.0)
    else if IsMetadataMethod(name) then CleanMetadata(name, score * 100.0)
    else HumanOrigin(name, score * 100.0)
  }

  /** The notes are joined with "; " in the source. */
  datatype CVExplanation = NoComputerVision | CVNotes(notes: seq<CVNote>)

  /** `notes` has one note per method of `scores`, listed in the visiting
      order `order`. */
  ghost predicate CVNotesListing(notes: seq<CVNote>, order: seq<string>, scores: Scores)
  {
    && VisitsEachKey(order, scores.Keys)
    && |notes| == |order|
    && forall i :: 0 <= i < |order| ==> notes[i] == CVNoteFor(order[i], scores[order[i]])
  }

  method GenerateComputerVisionExplanation(scores: Scores) returns (e: CVExplanation, ghost order: seq<string>)
    ensures |scores| == 0 <==> e == NoComputerVision
    ensures e.CVNotes? ==>
      && VisitsEachKey(order, scores.Keys) && |e.notes| == |order|
      && forall i :: 0 <= i < |order| ==> e.notes[i] == CVNoteFor(order[i], scores[order[i]])
  {
    order := [];
    if |scores| == 0 {
      return NoComputerVision, order;
    }
    var explanations: seq<CVNote> := [];
    var pending := scores.Keys;
    while pending != {}
      invariant pending <= scores.Keys
      invariant VisitsEachKey(order, scores.Keys - pending)
      invariant |explanations| == |order|
      invariant forall i :: 0 <= i < |order| ==> explanations[i] == CVNoteFor(order[i], scores[order[i]])
      decreases pending
    {
      var method_ :| method_ in pending;
      var score := scores[method_];
      var note: CVNote;
      if score >= 0.7 {
        if method_ == MetadataStage || method_ == C2PAStage || method_ == ExifStage {
          note := StrongMarkers(method_, score * 100.0);
        } else {
          note := StrongArtifacts(method_, score * 100.0);
        }
      } else if score >= 0.3 {
        note := MixedSignals(method_, score * 100.0);
      } else {
        if method_ == MetadataStage || method_ == C2PAStage || method_ == ExifStage {
          note := CleanMetadata(method_, score * 100.0);
        } else {
          note := HumanOrigin(method_, score * 100.0);
        }
      }
      explanations, order := explanations + [note], order + [method_];
      pending := pending - {method_};
    }
    e := CVNotes(explanations);
  }

  /** The AI-category sentence for one classifier score. */
  datatype AINote =
    | NoAIAnalysis                     // "No AI deep learning analysis available"
    | StronglyPredictsAI(percent: real) // from 0.9: score·100
    | IndicatesLikelyAI(percent: real)  // from 0.7: score·100
    | MixedAIResults(percent: real)     // from 0.3: score·100
    | SuggestsHumanOrigin(percent: real) // below 0.3: (1 − score)·100 authentic

  function AINoteFor(score: real): AINote
  {
    if score >= 0.9 then StronglyPredictsAI(score * 100.0)
    else if score >= 0.7 then IndicatesLikelyAI(score * 100.0)
    else if score >= 0.3 then MixedAIResults(score * 100.0)
    else SuggestsHumanOrigin((1.0 - score) * 100.0)
  }

  /** The loop returns on its first entry, so the sentence describes whichever
      score the map yields first; the fallback after the loop is unreachable. */
  method GenerateAIExplanation(scores: Scores) returns (e: AINote)
    ensures |scores| == 0 ==> e == NoAIAnalysis
    ensures |scores| > 0 ==> exists k :: k in scores && e == AINoteFor(scores[k])
  {
    if |scores| == 0 {
      return NoAIAnalysis;
    }
    var name :| name in scores;
    var score := scores[name];
    if score >= 0.9 {
      e := StronglyPredictsAI(score * 100.0);
    } else if score >= 0.7 {
      e := IndicatesLikelyAI(score * 100.0);
    } else if score >= 0.3 {
      e := MixedAIResults(score * 100.0);
    } else {
      e := SuggestsHumanOrigin((1.0 - score) * 100.0);
    }
  }

  /** The aggregator's AI category only ever holds ai-model, so the sentence
      is determined by that one score. */
  lemma AIExplanationDetermined(scores: Scores, e: AINote)
    requires scores.Keys <= {AiModelStage} && |scores| > 0
    requires exists k :: k in scores && e == AINoteFor(scores[k])
    ensures e == AINoteFor(scores[AiModelStage])
  {
  }
}
