/**
 * The verdict aggregator's entry point: score every stage result, stop at
 * definitive C2PA or metadata evidence, otherwise calibrate the scores,
 * weigh them adaptively, apply the pattern boost and the quality bonus,
 * clamp, and label the result; the report also describes the scores by
 * category.
 *
 * Map iteration order is unspecified in Go.  The scan over the stage results
 * picks the next name nondeterministically and returns the names it visited
 * as a ghost set; the weighting loop returns its visiting order as a ghost
 * sequence, which the reasoning lines follow.
 */
module VerdictCalculator {
  import opened Common
  import opened GoValues
  import opened Stages
  import opened VerdictStats
  import opened VerdictScores
  import opened VerdictDetails
  import HandlerUtils
  import Calibration
  import Boost
  import Determination
  import Pipeline

  /** `calculateC2PAScore` is called but defined nowhere in the package, so
      the C2PA scorer is a parameter of the aggregator. */
  type C2PAScorer = Object -> real

  const ComputerVisionMethods: seq<string> := [
    ArtifactsStage, LightingAnalysisStage, AdvancedArtifactsStage, PixelAnalysisStage,
    ColorBalanceStage, ObjectCoherenceStage, CompressionStage, MetadataStage, C2PAStage,
    ExifStage, MetadataQuickStage]

  const AIMethods: seq<string> := [AiModelStage]

  /** The fixed weight table, in the order the source lists it. */
  const WeightTable: seq<(string, real)> := [
    (AiModelStage, 6.0),
    (CompressionStage, 4.0), (LightingAnalysisStage, 3.5), (ArtifactsStage, 3.0),
    (AdvancedArtifactsStage, 3.0), (ColorBalanceStage, 3.0),
    (MetadataStage, 2.5), (PixelAnalysisStage, 2.5), (C2PAStage, 2.0),
    (ObjectCoherenceStage, 0.5), (ExifStage, 1.0), (MetadataQuickStage, 0.8)
  ]

  /** The weight of the first entry named `name`; 0 when there is none. */
  function Lookup(table: seq<(string, real)>, name: string): (w: real)
    ensures (forall i :: 0 <= i < |table| ==> table[i].1 >= 0.0) ==> w >= 0.0
    ensures (forall i :: 0 <= i < |table| ==> table[i].0 != name) ==> w == 0.0
  {
    if table == [] then 0.0
    else if table[0].0 == name then table[0].1
    else Lookup(table[1..], name)
  }

  /** A method's weight; a name outside the table reads as weight 0, as a
      missing key of a Go map does. */
  function WeightOf(name: string): (w: real)
    ensures w >= 0.0
  {
    Lookup(WeightTable, name)
  }

  /** The weight table as a map, for the weighted breakdown. */
  function Weights(): (w: Scores)
    ensures w.Keys == set n | n in ComputerVisionMethods + AIMethods
    ensures forall n :: n in w ==> w[n] == WeightOf(n)
  {
    map n | n in ComputerVisionMethods + AIMethods :: WeightOf(n)
  }

  // ---------------------------------------------------------------------
  // Scoring the stage results
  // ---------------------------------------------------------------------

  /** The possible scores of one map-typed stage result.  The twelve known
      stages have one scorer each (the pixel, lighting, colour and quick
      metadata calls are bound to the scorers of the same name); any other
      name falls back to the pipeline's extractor, which may offer several
      values when its answer depends on map order. */
  function StageScores(name: string, data: Object, c2pa: C2PAScorer): (r: set<real>)
    ensures r != {}
  {
    if name == ArtifactsStage then {ArtifactsScore(data)}
    else if name == AdvancedArtifactsStage then {AdvancedArtifactsScore(data)}
    else if name == AiModelStage then {AIModelScore(data)}
    else if name == CompressionStage then {CompressionScore(data)}
    else if name == PixelAnalysisStage then {PixelScore(data)}
    else if name == LightingAnalysisStage then {LightingScore(data)}
    else if name == ColorBalanceStage then {ColorScore(data)}
    else if name == ObjectCoherenceStage then {ObjectCoherenceScore(data)}
    else if name == ExifStage then {EXIFScore(data)}
    else if name == MetadataStage then {MetadataScore(data)}
    else if name == MetadataQuickStage then {QuickMetadataScore(data)}
    else if name == C2PAStage then {c2pa(data)}
    else Pipeline.ExtractConfidenceScores(JObj(data))

  }

  datatype Reason =
    | DefinitiveMetadata                              // "Definitive AI metadata found"
    | C2PAConfirms                                    // "C2PA certificate confirms AI generation"
    | StrongIndicators(name: string, percent: real)   // "%s: Strong AI indicators (%.0f%% probability)"
    | AuthenticityIndicators(name: string, percent: real) // "%s: Authenticity indicators (%.0f%% authentic)"
    | ModerateSignals(name: string, percent: real)    // "%s: Moderate signals (%.0f%% probability)"
    | TechnicalError                                  // "Technical error during analysis"

  /** A metadata or C2PA score of at least 0.95 is definitive evidence. */
  function DefinitiveReason(name: string, score: real): (r: Option<Reason>)
    ensures r.Some? <==> (name == MetadataStage || name == C2PAStage) && score >= 0.95
  {
    if name == MetadataStage && score >= 0.95 then Some(DefinitiveMetadata)
    else if name == C2PAStage && score >= 0.95 then Some(C2PAConfirms)
    else None
  }

  predicate NoDefinitive(scores: Scores)
  {
    forall n :: n in scores ==> DefinitiveReason(n, scores[n]).None?
  }

  /** `scores` is what the scan made of the visited results: a visited name
      has an entry exactly when its result is a map and the score it drew
      is non-negative, and that entry is the score. */
  ghost predicate ScoredAs(results: map<string, Json>, c2pa: C2PAScorer, visited: set<string>, scores: Scores)
  {
    && visited <= results.Keys
    && scores.Keys <= visited
    && (forall n :: n in scores ==>
          results[n].JObj? && scores[n] >= 0.0 && scores[n] in StageScores(n, results[n].fields, c2pa))
    && (forall n :: n in visited && n !in scores && results[n].JObj? ==>
          exists v :: v in StageScores(n, results[n].fields, c2pa) && v < 0.0)
  }

  /** The scores of the names listed in `names`. */
  function Category(scores: Scores, names: seq<string>): (r: Scores)
    ensures r.Keys == set n | n in scores && n in names
    ensures forall n :: n in r ==> r[n] == scores[n]
  {
    map n | n in scores && n in names :: scores[n]
  }

  /** The scan over the stage results.  Results that are not maps are
      skipped; only non-negative scores are kept, and each kept score also
      goes to its category.  The scan stops at the first definitive score;
      otherwise it visits every result. */
  method ScoreResults(results: map<string, Json>, c2pa: C2PAScorer)
    returns (scores: Scores, cvScores: Scores, aiScores: Scores, definitive: Option<Reason>,
             ghost visited: set<string>)
    ensures ScoredAs(results, c2pa, visited, scores)
    ensures cvScores == Category(scores, ComputerVisionMethods)
    ensures aiScores == Category(scores, AIMethods)
    ensures definitive.None? ==> visited == results.Keys && NoDefinitive(scores)
    ensures definitive.Some? ==> exists n :: n in scores && DefinitiveReason(n, scores[n]) == definitive
  {
    scores, cvScores, aiScores, definitive, visited := map[], map[], map[], None, {};
    var pending := results.Keys;
    while pending != {}
      invariant pending == results.Keys - visited
      invariant ScoredAs(results, c2pa, visited, scores)
      invariant NoDefinitive(scores)
      invariant cvScores == Category(scores, ComputerVisionMethods)
      invariant aiScores == Category(scores, AIMethods)
      decreases pending
    {
      var name :| name in pending;
      var result := results[name];
      if !result.JObj? {
        ScanStep(results, c2pa, visited, scores, name, -1.0);
        pending, visited := pending - {name}, visited + {name};
        continue;
      }
      var score := Choose(StageScores(name, result.fields, c2pa));
      ScanStep(results, c2pa, visited, scores, name, score);
      pending, visited := pending - {name}, visited + {name};
      if score >= 0.0 {
        cvScores, aiScores := Categorize(scores, cvScores, aiScores, name, score);
        scores := scores[name := score];
        if name == MetadataStage && score >= 0.95 {
          definitive := Some(DefinitiveMetadata);
          break;
        }
        if name == C2PAStage && score >= 0.95 {
          definitive := Some(C2PAConfirms);
          break;
        }
      }
    }
  }

  /** One step of the scan keeps `ScoredAs`: the visited name gains an entry
      exactly when its result is a map and its score is non-negative. */
  lemma ScanStep(results: map<string, Json>, c2pa: C2PAScorer, visited: set<string>, scores: Scores,
                 name: string, score: real)
    requires ScoredAs(results, c2pa, visited, scores)
    requires name in results && name !in visited
    requires results[name].JObj? ==> score in StageScores(name, results[name].fields, c2pa)
    requires !results[name].JObj? ==> score < 0.0
    ensures ScoredAs(results, c2pa, visited + {name}, if score >= 0.0 then scores[name := score] else scores)
  {
  }

  /** Files a kept score under its category: computer vision if listed
      there, otherwise AI if listed there, otherwise neither. */
  method Categorize(scores: Scores, cvScores: Scores, aiScores: Scores, name: string, score: real)
    returns (cv: Scores, ai: Scores)
    requires cvScores == Category(scores, ComputerVisionMethods)
    requires aiScores == Category(scores, AIMethods)
    ensures cv == Category(scores[name := score], ComputerVisionMethods)
    ensures ai == Category(scores[name := score], AIMethods)
  {
    cv, ai := cvScores, aiScores;
    var isComputerVision := HandlerUtils.Contains(ComputerVisionMethods, name);
    if isComputerVision {
      cv := cv[name := score];
    } else {
      var isAI := HandlerUtils.Contains(AIMethods, name);
      if isAI {
        ai := ai[name := score];
      }
    }
  }

  /** The metadata scorer always returns 0, so only C2PA can be definitive. */
  lemma MetadataNeverDefinitive(results: map<string, Json>, c2pa: C2PAScorer, visited: set<string>, scores: Scores)
    requires ScoredAs(results, c2pa, visited, scores)
    ensures forall n :: n in scores && DefinitiveReason(n, scores[n]).Some? ==>
      n == C2PAStage && DefinitiveReason(n, scores[n]) == Some(C2PAConfirms)
  {

  }

  /** A map-typed C2PA result scoring at least 0.95 always ends the scan
      with definitive evidence, whatever the visiting order. */
  lemma C2PACertificateIsDefinitive(results: map<string, Json>, c2pa: C2PAScorer, visited: set<string>, scores: Scores)
    requires ScoredAs(results, c2pa, visited, scores)
    requires NoDefinitive(scores) ==> visited == results.Keys
    requires C2PAStage in results && results[C2PAStage].JObj?
    requires c2pa(results[C2PAStage].fields) >= 0.95
    ensures !NoDefinitive(scores)
  {

  }

  // ---------------------------------------------------------------------
  // Adaptive weighting
  // ---------------------------------------------------------------------

  /** A calibrated method counts towards the final score when it has a
      weight and is not the AI model. */
  predicate Contributes(name: string, weights: string -> real)
  {
    weights(name) != 0.0 && name != AiModelStage
  }

  function Contributors(calibrated: Scores, names: set<string>, weights: string -> real): (r: set<string>)
    ensures r <= calibrated.Keys
  {
    set n | n in names && n in calibrated && Contributes(n, weights)
  }

  /** Very confident scores, either way, weigh more: ×1.2 from 0.8, ×1.3 up to 0.2. */
  function AdaptiveWeight(weight: real, score: real): (w: real)
    ensures weight > 0.0 ==> w >= weight
  {
    if score >= 0.8 then weight * 1.2
    else if score <= 0.2 then weight * 1.3
    else weight
  }

  function AdaptiveWeightOf(calibrated: Scores, weights: string -> real): string -> real
  {
    n => AdaptiveWeight(weights(n), At(calibrated, n))
  }

  function ContributionOf(calibrated: Scores, weights: string -> real): string -> real
  {
    n => At(calibrated, n) * AdaptiveWeight(weights(n), At(calibrated, n))
  }

  ghost function WeightedSum(calibrated: Scores, weights: string -> real): real
  {
    Sum(Contributors(calibrated, calibrated.Keys, weights), ContributionOf(calibrated, weights))
  }

  ghost function TotalWeight(calibrated: Scores, weights: string -> real): real
  {
    Sum(Contributors(calibrated, calibrated.Keys, weights), AdaptiveWeightOf(calibrated, weights))
  }

  /** The reasoning line of one contributing method. */
  function ReasonFor(name: string, score: real): (r: Reason)
    ensures r.StrongIndicators? <==> score >= 0.7
    ensures r.AuthenticityIndicators? <==> score <= 0.3
    ensures r.ModerateSignals? <==> 0.3 < score < 0.7
    ensures r == StrongIndicators(name, score * 100.0) || r == ModerateSignals(name, score * 100.0)
         || r == AuthenticityIndicators(name, (1.0 - score) * 100.0)
  {
    if score >= 0.7 then StrongIndicators(name, score * 100.0)
    else if score <= 0.3 then AuthenticityIndicators(name, (1.0 - score) * 100.0)
    else ModerateSignals(name, score * 100.0)
  }

  /** One reasoning line per contributing method, in the visiting order. */
  ghost predicate ReasonsFollow(reasons: seq<Reason>, order: seq<string>, calibrated: Scores)
  {
    && |reasons| == |order|
    && forall i :: 0 <= i < |order| ==> order[i] in calibrated && reasons[i] == ReasonFor(order[i], calibrated[order[i]])
  }

  /** Appending a contributor and its reasoning line keeps the lines in step. */
  lemma ReasonsFollowStep(reasons: seq<Reason>, order: seq<string>, calibrated: Scores, name: string, reason: Reason)
    requires ReasonsFollow(reasons, order, calibrated)
    requires name in calibrated && reason == ReasonFor(name, calibrated[name])
    ensures ReasonsFollow(reasons + [reason], order + [name], calibrated)
  {
    var reasons', order' := reasons + [reason], order + [name];
    forall i | 0 <= i < |order'|
      ensures order'[i] in calibrated && reasons'[i] == ReasonFor(order'[i], calibrated[order'[i]])
    {
      if i < |order| {
        assert order'[i] == order[i] && reasons'[i] == reasons[i];
      }
    }
  }

  method WeighScores(calibrated: Scores, weights: string -> real)
    returns (weightedSum: real, totalWeight: real, reasons: seq<Reason>, ghost order: seq<string>)
    ensures weightedSum == WeightedSum(calibrated, weights)
    ensures totalWeight == TotalWeight(calibrated, weights)
    ensures VisitsEachKey(order, Contributors(calibrated, calibrated.Keys, weights))
    ensures ReasonsFollow(reasons, order, calibrated)
  {
    weightedSum, totalWeight, reasons, order := 0.0, 0.0, [], [];
    var pending := calibrated.Keys;
    while pending != {}
      invariant WeighedSoFar(calibrated, weights, pending, weightedSum, totalWeight, reasons, order)
      decreases pending
    {
      pending, weightedSum, totalWeight, reasons, order :=
        WeighNext(calibrated, weights, pending, weightedSum, totalWeight, reasons, order);
    }
    assert calibrated.Keys - pending == calibrated.Keys;
  }

  /** The loop invariant of `WeighScores`: the sums, the visiting order and
      the reasons cover exactly the contributing names already taken out
      of `pending`. */
  ghost predicate WeighedSoFar(calibrated: Scores, weights: string -> real, pending: set<string>,
                               weightedSum: real, totalWeight: real, reasons: seq<Reason>, order: seq<string>)
  {
    && pending <= calibrated.Keys
    && weightedSum == Sum(Contributors(calibrated, calibrated.Keys - pending, weights), ContributionOf(calibrated, weights))
    && totalWeight == Sum(Contributors(calibrated, calibrated.Keys - pending, weights), AdaptiveWeightOf(calibrated, weights))
    && VisitsEachKey(order, Contributors(calibrated, calibrated.Keys - pending, weights))
    && ReasonsFollow(reasons, order, calibrated)
  }

  /** One pass of the loop in `WeighScores`: some pending name is taken out
      and, when it contributes, weighed. */
  method WeighNext(calibrated: Scores, weights: string -> real, pending0: set<string>,
                   weightedSum0: real, totalWeight0: real, reasons0: seq<Reason>, ghost order0: seq<string>)
    returns (pending: set<string>, weightedSum: real, totalWeight: real, reasons: seq<Reason>, ghost order: seq<string>)
    requires pending0 != {}
    requires WeighedSoFar(calibrated, weights, pending0, weightedSum0, totalWeight0, reasons0, order0)
    ensures pending < pending0
    ensures WeighedSoFar(calibrated, weights, pending, weightedSum, totalWeight, reasons, order)
  {
    weightedSum, totalWeight, reasons, order := weightedSum0, totalWeight0, reasons0, order0;
    var name :| name in pending0;
    ghost var done := Contributors(calibrated, calibrated.Keys - pending0, weights);
    ContributorsStep(calibrated, weights, pending0, name);
    pending := pending0 - {name};
    if !Contributes(name, weights) {
      return;
    }
    var adaptiveWeight, contribution, reason := WeighOne(calibrated, weights, name);
    SumAdd(done, ContributionOf(calibrated, weights), name);
    SumAdd(done, AdaptiveWeightOf(calibrated, weights), name);
    ReasonsFollowStep(reasons, order, calibrated, name, reason);
    weightedSum := weightedSum + contribution;
    totalWeight := totalWeight + adaptiveWeight;
    reasons, order := reasons + [reason], order + [name];
  }

  /** Taking one more name out of the pending set adds it to the contributors exactly when it contributes. */
  lemma ContributorsStep(calibrated: Scores, weights: string -> real, pending: set<string>, name: string)
    requires name in pending && pending <= calibrated.Keys
    ensures Contributes(name, weights) ==>
      Contributors(calibrated, calibrated.Keys - (pending - {name}), weights) == Contributors(calibrated, calibrated.Keys - pending, weights) + {name}
    ensures !Contributes(name, weights) ==>
      Contributors(calibrated, calibrated.Keys - (pending - {name}), weights) == Contributors(calibrated, calibrated.Keys - pending, weights)
  {
  }

  /** One contributing method's adaptive weight, weighted score and reasoning line. */
  method WeighOne(calibrated: Scores, weights: string -> real, name: string) returns (adaptiveWeight: real, contribution: real, reason: Reason)
    requires name in calibrated
    ensures adaptiveWeight == AdaptiveWeightOf(calibrated, weights)(name)
    ensures contribution == ContributionOf(calibrated, weights)(name)
    ensures reason == ReasonFor(name, calibrated[name])
  {
    var score := calibrated[name];
    adaptiveWeight := weights(name);
    if score >= 0.8 {
      adaptiveWeight := adaptiveWeight * 1.2;
    } else if score <= 0.2 {
      adaptiveWeight := adaptiveWeight * 1.3;
    }
    contribution := score * adaptiveWeight;
    if score >= 0.7 {
      reason := StrongIndicators(name, score * 100.0);
    } else if score <= 0.3 {
      reason := AuthenticityIndicators(name, (1.0 - score) * 100.0);
    } else {
      reason := ModerateSignals(name, score * 100.0);
    }
  }

  /** The total weight is zero exactly when no method contributes. */
  lemma NoWeightIffNoContributors(calibrated: Scores, weights: string -> real)
    requires forall n :: weights(n) >= 0.0
    ensures TotalWeight(calibrated, weights) == 0.0 <==> Contributors(calibrated, calibrated.Keys, weights) == {}
  {
    var c := Contributors(calibrated, calibrated.Keys, weights);
    forall n | n in c ensures AdaptiveWeightOf(calibrated, weights)(n) > 0.0 {
      assert AdaptiveWeight(weights(n), At(calibrated, n)) >= weights(n) > 0.0;
    }
    SumPositive(c, AdaptiveWeightOf(calibrated, weights));
  }

  /** A contribution lies between 0 and the method's adaptive weight. */
  lemma ContributionBounds(score: real, weight: real, contribution: real)
    requires 0.0 <= score <= 1.0 && weight > 0.0 && contribution == score * weight
    ensures 0.0 <= contribution <= weight
  {
  }

  /** The weighted average of probabilities is a probability. */
  lemma BaseScoreInUnitInterval(calibrated: Scores, weights: string -> real)
    requires forall n :: weights(n) >= 0.0
    requires forall n :: n in calibrated ==> 0.0 <= calibrated[n] <= 1.0
    requires Contributors(calibrated, calibrated.Keys, weights) != {}
    ensures TotalWeight(calibrated, weights) > 0.0
    ensures 0.0 <= WeightedSum(calibrated, weights) / TotalWeight(calibrated, weights) <= 1.0
  {
    var c := Contributors(calibrated, calibrated.Keys, weights);
    NoWeightIffNoContributors(calibrated, weights);
    SumPositive(c, AdaptiveWeightOf(calibrated, weights));
    forall n | n in c
      ensures 0.0 <= ContributionOf(calibrated, weights)(n) <= AdaptiveWeightOf(calibrated, weights)(n)
    {
      var w := AdaptiveWeight(weights(n), At(calibrated, n));
      assert w >= weights(n) > 0.0;
      ContributionBounds(calibrated[n], w, ContributionOf(calibrated, weights)(n));
    }
    SumMonotone(c, ContributionOf(calibrated, weights), AdaptiveWeightOf(calibrated, weights));
    SumNonNegative(c, ContributionOf(calibrated, weights));
    FractionInUnitInterval(WeightedSum(calibrated, weights), TotalWeight(calibrated, weights));
  }

  lemma FractionInUnitInterval(a: real, b: real)
    requires 0.0 <= a <= b && b > 0.0
    ensures 0.0 <= a / b <= 1.0
  {
    var q := a / b;
    assert q * b == a;
  }

  // ---------------------------------------------------------------------
  // Final score
  // ---------------------------------------------------------------------

  /** The quality bonus on the share of ten methods that produced a score. */
  function QualityBonus(count: nat): (bonus: real)
    ensures count >= 8 ==> bonus == 1.05
    ensures count < 5 ==> bonus == 0.95
    ensures 5 <= count < 8 ==> bonus == 1.0
  {
    var analysisQuality := count as real / 10.0;
    if analysisQuality >= 0.8 then 1.05
    else if analysisQuality < 0.5 then 0.95
    else 1.0
  }

  /** base × boost × bonus, clamped to [0, 1]. */
  function FinalScore(weightedSum: real, totalWeight: real, boost: real, count: nat): (r: real)
    requires totalWeight != 0.0
    ensures 0.0 <= r <= 1.0
  {
    Clamp(weightedSum / totalWeight * boost * QualityBonus(count), 0.0, 1.0)
  }

  /** With a base score in [0, 1] and a positive boost only the upper clamp
      can act: the final score is the product, capped at 1. */
  lemma FinalScoreOfProbability(weightedSum: real, totalWeight: real, boost: real, count: nat)
    requires totalWeight != 0.0 && 0.0 <= weightedSum / totalWeight <= 1.0 && boost > 0.0
    ensures FinalScore(weightedSum, totalWeight, boost, count)
      == Min(1.0, weightedSum / totalWeight * boost * QualityBonus(count))
  {
    var base := weightedSum / totalWeight;
    assert base * boost >= 0.0;
    assert base * boost * QualityBonus(count) >= 0.0;
  }

  // ---------------------------------------------------------------------
  // The report
  // ---------------------------------------------------------------------

  /** One category of the separate analysis: its average (-1 without data),
      that average as a percentage, its methods and its category verdict. */
  datatype CategoryReport = CategoryReport(score: real, percentage: real, methods: Scores, verdict: CategoryVerdict)

  datatype Details = Details(
    analysisQuality: real,
    computerVision: CategoryReport,
    computerVisionExplanation: CVExplanation,
    aiAnalysis: CategoryReport,
    aiExplanation: AINote,
    difference: real,
    agreement: AgreementLevel,
    dominant: DominantMethod,
    weightedScores: Scores,
    strengthIndicators: seq<Strength>,
    consistency: ConsistencyCheck)

  /** The report: "Analysis Failed" with probability 0, confidence 0 and the
      technical-error line, or a labelled verdict with its description. */
  datatype Report =
    | Failed(scores: Scores)
    | Verdict(verdict: Determination.Label, probability: real, confidence: real,
              reasoning: seq<Reason>, scores: Scores, details: Details)

  ghost predicate DescribesCategory(c: CategoryReport, m: Scores)
  {
    && c.methods == m
    && c.score == CategoryAverage(m)
    && c.percentage == c.score * 100.0
    && c.verdict == GetCategoryVerdict(c.score)
  }

  /** What the description says about the scores of `resultCount` results. */
  ghost predicate DescribedBy(d: Details, resultCount: nat, scores: Scores)
  {
    var cv := Category(scores, ComputerVisionMethods);
    var ai := Category(scores, AIMethods);
    && d.analysisQuality == CalculateAnalysisQuality(resultCount, |scores|)
    && DescribesCategory(d.computerVision, cv)
    && DescribesCategory(d.aiAnalysis, ai)
    && (d.computerVisionExplanation == NoComputerVision <==> |cv| == 0)
    && (d.computerVisionExplanation.CVNotes? ==>
          exists order :: CVNotesListing(d.computerVisionExplanation.notes, order, cv))
    && (|ai| == 0 ==> d.aiExplanation == NoAIAnalysis)
    && (|ai| > 0 ==> exists k :: k in ai && d.aiExplanation == AINoteFor(ai[k]))
    && d.difference == CalculateDifference(d.computerVision.score, d.aiAnalysis.score)
    && d.agreement == CalculateAgreementLevel(d.computerVision.score, d.aiAnalysis.score)
    && d.dominant == GetDominantMethodSimple(d.computerVision.score, d.aiAnalysis.score)
    && d.weightedScores.Keys == scores.Keys * Weights().Keys
    && (forall n :: n in d.weightedScores ==> d.weightedScores[n] == scores[n] * Weights()[n])
    && (exists order :: StrengthListing(d.strengthIndicators, order, scores))
    && d.consistency == ConsistencyOf(scores)
  }

  method DescribeCategory(m: Scores) returns (c: CategoryReport)
    ensures DescribesCategory(c, m)
  {
    var score := CategoryScore(m);
    c := CategoryReport(score, score * 100.0, m, GetCategoryVerdict(score));
  }

  method Describe(resultCount: nat, scores: Scores, cvScores: Scores, aiScores: Scores) returns (d: Details)
    requires cvScores == Category(scores, ComputerVisionMethods)
    requires aiScores == Category(scores, AIMethods)
    ensures DescribedBy(d, resultCount, scores)
  {
    var cv := DescribeCategory(cvScores);
    var ai := DescribeCategory(aiScores);
    var cvExplanation, cvOrder := GenerateComputerVisionExplanation(cvScores);
    var aiExplanation := GenerateAIExplanation(aiScores);
    var weighted := CalculateWeightedBreakdown(scores, Weights());
    var strength, strengthOrder := AnalyzeStrengthIndicators(scores);
    var consistency := CheckConsistency(scores);
    d := Details(
      CalculateAnalysisQuality(resultCount, |scores|),
      cv, cvExplanation, ai, aiExplanation,
      CalculateDifference(cv.score, ai.score),
      CalculateAgreementLevel(cv.score, ai.score),
      GetDominantMethodSimple(cv.score, ai.score),
      weighted, strength, consistency);
    assert cvExplanation.CVNotes? ==> CVNotesListing(cvExplanation.notes, cvOrder, cvScores);
    assert StrengthListing(strength, strengthOrder, scores);
  }

  /** The scores after calibration, as a map. */
  function CalibratedMap(scores: Scores): (r: Scores)
    ensures r.Keys == scores.Keys
    ensures forall n :: n in r ==> r[n] == Calibration.Calibrated(n, scores[n])
  {
    map n | n in scores :: Calibration.Calibrated(n, scores[n])
  }

  lemma CalibratedMapIs(scores: Scores, calibrated: Scores)
    requires calibrated.Keys == scores.Keys
    requires forall n :: n in calibrated ==> calibrated[n] == Calibration.Calibrated(n, scores[n])
    ensures calibrated == CalibratedMap(scores)
  {
  }

  /** The weighted outcome for scores that hold no definitive evidence. */
  ghost predicate WeighedAs(report: Report, scores: Scores)
  {
    var calibrated := CalibratedMap(scores);
    && (report.Failed? <==> Contributors(calibrated, calibrated.Keys, WeightOf) == {})
    && (report.Verdict? ==>
          TotalWeight(calibrated, WeightOf) != 0.0
          && var final := FinalScore(WeightedSum(calibrated, WeightOf), TotalWeight(calibrated, WeightOf),
                                     Boost.AdvancedBoost(calibrated), |scores|);
          && report.probability == final * 100.0
          && (report.verdict, report.confidence) == Determination.BalancedVerdict(final, |calibrated|,
               Determination.ConfidenceOf(|calibrated|, |calibrated|, Determination.Consistency(calibrated)))
          && exists order :: VisitsEachKey(order, Contributors(calibrated, calibrated.Keys, WeightOf))
                          && ReasonsFollow(report.reasoning, order, calibrated))
  }

  /** Calibration, weighting, boost and determination for scores that hold no definitive evidence. */
  method WeighedVerdict(scores: Scores, details: Details) returns (report: Report)
    ensures report.scores == scores
    ensures report.Verdict? ==> report.details == details && 0.0 <= report.probability <= 100.0
    ensures WeighedAs(report, scores)
  {
    var calibrated := Calibration.ApplyBalancedCalibration(scores);
    CalibratedMapIs(scores, calibrated);
    var patternBoost := Boost.CalculateAdvancedBoost(calibrated);
    var weightedSum, totalWeight, reasons, order := WeighScores(calibrated, WeightOf);
    NoWeightIffNoContributors(calibrated, WeightOf);
    if totalWeight == 0.0 {
      report := Failed(scores);
      return;
    }
    var finalScore := FinalScore(weightedSum, totalWeight, patternBoost, |scores|);
    var verdict, confidence := Determination.DetermineBalancedVerdict(finalScore, calibrated);
    report := Verdict(verdict, finalScore * 100.0, confidence, reasons, scores, details);
  }

  method CalculateOverallVerdict(results: map<string, Json>, c2pa: C2PAScorer)
    returns (report: Report, ghost visited: set<string>)
    ensures ScoredAs(results, c2pa, visited, report.scores)
    ensures report.Verdict? ==> DescribedBy(report.details, |results|, report.scores)
    ensures report.Verdict? ==> 0.0 <= report.probability <= 100.0
    ensures !NoDefinitive(report.scores) ==>
      && report.Verdict? && report.verdict == Determination.AIGenerated
      && report.probability == 100.0 && report.confidence == 0.95
      && report.reasoning == [C2PAConfirms]
    ensures NoDefinitive(report.scores) ==> visited == results.Keys && WeighedAs(report, report.scores)
  {
    var scores, cvScores, aiScores, definitive;
    scores, cvScores, aiScores, definitive, visited := ScoreResults(results, c2pa);
    var details := Describe(|results|, scores, cvScores, aiScores);
    if definitive.Some? {
      MetadataNeverDefinitive(results, c2pa, visited, scores);
      report := Verdict(Determination.AIGenerated, 1.0 * 100.0, 0.95, [definitive.value], scores, details);
      return;
    }
    report := WeighedVerdict(scores, details);
  }
}
