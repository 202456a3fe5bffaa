/**
 * The older explanation helpers of the verdict package: the traditional
 * (computer-vision) sentence, the metadata sentence and the agreement of the
 * three category scores.  The two sentence builders range over a Go map, so
 * the order of the names they list is the map's unspecified iteration order;
 * the model returns the listed names and states which names they are.
 */
module VerdictHelpers {
  import opened Common
  import opened Stages
  import opened VerdictStats
  import opened VerdictDetails

  // ---------------------------------------------------------------------
  // Traditional explanation
  // ---------------------------------------------------------------------

  /** The names among `names` scored at least 0.7. */
  function HighScored(scores: Scores, names: set<string>): (r: set<string>)
    ensures r <= names
  {
    set n | n in names && n in scores && scores[n] >= 0.7
  }

  /** The names among `names` scored at most 0.3. */
  function LowScored(scores: Scores, names: set<string>): (r: set<string>)
    ensures r <= names
  {
    set n | n in names && n in scores && scores[n] <= 0.3
  }

  /** "Computer Vision detected AI patterns in: …", "… found authentic
      patterns in: …" or "… analysis shows mixed results". */
  datatype TraditionalExplanation =
    | AIPatterns(methods: seq<string>)
    | AuthenticPatterns(methods: seq<string>)
    | MixedResults

  /** Moving one name from the pending set to the visited ones adds it to
      each band it belongs to and to no other. */
  lemma BandStep(scores: Scores, pending: set<string>, name: string)
    requires name in pending && pending <= scores.Keys
    ensures var before, after := scores.Keys - pending, scores.Keys - (pending - {name});
      && HighScored(scores, after) == HighScored(scores, before) + (if scores[name] >= 0.7 then {name} else {})
      && LowScored(scores, after) == LowScored(scores, before) + (if scores[name] < 0.7 && scores[name] <= 0.3 then {name} else {})
  {
  }

  /** Appending a new key to a listing of a set lists the larger set. */
  lemma VisitsAppend(order: seq<string>, keys: set<string>, k: string)
    requires VisitsEachKey(order, keys) && k !in keys
    ensures VisitsEachKey(order + [k], keys + {k})
  {
  }

  /** A listing is empty exactly when the listed set is. */
  lemma VisitsEmpty(order: seq<string>, keys: set<string>)
    requires VisitsEachKey(order, keys)
    ensures |order| == 0 <==> keys == {}
  {
    if |order| > 0 {
      assert order[0] in keys;
    }
  }

  /** Lists the high-scored methods if there are any, otherwise the
      low-scored ones, otherwise reports mixed results.  A score of 0.7 or
      more is high; one of 0.3 or less is low. */
  method GenerateTraditionalExplanation(scores: Scores) returns (e: TraditionalExplanation)
    ensures e.AIPatterns? <==> HighScored(scores, scores.Keys) != {}
    ensures e.AuthenticPatterns? <==> HighScored(scores, scores.Keys) == {} && LowScored(scores, scores.Keys) != {}
    ensures e.AIPatterns? ==> VisitsEachKey(e.methods, HighScored(scores, scores.Keys))
    ensures e.AuthenticPatterns? ==> VisitsEachKey(e.methods, LowScored(scores, scores.Keys))
  {
    var high: seq<string> := [];
    var low: seq<string> := [];
    var pending := scores.Keys;
    while pending != {}
      invariant pending <= scores.Keys
      invariant VisitsEachKey(high, HighScored(scores, scores.Keys - pending))
      invariant VisitsEachKey(low, LowScored(scores, scores.Keys - pending))
      decreases pending
    {
      var name :| name in pending;
      BandStep(scores, pending, name);
      var score := scores[name];
      if score >= 0.7 {
        VisitsAppend(high, HighScored(scores, scores.Keys - pending), name);
        high := high + [name];
      } else if score <= 0.3 {
        VisitsAppend(low, LowScored(scores, scores.Keys - pending), name);
        low := low + [name];
      }
      pending := pending - {name};
    }
    assert scores.Keys - pending == scores.Keys;
    VisitsEmpty(high, HighScored(scores, scores.Keys));
    VisitsEmpty(low, LowScored(scores, scores.Keys));
    if |high| > 0 {
      e := AIPatterns(high);
    } else if |low| > 0 {
      e := AuthenticPatterns(low);
    } else {
      e := MixedResults;
    }
  }

  // ---------------------------------------------------------------------
  // Metadata explanation
  // ---------------------------------------------------------------------

  datatype MetadataFinding =
    | C2PAIndicatesAI        // "C2PA verification indicates AI generation"
    | NoC2PAMarkers          // "No C2PA AI markers found"
    | EXIFShowsProcessing    // "EXIF metadata shows processing indicators"
    | EXIFAppearsNatural     // "EXIF metadata appears natural"
    | MetadataSuggestsAI     // "General metadata analysis suggests AI origin"
    | MetadataAppearsAuthentic // "Metadata patterns appear authentic"

  /** The methods the metadata sentence speaks about. */
  const MetadataMethods: set<string> := {C2PAStage, ExifStage, MetadataStage}

  /** The finding for one of the three metadata methods: c2pa and metadata
      turn at 0.7, exif at 0.5. */
  function FindingFor(name: string, score: real): (f: MetadataFinding)
    requires name in MetadataMethods
    ensures name == C2PAStage ==> (f == C2PAIndicatesAI <==> score >= 0.7) && (f == C2PAIndicatesAI || f == NoC2PAMarkers)
    ensures name == ExifStage ==> (f == EXIFShowsProcessing <==> score >= 0.5) && (f == EXIFShowsProcessing || f == EXIFAppearsNatural)
    ensures name == MetadataStage ==> (f == MetadataSuggestsAI <==> score >= 0.7) && (f == MetadataSuggestsAI || f == MetadataAppearsAuthentic)
  {
    if name == C2PAStage then (if score >= 0.7 then C2PAIndicatesAI else NoC2PAMarkers)
    else if name == ExifStage then (if score >= 0.5 then EXIFShowsProcessing else EXIFAppearsNatural)
    else (if score >= 0.7 then MetadataSuggestsAI else MetadataAppearsAuthentic)
  }

  /** "No metadata analysis available", or the findings joined by "; ". */
  datatype MetadataExplanation = NoMetadataAnalysis | Findings(findings: seq<MetadataFinding>)

  /** The scored names the metadata sentence speaks about. */
  function MetadataScored(scores: Scores, names: set<string>): (r: set<string>)
    ensures r <= MetadataMethods
  {
    set n | n in names && n in scores && n in MetadataMethods
  }

  lemma MetadataStep(scores: Scores, pending: set<string>, name: string)
    requires name in pending && pending <= scores.Keys
    ensures name in MetadataMethods ==>
      MetadataScored(scores, scores.Keys - (pending - {name})) == MetadataScored(scores, scores.Keys - pending) + {name}
    ensures name !in MetadataMethods ==>
      MetadataScored(scores, scores.Keys - (pending - {name})) == MetadataScored(scores, scores.Keys - pending)
  {
  }

  /** One finding per c2pa, exif or metadata entry, in the order the map is
      visited; every other name is ignored. */
  method GenerateMetadataExplanation(scores: Scores) returns (e: MetadataExplanation, ghost order: seq<string>)
    ensures e == NoMetadataAnalysis <==> MetadataScored(scores, scores.Keys) == {}
    ensures VisitsEachKey(order, MetadataScored(scores, scores.Keys))
    ensures e.Findings? ==>
      && |e.findings| == |order|
      && forall i :: 0 <= i < |order| ==>
           (order[i] in MetadataMethods && order[i] in scores && e.findings[i] == FindingFor(order[i], scores[order[i]]))
  {
    var findings: seq<MetadataFinding> := [];
    order := [];
    var pending := scores.Keys;
    while pending != {}
      invariant pending <= scores.Keys
      invariant VisitsEachKey(order, MetadataScored(scores, scores.Keys - pending))
      invariant |findings| == |order|
      invariant forall i :: 0 <= i < |order| ==>
                  (order[i] in MetadataMethods && order[i] in scores && findings[i] == FindingFor(order[i], scores[order[i]]))
      decreases pending
    {
      var name :| name in pending;
      MetadataStep(scores, pending, name);
      var score := scores[name];
      var finding: Option<MetadataFinding> := None;
      if name == C2PAStage {
        finding := Some(if score >= 0.7 then C2PAIndicatesAI else NoC2PAMarkers);
      } else if name == ExifStage {
        finding := Some(if score >= 0.5 then EXIFShowsProcessing else EXIFAppearsNatural);
      } else if name == MetadataStage {
        finding := Some(if score >= 0.7 then MetadataSuggestsAI else MetadataAppearsAuthentic);
      }
      if finding.Some? {
        VisitsAppend(order, MetadataScored(scores, scores.Keys - pending), name);
        findings, order := findings + [finding.value], order + [name];
      }
      pending := pending - {name};
    }
    assert scores.Keys - pending == scores.Keys;
    VisitsEmpty(order, MetadataScored(scores, scores.Keys));
    if |findings| == 0 {
      e := NoMetadataAnalysis;
    } else {
      e := Findings(findings);
    }
  }

  // ---------------------------------------------------------------------
  // Agreement of the three category scores
  // ---------------------------------------------------------------------

  datatype MethodAgreement = StrongMethodAgreement | ModerateMethodAgreement | WeakMethodAgreement

  datatype AgreementReport = AgreementReport(level: MethodAgreement, confidence: real, maxDifference: real)

  /** The distance between two category scores when both have data
      (negative means no data); 0 otherwise. */
  function PairDifference(a: real, b: real): (d: real)
    ensures d >= 0.0
    ensures a < 0.0 || b < 0.0 ==> d == 0.0
  {
    if a >= 0.0 && b >= 0.0 then Abs(a - b) else 0.0
  }

  /** The largest distance between two of the three scores that both have data, or 0. */
  function MaxDifference(scores: seq<real>): (d: real)
    requires |scores| == 3
    ensures d >= 0.0
    ensures forall i, j :: 0 <= i < j < 3 ==> PairDifference(scores[i], scores[j]) <= d
    ensures d == 0.0 || exists i, j :: 0 <= i < j < 3 && d == PairDifference(scores[i], scores[j])
  {
    var d01, d02, d12 := PairDifference(scores[0], scores[1]), PairDifference(scores[0], scores[2]), PairDifference(scores[1], scores[2]);
    assert d01 == PairDifference(scores[0], scores[1]);
    Max(Max(d01, d02), d12)
  }

  /** Strong up to 0.2 (confidence 0.9), moderate up to 0.4 (0.7), weak beyond (0.5). */
  function AgreementFor(maxDiff: real): (r: AgreementReport)
    ensures r.maxDifference == maxDiff
    ensures r.level == StrongMethodAgreement <==> maxDiff <= 0.2
    ensures r.level == ModerateMethodAgreement <==> 0.2 < maxDiff <= 0.4
    ensures r.level == StrongMethodAgreement ==> r.confidence == 0.9
    ensures r.level == ModerateMethodAgreement ==> r.confidence == 0.7
    ensures r.level == WeakMethodAgreement ==> r.confidence == 0.5
  {
    if maxDiff <= 0.2 then AgreementReport(StrongMethodAgreement, 0.9, maxDiff)
    else if maxDiff <= 0.4 then AgreementReport(ModerateMethodAgreement, 0.7, maxDiff)
    else AgreementReport(WeakMethodAgreement, 0.5, maxDiff)
  }

  /** Compares every pair of the traditional, AI and metadata scores that
      both have data and bands the largest difference. */
  method AnalyzeMethodAgreement(traditional: real, ai: real, metadata: real) returns (r: AgreementReport)
    ensures r == AgreementFor(MaxDifference([traditional, ai, metadata]))
  {
    var maxDiff := 0.0;
    var scores := [traditional, ai, metadata];
    for i := 0 to |scores|
      invariant maxDiff >= 0.0
      invariant forall p, q :: 0 <= p < i && p < q < 3 ==> PairDifference(scores[p], scores[q]) <= maxDiff
      invariant maxDiff == 0.0 || exists p, q :: 0 <= p < q < 3 && maxDiff == PairDifference(scores[p], scores[q])
    {
      for j := i + 1 to |scores|
        invariant maxDiff >= 0.0
        invariant forall p, q :: 0 <= p < i && p < q < 3 ==> PairDifference(scores[p], scores[q]) <= maxDiff
        invariant forall q :: i < q < j ==> PairDifference(scores[i], scores[q]) <= maxDiff
        invariant maxDiff == 0.0 || exists p, q :: 0 <= p < q < 3 && maxDiff == PairDifference(scores[p], scores[q])
      {
        if scores[i] >= 0.0 && scores[j] >= 0.0 {
          var diff := Abs(scores[i] - scores[j]);
          if diff > maxDiff {
            maxDiff := diff;
          }
        }
      }
    }
    MaxCharacterised(scores, maxDiff);
    r := AgreementFor(maxDiff);
  }

  /** A value that bounds every pair difference and is 0 or one of them is
      the maximum difference. */
  lemma MaxCharacterised(scores: seq<real>, m: real)
    requires |scores| == 3
    requires forall p, q :: 0 <= p < q < 3 ==> PairDifference(scores[p], scores[q]) <= m
    requires m == 0.0 || exists p, q :: 0 <= p < q < 3 && m == PairDifference(scores[p], scores[q])
    ensures m == MaxDifference(scores)
  {
    var d := MaxDifference(scores);
    if m != 0.0 {
      var p, q :| 0 <= p < q < 3 && m == PairDifference(scores[p], scores[q]);
      assert m <= d;
    }
    if d != 0.0 {
      var p, q :| 0 <= p < q < 3 && d == PairDifference(scores[p], scores[q]);
      assert d <= m;
    }
  }

  /** A category without data never changes the agreement: only the other
      two scores are compared. */
  lemma MissingCategoryIgnored(traditional: real, ai: real, metadata: real)
    requires metadata < 0.0
    ensures MaxDifference([traditional, ai, metadata]) == PairDifference(traditional, ai)
  {
    var s := [traditional, ai, metadata];
    assert PairDifference(s[0], s[2]) == 0.0 && PairDifference(s[1], s[2]) == 0.0;
  }

  /** With no data at all the agreement is strong, at confidence 0.9. */
  lemma NoDataIsStrongMethodAgreement(traditional: real, ai: real, metadata: real)
    requires traditional < 0.0 && ai < 0.0 && metadata < 0.0
    ensures AgreementFor(MaxDifference([traditional, ai, metadata])) == AgreementReport(StrongMethodAgreement, 0.9, 0.0)
  {
    var s := [traditional, ai, metadata];
    assert PairDifference(s[0], s[1]) == 0.0 && PairDifference(s[0], s[2]) == 0.0 && PairDifference(s[1], s[2]) == 0.0;
  }
}
