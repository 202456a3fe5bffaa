/**
 * The staged analysis pipeline.
 *
 * A run hashes the image file, looks the key up in the shared analysis
 * cache and, on a miss, runs the stages: first the fast-track stages, then
 * (unless their results already settle the question) every stage in
 * priority order, skipping fast-track stages that already hold a result.
 * A stage that fails is logged and skipped; after every stage that
 * succeeds in the full phase the caller's cancellation is checked.  The
 * finished result is cached for thirty minutes.
 *
 * What a stage computes, and whether the caller has cancelled, are not
 * visible here: a stage run is an oracle `run(name, phase)` returning a
 * value or a failure (a timeout is a failure), and cancellation is an
 * oracle `cancelled(name)` read right after stage `name` succeeded in the
 * full phase.  SHA-256 is a function parameter returning 32 bytes.
 */
module Pipeline {
  import opened Common
  import opened GoValues
  import opened Stages
  import Cache
  import Monitoring

  // ---------------------------------------------------------------------
  // Stage outcomes and pipeline results
  // ---------------------------------------------------------------------

  datatype PhaseKind = FastTrackPhase | FullPhase

  datatype StageOutcome = Produced(value: Json) | StageFailed

  type StageRunner = (string, PhaseKind) -> StageOutcome

  type CancelProbe = string -> bool

  datatype PipelineResult = PipelineResult(
    results: map<string, Json>,
    stagesRun: seq<string>,
    processTime: int,
    earlyExit: bool,
    confidence: real,
    cacheHit: bool)

  /** The cache stores untyped values; only a stored pipeline result is a usable hit. */
  datatype CacheValue = CachedResult(result: PipelineResult) | OtherValue(value: Json)

  datatype RunError = CacheKeyError | PipelineCancelled

  datatype RunResult = Finished(result: PipelineResult) | Aborted(error: RunError)

  /** Thirty minutes, in nanoseconds. */
  const CacheTTL: int := 30 * 60 * 1_000_000_000

  const EarlyConfidence: real := 0.98

  // ---------------------------------------------------------------------
  // Cache key: "analysis_" followed by the lower-case hex digest
  // ---------------------------------------------------------------------

  function HexDigit(d: int): char
    requires 0 <= d < 16
  {
    if d < 10 then ('0' as int + d) as char else ('a' as int + d - 10) as char
  }

  function HexValue(c: char): Option<int>
  {
    if '0' <= c <= '9' then Some(c as int - '0' as int)
    else if 'a' <= c <= 'f' then Some(c as int - 'a' as int + 10)
    else None
  }

  /** Go's `%x` of a byte slice: two lower-case hex digits per byte. */
  function Hex(bs: seq<byte>): (h: string)
    ensures |h| == 2 * |bs|
  {
    if bs == [] then [] else [HexDigit(bs[0] as int / 16), HexDigit(bs[0] as int % 16)] + Hex(bs[1..])
  }

  function DecodeHex(h: string): Option<seq<byte>>
    decreases |h|
  {
    if h == [] then Some([])
    else if |h| == 1 then None
    else match (HexValue(h[0]), HexValue(h[1]), DecodeHex(h[2..]))
      case (Some(hi), Some(lo), Some(rest)) => Some([(hi * 16 + lo) as byte] + rest)
      case _ => None
  }

  /** Hex encoding loses nothing: decoding it gives the bytes back. */
  lemma {:induction false} HexRoundTrip(bs: seq<byte>)
    ensures DecodeHex(Hex(bs)) == Some(bs)
  {
    if bs != [] {
      var b := bs[0] as int;
      var h := Hex(bs);
      assert h[2..] == Hex(bs[1..]);
      HexRoundTrip(bs[1..]);
      HexDigitsOfByte(b);
      assert [(b / 16 * 16 + b % 16) as byte] + bs[1..] == bs;
    }
  }

  /** Each of a byte's two hex digits decodes back to its nibble. */
  lemma HexDigitsOfByte(b: int)
    requires 0 <= b < 256
    ensures HexValue(HexDigit(b / 16)) == Some(b / 16)
    ensures HexValue(HexDigit(b % 16)) == Some(b % 16)
    ensures b / 16 * 16 + b % 16 == b
  {
  }

  /** The key under which a file's analysis is cached. */
  function CacheKey(digest: seq<byte>): (k: string)
    ensures |k| == 9 + 2 * |digest|
    ensures HasPrefix(k, "analysis_")
  {
    "analysis_" + Hex(digest)
  }

  /** Different digests never share a cache key. */
  lemma CacheKeyInjective(d1: seq<byte>, d2: seq<byte>)
    requires CacheKey(d1) == CacheKey(d2)
    ensures d1 == d2
  {
    assert Hex(d1) == CacheKey(d1)[9..];
    assert Hex(d2) == CacheKey(d2)[9..];
    HexRoundTrip(d1);
    HexRoundTrip(d2);
  }

  /** A file that cannot be read has no key; otherwise the key depends only
      on the contents. */
  function GenerateCacheKey(file: Option<seq<byte>>, sha256: seq<byte> -> seq<byte>): (k: Option<string>)
    requires forall d :: |sha256(d)| == 32
    ensures k.None? <==> file.None?
    ensures k.Some? ==> |k.value| == 73 && k.value == CacheKey(sha256(file.value))
  {
    match file
    case None => None
    case Some(bytes) => Some(CacheKey(sha256(bytes)))
  }

  // ---------------------------------------------------------------------
  // Early exit
  // ---------------------------------------------------------------------

  const AIKeywords: seq<string> :=
    ["ChatGPT", "DALL-E", "Midjourney", "Stable Diffusion", "trainedAlgorithmicMedia", "AI generated"]

  /** The lower-cased text contains one of the lower-cased AI keywords. */
  predicate MentionsAIKeyword(s: string)
  {
    exists i | 0 <= i < |AIKeywords| :: HasSubstring(ToLower(s), ToLower(AIKeywords[i]))
  }

  /** Keyword matching ignores case. */
  lemma KeywordMatchIgnoresCase(s: string)
    ensures MentionsAIKeyword(ToLower(s)) <==> MentionsAIKeyword(s)
  {
    ToLowerIdempotent(s);
  }

  /** 1 when some string value of the metadata mentions an AI keyword, else -1. */
  function DetectAIFromMetadata(m: Object): (r: real)
    ensures r == 1.0 || r == -1.0
  {
    if exists k | k in m :: m[k].JStr? && MentionsAIKeyword(m[k].s) then 1.0 else -1.0
  }

  function FloatAt(m: Object, key: string): (r: Option<real>)
    ensures r.Some? <==> key in m && m[key].JFloat?
    ensures r.Some? ==> r.value == m[key].f
  {
    if key in m && m[key].JFloat? then Some(m[key].f) else None
  }

  function NestedFloat(m: Object, outer: string, inner: string): (r: Option<real>)
    ensures r.Some? <==> outer in m && m[outer].JObj? && FloatAt(m[outer].fields, inner).Some?
  {
    if outer in m && m[outer].JObj? then FloatAt(m[outer].fields, inner) else None
  }

  predicate HasDefinitiveMetadataEvidence(data: Json)
  {
    data.JObj? && DetectAIFromMetadata(data.fields) >= 0.95
  }

  predicate HasDefinitiveC2PAEvidence(data: Json)
  {
    data.JObj? && FloatAt(data.fields, "score").Some? && FloatAt(data.fields, "score").value >= 95.0
  }

  /** The fast-track results settle the verdict: a metadata-quick string
      mentions an AI keyword, or the C2PA score (a float) is at least 95. */
  function ShouldEarlyExit(enabled: bool, results: map<string, Json>): (b: bool)
    ensures b <==>
      enabled
      && (("metadata-quick" in results && results["metadata-quick"].JObj?
           && (exists k | k in results["metadata-quick"].fields ::
                 results["metadata-quick"].fields[k].JStr?
                 && MentionsAIKeyword(results["metadata-quick"].fields[k].s)))
          || ("c2pa" in results && results["c2pa"].JObj?
              && "score" in results["c2pa"].fields && results["c2pa"].fields["score"].JFloat?
              && results["c2pa"].fields["score"].f >= 95.0))
  {
    if !enabled then false
    else if "metadata-quick" in results && HasDefinitiveMetadataEvidence(results["metadata-quick"]) then true
    else if "c2pa" in results && HasDefinitiveC2PAEvidence(results["c2pa"]) then true
    else false
  }

  // ---------------------------------------------------------------------
  // Confidence
  // ---------------------------------------------------------------------

  /** 0.5 plus 0.4 times the share of registered stages that produced a result. */
  function FinalConfidence(totalStages: int, completed: int): (c: real)
    requires totalStages > 0
    ensures 0 <= completed <= totalStages ==> 0.5 <= c <= 0.9
    ensures completed == 0 ==> c == 0.5
    ensures completed == totalStages ==> c == 0.9
  {
    0.5 + (completed as real / totalStages as real) * 0.4
  }

  /** More completed stages never lower the confidence. */
  lemma FinalConfidenceMonotone(totalStages: int, c1: int, c2: int)
    requires totalStages > 0 && c1 <= c2
    ensures FinalConfidence(totalStages, c1) <= FinalConfidence(totalStages, c2)
  {
    var t := totalStages as real;
    assert c1 as real / t <= c2 as real / t;
  }

  // ---------------------------------------------------------------------
  // Confidence score extraction
  // ---------------------------------------------------------------------

  /** The scores the loop over all values can return first: Go visits the
      map in an unspecified order, so any nested candidate may win. */
  function NestedCompressionScores(m: Object): set<real>
  {
    set k | k in m && m[k].JObj? && NestedFloat(m[k].fields, "compression_ai_analysis", "ai_probability").Some?
      :: NestedFloat(m[k].fields, "compression_ai_analysis", "ai_probability").value
  }

  /** Every score the extractor can return for `data`; -1 means no signal.
      The fields are tried in a fixed order and the first float found wins.
      The source checks `overall_assessment.ai_probability_score` a second
      time, for pixel analysis; that check repeats an earlier one and can
      never succeed, so it is not repeated here. */
  function ExtractConfidenceScores(data: Json): (r: set<real>)
    ensures r != {}
    ensures !data.JObj? ==> r == {-1.0}
    ensures data.JObj? && FloatAt(data.fields, "ai_color_score").Some? ==>
      r == {data.fields["ai_color_score"].f}
    ensures |r| == 1 || r == NestedCompressionScores(data.fields)
  {
    if !data.JObj? then {-1.0}
    else
      var m := data.fields;
      if FloatAt(m, "ai_color_score").Some? then {FloatAt(m, "ai_color_score").value}
      else if NestedFloat(m, "advanced_assessment", "advanced_ai_probability").Some? then
        {NestedFloat(m, "advanced_assessment", "advanced_ai_probability").value}
      else if NestedFloat(m, "compression_ai_analysis", "ai_probability").Some? then
        {NestedFloat(m, "compression_ai_analysis", "ai_probability").value}
      else if NestedCompressionScores(m) != {} then NestedCompressionScores(m)
      else if NestedFloat(m, "overall_assessment", "ai_probability_score").Some? then
        {NestedFloat(m, "overall_assessment", "ai_probability_score").value}
      else if FloatAt(m, "score").Some? then {FloatAt(m, "score").value / 100.0}
      else if NestedFloat(m, "lighting_analysis", "ai_lighting_score").Some? then
        {NestedFloat(m, "lighting_analysis", "ai_lighting_score").value}
      else if NestedFloat(m, "object_analysis", "ai_coherence_score").Some? then
        {NestedFloat(m, "object_analysis", "ai_coherence_score").value}
      else if "prediction" in m && m["prediction"].JStr? && FloatAt(m, "probability").Some? then
        var p := FloatAt(m, "probability").value;
        {if m["prediction"].s == "fake" then p else 1.0 - p}
      else {-1.0}
  }

  /** None of the fields tried before the C2PA "score" is present as a float. */
  predicate NoScoreBeforeC2PA(m: Object)
  {
    FloatAt(m, "ai_color_score").None?
    && NestedFloat(m, "advanced_assessment", "advanced_ai_probability").None?
    && NestedFloat(m, "compression_ai_analysis", "ai_probability").None?
    && NestedCompressionScores(m) == {}
    && NestedFloat(m, "overall_assessment", "ai_probability_score").None?
  }

  /** No recognised field of the right type: the "no signal" sentinel. */
  predicate NoScoreFields(m: Object)
  {
    NoScoreBeforeC2PA(m)
    && FloatAt(m, "score").None?
    && NestedFloat(m, "lighting_analysis", "ai_lighting_score").None?
    && NestedFloat(m, "object_analysis", "ai_coherence_score").None?
  }

  lemma ExtractNoSignal(m: Object)
    requires NoScoreFields(m)
    requires !("prediction" in m && m["prediction"].JStr? && FloatAt(m, "probability").Some?)
    ensures ExtractConfidenceScores(JObj(m)) == {-1.0}
  {
  }

  /** A C2PA result reports its 0–100 score, whatever other keys it carries;
      the extractor scales it to 0–1 when no earlier field is present. */
  lemma ExtractC2PAScore(m: Object, score: real)
    requires NoScoreBeforeC2PA(m)
    requires FloatAt(m, "score") == Some(score)
    ensures ExtractConfidenceScores(JObj(m)) == {score / 100.0}
  {
  }

  /** A classifier result, whatever other keys it carries: the probability
      itself for "fake", its complement otherwise. */
  lemma ExtractPrediction(m: Object, prediction: string, probability: real)
    requires NoScoreFields(m)
    requires "prediction" in m && m["prediction"] == JStr(prediction)
    requires FloatAt(m, "probability") == Some(probability)
    ensures ExtractConfidenceScores(JObj(m)) == {if prediction == "fake" then probability else 1.0 - probability}
  {
  }

  // ---------------------------------------------------------------------
  // Fast-track phase
  // ---------------------------------------------------------------------

  function FastTrackNameSet(stages: seq<Stage>): set<string>
  {
    set i | 0 <= i < |stages| && stages[i].fastTrack :: stages[i].name
  }

  /** The fast-track stages that succeeded, each with the value it produced. */
  function FastTrackResults(stages: seq<Stage>, run: StageRunner): map<string, Json>
  {
    map n | n in FastTrackNameSet(stages) && run(n, FastTrackPhase).Produced? :: run(n, FastTrackPhase).value
  }

  // ---------------------------------------------------------------------
  // Full phase
  // ---------------------------------------------------------------------

  /** A fast-track stage that already holds a non-nil result is not run again. */
  predicate Skipped(s: Stage, results: map<string, Json>)
  {
    s.fastTrack && s.name in results && results[s.name] != JNull
  }

  datatype FullOutcome = Interrupted | Completed(results: map<string, Json>, stagesRun: seq<string>)

  /** The full phase, stage by stage, from the results and run list it starts with. */
  function RunFull(stages: seq<Stage>, results: map<string, Json>, ran: seq<string>,
                   run: StageRunner, cancelled: CancelProbe): FullOutcome
    decreases |stages|
  {
    if stages == [] then Completed(results, ran)
    else
      var s := stages[0];
      if Skipped(s, results) then RunFull(stages[1..], results, ran, run, cancelled)
      else match run(s.name, FullPhase)
        case StageFailed => RunFull(stages[1..], results, ran, run, cancelled)
        case Produced(v) =>
          if cancelled(s.name) then Interrupted
          else RunFull(stages[1..], results[s.name := v], ran + [s.name], run, cancelled)
  }

  /** The names, in run order, of the stages that are not skipped and succeed. */
  function Succeeding(stages: seq<Stage>, results: map<string, Json>, run: StageRunner): (r: seq<string>)
    ensures forall n :: n in r ==> run(n, FullPhase).Produced?
  {
    if stages == [] then []
    else
      var rest := Succeeding(stages[1..], results, run);
      if !Skipped(stages[0], results) && run(stages[0].name, FullPhase).Produced? then [stages[0].name] + rest
      else rest
  }

  /** A name succeeds exactly when some stage of that name is not skipped
      and produces a value in the full phase. */
  lemma {:induction false} SucceedingMembers(stages: seq<Stage>, results: map<string, Json>, run: StageRunner)
    ensures forall n :: n in Succeeding(stages, results, run) <==>
      (exists i :: 0 <= i < |stages| && stages[i].name == n && !Skipped(stages[i], results)
                   && run(n, FullPhase).Produced?)
    decreases |stages|
  {
    if stages != [] {
      SucceedingMembers(stages[1..], results, run);
      assert forall i :: 1 <= i < |stages| ==> stages[i] == stages[1..][i - 1];
      forall n | (exists i :: 0 <= i < |stages| && stages[i].name == n && !Skipped(stages[i], results)
                              && run(n, FullPhase).Produced?)
        ensures n in Succeeding(stages, results, run)
      {
        var i :| 0 <= i < |stages| && stages[i].name == n && !Skipped(stages[i], results) && run(n, FullPhase).Produced?;
        if i > 0 {
          assert stages[1..][i - 1] == stages[i];
        }
      }
    }
  }

  /** The results map after the full phase: every succeeding stage's value
      overrides what was there. */
  function Overridden(results: map<string, Json>, names: seq<string>, run: StageRunner): (r: map<string, Json>)
    ensures forall n :: n in r <==> n in results || (n in names && run(n, FullPhase).Produced?)
    ensures forall n :: n in names && run(n, FullPhase).Produced? ==> r[n] == run(n, FullPhase).value
    ensures forall n :: n in results && n !in names ==> r[n] == results[n]
  {
    var candidates := results.Keys + (set x | x in names);
    map n | n in candidates && (n in results || run(n, FullPhase).Produced?) ::
      if n in names && run(n, FullPhase).Produced? then run(n, FullPhase).value else results[n]
  }

  lemma OverriddenStep(results: map<string, Json>, name: string, v: Json, tail: seq<string>, run: StageRunner)
    requires run(name, FullPhase) == Produced(v)
    ensures Overridden(results[name := v], tail, run) == Overridden(results, [name] + tail, run)
  {
  }

  ghost predicate CancelledAmong(names: seq<string>, cancelled: CancelProbe)
  {
    exists n :: n in names && cancelled(n)
  }

  function ClosedForm(results: map<string, Json>, ran: seq<string>, succ: seq<string>,
                      run: StageRunner, cancelled: CancelProbe): FullOutcome
  {
    if exists i | 0 <= i < |succ| :: cancelled(succ[i]) then Interrupted
    else Completed(Overridden(results, succ, run), ran + succ)
  }

  lemma SucceedingFrame(stages: seq<Stage>, results: map<string, Json>, name: string, v: Json, run: StageRunner)
    requires forall i :: 0 <= i < |stages| ==> stages[i].name != name
    ensures Succeeding(stages, results[name := v], run) == Succeeding(stages, results, run)
    decreases |stages|
  {
    if stages != [] {
      SucceedingFrame(stages[1..], results, name, v, run);
    }
  }

  lemma TailFacts(stages: seq<Stage>)
    requires stages != [] && DistinctNames(stages)
    ensures DistinctNames(stages[1..])
    ensures forall i :: 0 <= i < |stages| - 1 ==> stages[1..][i].name != stages[0].name
  {
    var rest := stages[1..];
    forall i, j | 0 <= i < j < |rest| ensures rest[i].name != rest[j].name {
      assert rest[i] == stages[i + 1] && rest[j] == stages[j + 1];
    }
    forall i | 0 <= i < |rest| ensures rest[i].name != stages[0].name {
      assert rest[i] == stages[i + 1];
    }
  }

  /** A name that does not see the cancellation, put in front, changes
      nothing about whether some name sees it. */
  lemma CancelledShift(name: string, tail: seq<string>, cancelled: CancelProbe)
    requires !cancelled(name)
    ensures (exists i | 0 <= i < |[name] + tail| :: cancelled(([name] + tail)[i]))
        <==> (exists i | 0 <= i < |tail| :: cancelled(tail[i]))
  {
    var succ := [name] + tail;
    forall i | 0 <= i < |tail| ensures succ[i + 1] == tail[i] { }
    if exists i | 0 <= i < |succ| :: cancelled(succ[i]) {
      var i :| 0 <= i < |succ| && cancelled(succ[i]);
      assert cancelled(tail[i - 1]);
    }
  }

  /** The full phase in closed form: with distinct stage names it is
      interrupted exactly when some succeeding stage sees the cancellation;
      otherwise its results are the starting results overridden by every
      succeeding stage, and its run list is extended by their names in order. */
  lemma {:induction false} RunFullClosedForm(stages: seq<Stage>, results: map<string, Json>, ran: seq<string>,
                                            run: StageRunner, cancelled: CancelProbe)
    requires DistinctNames(stages)
    ensures RunFull(stages, results, ran, run, cancelled)
         == ClosedForm(results, ran, Succeeding(stages, results, run), run, cancelled)
    decreases |stages|
  {
    if stages == [] {
      assert Overridden(results, [], run) == results;
    } else {
      var s, rest := stages[0], stages[1..];
      TailFacts(stages);
      var succ := Succeeding(stages, results, run);
      if Skipped(s, results) || run(s.name, FullPhase).StageFailed? {
        assert succ == Succeeding(rest, results, run);
        RunFullClosedForm(rest, results, ran, run, cancelled);
      } else if cancelled(s.name) {
        assert succ[0] == s.name;
      } else {
        var v := run(s.name, FullPhase).value;
        SucceedingFrame(rest, results, s.name, v, run);
        RunFullClosedForm(rest, results[s.name := v], ran + [s.name], run, cancelled);
        var tail := Succeeding(rest, results, run);
        assert succ == [s.name] + tail;
        assert ran + [s.name] + tail == ran + succ;
        OverriddenStep(results, s.name, v, tail, run);
        CancelledShift(s.name, tail, cancelled);
      }
    }
  }

  // ---------------------------------------------------------------------
  // The whole analysis (everything after the cache lookup)
  // ---------------------------------------------------------------------

  /** `order` lists the keys of `m`, each once. */
  ghost predicate ListsKeys(order: seq<string>, m: map<string, Json>)
  {
    |order| == |m| && forall n :: n in order <==> n in m
  }

  /** The result of the analysis proper.  `mergeOrder` is the order in which
      the fast-track results were copied into the run list, which Go leaves
      to the map iteration order. */
  function FullAnalysis(stages: seq<Stage>, enabled: bool, run: StageRunner, cancelled: CancelProbe,
                        mergeOrder: seq<string>): (r: Option<PipelineResult>)
    requires stages != []
    ensures r.Some? ==> !r.value.cacheHit && r.value.processTime == 0
  {
    var ft := FastTrackResults(stages, run);
    if enabled && ShouldEarlyExit(enabled, ft) then
      Some(PipelineResult(ft, mergeOrder, 0, true, EarlyConfidence, false))
    else
      var start := if enabled then ft else map[];
      var ran := if enabled then mergeOrder else [];
      match RunFull(stages, start, ran, run, cancelled)
      case Interrupted => None
      case Completed(results, stagesRun) =>
        Some(PipelineResult(results, stagesRun, 0, false, FinalConfidence(|stages|, |results|), false))
  }

  /** Early exit keeps exactly the successful fast-track results, at confidence 0.98. */
  lemma EarlyExitResult(stages: seq<Stage>, run: StageRunner, cancelled: CancelProbe, mergeOrder: seq<string>)
    requires stages != []
    requires ShouldEarlyExit(true, FastTrackResults(stages, run))
    ensures var r := FullAnalysis(stages, true, run, cancelled, mergeOrder);
      r.Some? && r.value.earlyExit && r.value.confidence == 0.98
      && forall n :: n in r.value.results <==>
           (exists i :: 0 <= i < |stages| && stages[i].fastTrack && stages[i].name == n)
           && run(n, FastTrackPhase).Produced?
  {
  }

  /** Without early exit, the analysis is cancelled exactly when a stage that
      runs and succeeds in the full phase sees the cancellation; a stage that
      fails there leaves no trace unless it already had a fast-track result. */
  lemma FullPhaseOutcome(stages: seq<Stage>, enabled: bool, run: StageRunner, cancelled: CancelProbe,
                         mergeOrder: seq<string>)
    requires stages != [] && DistinctNames(stages)
    requires !(enabled && ShouldEarlyExit(enabled, FastTrackResults(stages, run)))
    ensures var start := if enabled then FastTrackResults(stages, run) else map[];
      var succ := Succeeding(stages, start, run);
      var r := FullAnalysis(stages, enabled, run, cancelled, mergeOrder);
      (r.None? <==> exists i | 0 <= i < |succ| :: cancelled(succ[i]))
      && (r.Some? ==>
            !r.value.earlyExit
            && r.value.stagesRun == (if enabled then mergeOrder else []) + succ
            && (forall n :: n in r.value.results <==> n in start || n in succ)
            && (forall i ::
                  (0 <= i < |stages| && run(stages[i].name, FullPhase).StageFailed? && stages[i].name !in start)
                  ==> stages[i].name !in r.value.results))
  {
    var start := if enabled then FastTrackResults(stages, run) else map[];
    var ran := if enabled then mergeOrder else [];
    RunFullClosedForm(stages, start, ran, run, cancelled);
  }

  function NameSet(stages: seq<Stage>): (r: set<string>)
    ensures |r| <= |stages|
    ensures forall n :: n in r <==> exists i :: 0 <= i < |stages| && stages[i].name == n
  {
    if stages == [] then {}
    else
      assert forall i :: 1 <= i < |stages| ==> stages[i] == stages[1..][i - 1];
      {stages[0].name} + NameSet(stages[1..])
  }

  lemma {:induction false} SucceedingNames(stages: seq<Stage>, results: map<string, Json>, run: StageRunner)
    ensures forall n :: n in Succeeding(stages, results, run) ==> n in NameSet(stages)
    decreases |stages|
  {
    if stages != [] {
      SucceedingNames(stages[1..], results, run);
    }
  }

  lemma {:induction false} SubsetSize(a: set<string>, b: set<string>)
    requires a <= b
    ensures |a| <= |b|
    decreases |b|
  {
    if a != {} {
      var x :| x in a;
      SubsetSize(a - {x}, b - {x});
    }
  }

  /** Coverage confidence of a completed run lies between 0.5 and 0.9: with
      distinct names no more results than registered stages can exist. */
  lemma CompletedConfidenceBounds(stages: seq<Stage>, enabled: bool, run: StageRunner, cancelled: CancelProbe,
                                  mergeOrder: seq<string>)
    requires stages != [] && DistinctNames(stages)
    ensures var r := FullAnalysis(stages, enabled, run, cancelled, mergeOrder);
      r.Some? && !r.value.earlyExit ==> 0.5 <= r.value.confidence <= 0.9
  {
    var ft := FastTrackResults(stages, run);
    if !(enabled && ShouldEarlyExit(enabled, ft)) {
      var start := if enabled then ft else map[];
      var ran := if enabled then mergeOrder else [];
      var succ := Succeeding(stages, start, run);
      RunFullClosedForm(stages, start, ran, run, cancelled);
      SucceedingNames(stages, start, run);
      var names := NameSet(stages);
      assert start.Keys <= FastTrackNameSet(stages) <= names;
      var out := Overridden(start, succ, run);
      assert out.Keys <= names;
      SubsetSize(out.Keys, names);
    }
  }

  // ---------------------------------------------------------------------
  // The pipeline object
  // ---------------------------------------------------------------------

  /** `order` is the stable sort of `stages` by priority. */
  ghost predicate RunOrder(order: seq<Stage>, stages: seq<Stage>)
  {
    |order| == |stages| && SortedByPriority(order) && SameClasses(order, stages)
  }

  class AnalysisPipeline {
    var stages: seq<Stage>
    var cache: Cache.AnalysisCache<CacheValue>
    var metrics: Monitoring.Metrics?
    var earlyExitEnabled: bool

    ghost predicate Valid()
      reads this, cache, metrics
    {
      stages != [] && cache.Valid() && (metrics != null ==> metrics.Valid())
    }

    /** A pipeline over the registry and the shared cache, optionally
        reporting cache hits and misses to `metrics`; early exit is on. */
    constructor (cache: Cache.AnalysisCache<CacheValue>, metrics: Monitoring.Metrics?)
      requires cache.Valid() && (metrics != null ==> metrics.Valid())
      ensures Valid()
      ensures stages == DefaultStages()
      ensures this.cache == cache && this.metrics == metrics && earlyExitEnabled
    {
      this.stages := DefaultStages();
      this.cache := cache;
      this.metrics := metrics;
      this.earlyExitEnabled := true;
    }

    method SetEarlyExitEnabled(enabled: bool)
      modifies this`earlyExitEnabled
      ensures earlyExitEnabled == enabled
    {
      earlyExitEnabled := enabled;
    }

    method IsEarlyExitEnabled() returns (enabled: bool)
      ensures enabled == earlyExitEnabled
    {
      enabled := earlyExitEnabled;
    }

    /** A stably sorted copy of the stages; the field itself is untouched.
        For the registry this is DefaultRunStages() (lemma DefaultRunOrder). */
    method GetSortedStages() returns (sorted: seq<Stage>)
      ensures RunOrder(sorted, stages)
    {
      sorted := SortStages(stages);
      assert |sorted| == |multiset(sorted)| == |multiset(stages)| == |stages|;
    }

    /** Runs every fast-track stage once, keeping the values of those that succeed. */
    method RunFastTrackStages(sorted: seq<Stage>, run: StageRunner) returns (results: map<string, Json>)
      ensures results == FastTrackResults(sorted, run)
    {
      results := map[];
      var i := 0;
      while i < |sorted|
        invariant 0 <= i <= |sorted|
        invariant results == FastTrackResults(sorted[..i], run)
      {
        var s := sorted[i];
        assert FastTrackNameSet(sorted[..i + 1]) ==
          FastTrackNameSet(sorted[..i]) + (if s.fastTrack then {s.name} else {}) by {
          assert forall j :: 0 <= j < i ==> sorted[..i + 1][j] == sorted[..i][j];
        }
        if s.fastTrack {
          match run(s.name, FastTrackPhase) {
            case Produced(v) => results := results[s.name := v];
            case StageFailed =>
          }
        }
        i := i + 1;
      }
      assert sorted[..i] == sorted;
    }

    /** The full phase over `sorted`, starting from `results` and `ran`. */
    method RunFullPhase(sorted: seq<Stage>, results0: map<string, Json>, ran0: seq<string>,
                        run: StageRunner, cancelled: CancelProbe) returns (outcome: FullOutcome)
      ensures outcome == RunFull(sorted, results0, ran0, run, cancelled)
    {
      var results, ran := results0, ran0;
      var i := 0;
      while i < |sorted|
        invariant 0 <= i <= |sorted|
        invariant RunFull(sorted, results0, ran0, run, cancelled) == RunFull(sorted[i..], results, ran, run, cancelled)
      {
        var s := sorted[i];
        assert sorted[i..][1..] == sorted[i + 1..];
        if s.fastTrack && s.name in results && results[s.name] != JNull {
          i := i + 1;
          continue;
        }
        match run(s.name, FullPhase) {
          case StageFailed =>
          case Produced(v) =>
            results := results[s.name := v];
            ran := ran + [s.name];
            if cancelled(s.name) {
              return Interrupted;
            }
        }
        i := i + 1;
      }
      return Completed(results, ran);
    }

    /** The analysis proper: fast track, early-exit test, full phase. */
    method RunFullAnalysis(sorted: seq<Stage>, run: StageRunner, cancelled: CancelProbe)
      returns (result: Option<PipelineResult>, ghost mergeOrder: seq<string>)
      requires sorted != []
      ensures result == FullAnalysis(sorted, earlyExitEnabled, run, cancelled, mergeOrder)
      ensures earlyExitEnabled ==> ListsKeys(mergeOrder, FastTrackResults(sorted, run))
    {
      var results: map<string, Json> := map[];
      var stagesRun: seq<string> := [];
      mergeOrder := [];
      var enabled := IsEarlyExitEnabled();
      if enabled {
        var ft := RunFastTrackStages(sorted, run);
        var pending := ft.Keys;
        while pending != {}
          invariant pending <= ft.Keys
          invariant results == map n | n in ft && n !in pending :: ft[n]
          invariant stagesRun == mergeOrder
          invariant |mergeOrder| + |pending| == |ft|
          invariant forall n :: n in mergeOrder <==> n in ft && n !in pending
          decreases pending
        {
          var name :| name in pending;
          results := results[name := ft[name]];
          stagesRun := stagesRun + [name];
          mergeOrder := mergeOrder + [name];
          pending := pending - {name};
        }
        assert results == ft;
        if ShouldEarlyExit(enabled, results) {
          return Some(PipelineResult(results, stagesRun, 0, true, EarlyConfidence, false)), mergeOrder;
        }
      }
      var outcome := RunFullPhase(sorted, results, stagesRun, run, cancelled);
      match outcome {
        case Interrupted =>
          result := None;
        case Completed(r, ran) =>
          result := Some(PipelineResult(r, ran, 0, false, FinalConfidence(|sorted|, |r|), false));
      }
    }

    /** The end of the miss path: a finished analysis is stamped with the
        elapsed time and cached for thirty minutes; a cancelled one caches nothing. */
    method StoreResult(key: string, result: Option<PipelineResult>, now: int, elapsed: int)
      returns (res: RunResult)
      requires Valid() && |key| >= 16
      modifies cache
      ensures Valid()
      ensures result.None? ==> res == Aborted(PipelineCancelled) && cache.items == old(cache.items)
      ensures result.Some? ==>
        res == Finished(result.value.(cacheHit := false, processTime := elapsed))
        && cache.items == Cache.Store(old(cache.items), key, CachedResult(res.result), CacheTTL, now)
    {
      if result.None? {
        return Aborted(PipelineCancelled);
      }
      var finished := result.value.(cacheHit := false, processTime := elapsed);
      cache.Set(key, CachedResult(finished), CacheTTL, now);
      res := Finished(finished);
    }

    /** The miss path: analyse the stages in run order and cache a finished
        result under `key`; the metrics are not touched. */
    method RunAndStore(key: string, now: int, elapsed: int, run: StageRunner, cancelled: CancelProbe)
      returns (res: RunResult, ghost order: seq<Stage>, ghost mergeOrder: seq<string>)
      requires Valid() && |key| >= 16
      modifies cache
      ensures Valid()
      ensures RunOrder(order, stages)
      ensures earlyExitEnabled ==> ListsKeys(mergeOrder, FastTrackResults(order, run))
      ensures var full := FullAnalysis(order, earlyExitEnabled, run, cancelled, mergeOrder);
        && (full.None? ==> res == Aborted(PipelineCancelled) && cache.items == old(cache.items))
        && (full.Some? ==>
              res == Finished(full.value.(processTime := elapsed))
              && cache.items == Cache.Store(old(cache.items), key, CachedResult(res.result), CacheTTL, now))
    {
      var sorted := GetSortedStages();
      order := sorted;
      var result;
      result, mergeOrder := RunFullAnalysis(sorted, run, cancelled);
      res := StoreResult(key, result, now, elapsed);
    }

    /** The cache lookup of one request, counted as a hit when an entry is
        found and as a miss unless that entry is a pipeline result. */
    method CheckCache(k: string, now: int) returns (found: Option<CacheValue>)
      requires Valid() && |k| >= 16
      modifies metrics
      ensures Valid()
      ensures found == Cache.Lookup(cache.items, k, now)
      ensures metrics != null ==>
        metrics.cacheHits == old(metrics.cacheHits) + (if found.Some? then 1 else 0)
        && metrics.cacheMisses == old(metrics.cacheMisses) + (if found.Some? && found.value.CachedResult? then 0 else 1)
      ensures metrics != null ==> metrics.OnlyCacheCountsChanged() && metrics.HitRateMatches()
    {
      found := cache.Get(k, now);
      if found.Some? {
        if metrics != null {
          metrics.RecordCacheHit();
        }
        if found.value.CachedResult? {
          return;
        }
      }
      if metrics != null {
        metrics.RecordCacheMiss();
      }
    }

    /** One request: key the file, serve a cached result if there is one,
        otherwise analyse and cache the result for thirty minutes.  A cache
        entry of the wrong type counts as a hit and then as a miss. */
    method RunAnalysis(file: Option<seq<byte>>, sha256: seq<byte> -> seq<byte>, now: int, elapsed: int,
                       run: StageRunner, cancelled: CancelProbe)
      returns (res: RunResult, ghost order: seq<Stage>, ghost mergeOrder: seq<string>)
      requires Valid()
      requires forall d :: |sha256(d)| == 32
      modifies cache, metrics
      ensures Valid()
      ensures file.None? ==>
        res == Aborted(CacheKeyError) && cache.items == old(cache.items)
        && (metrics != null ==> metrics.cacheHits == old(metrics.cacheHits)
                                && metrics.cacheMisses == old(metrics.cacheMisses)
                                && metrics.cacheHitRate == old(metrics.cacheHitRate))
      ensures metrics != null ==> metrics.OnlyCacheCountsChanged()
      ensures file.Some? && metrics != null ==> metrics.HitRateMatches()
      ensures file.Some? ==>
        var key := CacheKey(sha256(file.value));
        var found := Cache.Lookup(old(cache.items), key, now);
        var usable := found.Some? && found.value.CachedResult?;
        (metrics != null ==>
           metrics.cacheHits == old(metrics.cacheHits) + (if found.Some? then 1 else 0)
           && metrics.cacheMisses == old(metrics.cacheMisses) + (if usable then 0 else 1))
        && (usable ==>
              res == Finished(found.value.result.(cacheHit := true, processTime := elapsed))
              && cache.items == old(cache.items))
        && (!usable ==>
              RunOrder(order, stages)
              && var full := FullAnalysis(order, earlyExitEnabled, run, cancelled, mergeOrder);
              (earlyExitEnabled ==> ListsKeys(mergeOrder, FastTrackResults(order, run)))
              && (full.None? ==> res == Aborted(PipelineCancelled) && cache.items == old(cache.items))
              && (full.Some? ==>
                    res == Finished(full.value.(processTime := elapsed))
                    && cache.items == Cache.Store(old(cache.items), key, CachedResult(res.result), CacheTTL, now)))
    {
      order, mergeOrder := [], [];
      var key := GenerateCacheKey(file, sha256);
      if key.None? {
        return Aborted(CacheKeyError), order, mergeOrder;
      }
      var k := key.value;
      var found := CheckCache(k, now);
      label checked:
      if found.Some? && found.value.CachedResult? {
        return Finished(found.value.result.(cacheHit := true, processTime := elapsed)), order, mergeOrder;
      }
      res, order, mergeOrder := RunAndStore(k, now, elapsed, run, cancelled);
      assert metrics != null ==> unchanged@checked(metrics);
    }
  }
}
