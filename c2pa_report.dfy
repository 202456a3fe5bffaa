/**
 * The C2PA tool's report: a score and a confidence accumulated from the
 * claims' generator names and from the signing certificates, both clamped
 * to 100, and the verdict derived from them.  Reading the file and its
 * manifest is not part of this model: the claims and validation data it
 * yields are inputs (an unreadable file or one without a manifest yields no
 * claims and no certificates).
 *
 * The Rust code accumulates in `u8`, which overflows before the clamp.  The
 * model keeps that behaviour as `ScoreAsWritten` (release-build wrap-around)
 * and uses `Score`, which accumulates without overflow, everywhere else.
 */
module C2paReport {
  import opened Common

  datatype ValidationState = Valid | Trusted | Invalid

  /** Only the validation state and the certificate count enter the score. */
  datatype ValidationData = ValidationData(state: ValidationState, certsCount: nat)

  datatype ClaimData = ClaimData(claimGenerators: seq<string>)

  datatype Verdict = Generated | Modified | Genuine | Unknown

  datatype Report = Report(
    fileName: string,
    fileType: string,
    verdict: Verdict,
    score: int,
    scoreConfidence: int,
    claimsFound: bool,
    claimsCount: nat,
    claims: seq<ClaimData>,
    validation: ValidationData)

  const SuspiciousGenerators: seq<string> := [
    "chatgpt", "gpt", "gpt-3", "gpt-4", "gpt-4o",
    "microsoft responsible ai image provenance",
    "midjourney", "stable diffusion", "adobe firefly", "leonardo", "dall-e"]

  const ManipulationGenerators: seq<string> := ["photoshop", "gimp"]

  /** Rust's u8 range. */
  const ByteRange: int := 256

  // ---------------------------------------------------------------------
  // Reference definitions
  // ---------------------------------------------------------------------

  /** How a generator name counts: its lower-cased form matched exactly,
      the suspicious list first. */
  datatype GeneratorKind = Suspicious | Manipulation | Neutral

  function KindOf(generator: string): (k: GeneratorKind)
    ensures k == Suspicious <==> ToLower(generator) in SuspiciousGenerators
    ensures k == Manipulation <==> ToLower(generator) !in SuspiciousGenerators && ToLower(generator) in ManipulationGenerators
  {
    var g := ToLower(generator);
    if g in SuspiciousGenerators then Suspicious
    else if g in ManipulationGenerators then Manipulation
    else Neutral
  }

  /** The number of suspicious and of manipulation generators. */
  datatype Tally = Tally(suspicious: nat, manipulation: nat)

  function Add(t: Tally, k: GeneratorKind): Tally
  {
    match k
    case Suspicious => Tally(t.suspicious + 1, t.manipulation)
    case Manipulation => Tally(t.suspicious, t.manipulation + 1)
    case Neutral => t
  }

  function Plus(a: Tally, b: Tally): Tally
  {
    Tally(a.suspicious + b.suspicious, a.manipulation + b.manipulation)
  }

  /** The tally of a list of generator names. */
  function GeneratorTally(generators: seq<string>): Tally
  {
    if generators == [] then Tally(0, 0)
    else Add(GeneratorTally(generators[..|generators| - 1]), KindOf(generators[|generators| - 1]))
  }

  /** The tally of every generator of every claim. */
  function ClaimsTally(claims: seq<ClaimData>): Tally
  {
    if claims == [] then Tally(0, 0)
    else Plus(ClaimsTally(claims[..|claims| - 1]), GeneratorTally(claims[|claims| - 1].claimGenerators))
  }

  /** Claim points to the score: 1 for having claims, 100 per suspicious
      and 50 per manipulation generator. */
  function ClaimScorePoints(claims: seq<ClaimData>): nat
  {
    var t := ClaimsTally(claims);
    if |claims| == 0 then 0 else 1 + 100 * t.suspicious + 50 * t.manipulation
  }

  /** Claim points to the confidence: 1 for having claims, 50 per matching generator. */
  function ClaimConfidencePoints(claims: seq<ClaimData>): nat
  {
    var t := ClaimsTally(claims);
    if |claims| == 0 then 0 else 1 + 50 * (t.suspicious + t.manipulation)
  }

  /** Certificate points to the score: 20, and 60 more if invalid. */
  function CertScorePoints(validation: ValidationData): nat
  {
    if validation.certsCount == 0 then 0
    else 20 + (if validation.state == Invalid then 60 else 0)
  }

  /** Certificate points to the confidence: 20, plus 40 if valid, 60 if
      trusted, 20 if invalid. */
  function CertConfidencePoints(validation: ValidationData): nat
  {
    if validation.certsCount == 0 then 0
    else 20 + (match validation.state case Valid => 40 case Trusted => 60 case Invalid => 20)
  }

  function RawScore(claims: seq<ClaimData>, validation: ValidationData): int
  {
    ClaimScorePoints(claims) + CertScorePoints(validation)
  }

  function RawConfidence(claims: seq<ClaimData>, validation: ValidationData): int
  {
    ClaimConfidencePoints(claims) + CertConfidencePoints(validation)
  }

  /** The clamp applied after accumulation. */
  function CapAt100(x: int): (r: int)
    ensures r <= 100 && (x <= 100 ==> r == x) && (x > 100 ==> r == 100)
  {
    if x > 100 then 100 else x
  }

  /** No evidence is Unknown; a low score is Genuine only with confidence
      above 40; up to 80 is Modified; above that Generated. */
  function VerdictFromScore(score: int, confidence: int): (v: Verdict)
    ensures v == Unknown <==> score == 0 && confidence == 0
    ensures v == Genuine <==> !(score == 0 && confidence == 0) && score < 21 && confidence > 40
    ensures v == Generated <==> !(score == 0 && confidence == 0) && score >= 81
  {
    if score == 0 && confidence == 0 then Unknown
    else if score < 21 then (if confidence > 40 then Genuine else Modified)
    else if score < 81 then Modified
    else Generated
  }

  /** Rust's `name.split(".").last()`: the text after the last dot, or the
      whole name when it has none. */
  function FileType(name: string): (t: string)
    ensures HasSuffix(name, t) && '.' !in t
    ensures '.' !in name ==> t == name
    ensures |t| < |name| ==> name[|name| - |t| - 1] == '.'
  {
    if name == [] then []
    else if name[|name| - 1] == '.' then []
    else
      var prefix, last := name[..|name| - 1], name[|name| - 1];
      assert name == prefix + [last];
      FileType(prefix) + [last]
  }

  // ---------------------------------------------------------------------
  // The scoring loops
  // ---------------------------------------------------------------------

  /** Accumulates one claim's generators onto the running score and
      confidence, without overflow. */
  method AddGenerators(generators: seq<string>, score0: int, confidence0: int) returns (score: int, confidence: int)
    ensures var t := GeneratorTally(generators);
      && score == score0 + 100 * t.suspicious + 50 * t.manipulation
      && confidence == confidence0 + 50 * (t.suspicious + t.manipulation)
  {
    score, confidence := score0, confidence0;
    for k := 0 to |generators|
      invariant var t := GeneratorTally(generators[..k]);
        && score == score0 + 100 * t.suspicious + 50 * t.manipulation
        && confidence == confidence0 + 50 * (t.suspicious + t.manipulation)
    {
      assert generators[..k + 1][..k] == generators[..k];
      var kind := KindOf(generators[k]);
      if kind == Suspicious {
        score, confidence := score + 100, confidence + 50;
      } else if kind == Manipulation {
        score, confidence := score + 50, confidence + 50;
      }
    }
    assert generators[..|generators|] == generators;
  }

  /** Score and confidence of a file, accumulated without overflow and then
      clamped to 100. */
  method Score(claims: seq<ClaimData>, validation: ValidationData) returns (score: int, confidence: int)
    ensures score == CapAt100(RawScore(claims, validation))
    ensures confidence == CapAt100(RawConfidence(claims, validation))
  {
    score, confidence := 0, 0;
    if |claims| != 0 {
      score, confidence := 1, 1;
      for i := 0 to |claims|
        invariant var t := ClaimsTally(claims[..i]);
          && score == 1 + 100 * t.suspicious + 50 * t.manipulation
          && confidence == 1 + 50 * (t.suspicious + t.manipulation)
      {
        assert claims[..i + 1][..i] == claims[..i];
        score, confidence := AddGenerators(claims[i].claimGenerators, score, confidence);
      }
      assert claims[..|claims|] == claims;
    }
    if validation.certsCount != 0 {
      score, confidence := score + 20, confidence + 20;
      match validation.state {
        case Valid => confidence := confidence + 40;
        case Trusted => confidence := confidence + 60;
        case Invalid => score, confidence := score + 60, confidence + 20;
      }
    }
    score, confidence := CapAt100(score), CapAt100(confidence);
  }

  /** The report for a file: its name ("n/a" when the path has none), the
      text after its last dot, the clamped score and confidence, and the
      verdict they give. */
  method FromFile(fileName: Option<string>, claims: seq<ClaimData>, validation: ValidationData) returns (report: Report)
    ensures report.fileName == (if fileName.Some? then fileName.value else "n/a")
    ensures report.fileType == FileType(report.fileName)
    ensures report.score == CapAt100(RawScore(claims, validation))
    ensures report.scoreConfidence == CapAt100(RawConfidence(claims, validation))
    ensures report.verdict == VerdictFromScore(report.score, report.scoreConfidence)
    ensures report.claimsFound <==> |claims| > 0
    ensures report.claimsCount == |claims| && report.claims == claims && report.validation == validation
  {
    var name := if fileName.Some? then fileName.value else "n/a";
    var score, confidence := Score(claims, validation);
    report := Report(name, FileType(name), VerdictFromScore(score, confidence), score, confidence,
                     |claims| != 0, |claims|, claims, validation);
  }

  // ---------------------------------------------------------------------
  // Properties
  // ---------------------------------------------------------------------

  /** Both values lie in [0, 100]. */
  lemma ScoresInRange(claims: seq<ClaimData>, validation: ValidationData)
    ensures 0 <= CapAt100(RawScore(claims, validation)) <= 100
    ensures 0 <= CapAt100(RawConfidence(claims, validation)) <= 100
  {
  }

  /** Without claims and certificates there is no evidence: score and
      confidence are 0 and the verdict is Unknown. */
  lemma NoEvidenceUnknown(validation: ValidationData)
    requires validation.certsCount == 0
    ensures RawScore([], validation) == 0 && RawConfidence([], validation) == 0
    ensures VerdictFromScore(CapAt100(RawScore([], validation)), CapAt100(RawConfidence([], validation))) == Unknown
  {
  }

  /** A file with at least one claim is never Genuine: either its score
      reaches 21 (certificates or a matching generator) or its confidence
      stays at 1. */
  lemma ClaimNeverGenuine(claims: seq<ClaimData>, validation: ValidationData)
    requires |claims| > 0
    ensures VerdictFromScore(CapAt100(RawScore(claims, validation)), CapAt100(RawConfidence(claims, validation))) != Genuine
  {
    var t := ClaimsTally(claims);
    if validation.certsCount == 0 && t.suspicious + t.manipulation == 0 {
      assert RawConfidence(claims, validation) == 1;
    } else {
      assert RawScore(claims, validation) >= 21;
    }
  }

  /** A suspicious generator alone (one claim, no certificates) is Generated. */
  lemma SuspiciousGeneratorGenerated(generator: string)
    requires ToLower(generator) in SuspiciousGenerators
    ensures VerdictFromScore(CapAt100(RawScore([ClaimData([generator])], ValidationData(Invalid, 0))),
                             CapAt100(RawConfidence([ClaimData([generator])], ValidationData(Invalid, 0)))) == Generated
  {
    assert GeneratorTally([generator]) == Tally(1, 0) by {
      assert [generator][..0] == [];
    }
    assert ClaimsTally([ClaimData([generator])]) == Tally(1, 0) by {
      assert [ClaimData([generator])][..0] == [];
    }
  }

  // ---------------------------------------------------------------------
  // The u8 accumulation as written
  // ---------------------------------------------------------------------

  /** Rust's wrapping u8 addition (release builds; debug builds panic). */
  function WrappingAdd(a: int, b: int): (r: int)
    ensures 0 <= r < ByteRange
    ensures r == (a + b) % ByteRange
  {
    (a + b) % ByteRange
  }

  lemma WrapStep(x: int, y: int)
    ensures (x % ByteRange + y) % ByteRange == (x + y) % ByteRange
  {
    var q := x / ByteRange;
    assert x == q * ByteRange + x % ByteRange;
    assert x + y == q * ByteRange + (x % ByteRange + y);
  }

  /** One claim's generators added in u8 arithmetic. */
  method AddGeneratorsWrapping(generators: seq<string>, ghost raw0: int, ghost confidenceRaw0: int, score0: int, confidence0: int)
    returns (score: int, confidence: int, ghost raw: int, ghost confidenceRaw: int)
    requires score0 == raw0 % ByteRange && confidence0 == confidenceRaw0 % ByteRange
    ensures var t := GeneratorTally(generators);
      && raw == raw0 + 100 * t.suspicious + 50 * t.manipulation
      && confidenceRaw == confidenceRaw0 + 50 * (t.suspicious + t.manipulation)
    ensures score == raw % ByteRange && confidence == confidenceRaw % ByteRange
  {
    score, confidence := score0, confidence0;
    raw, confidenceRaw := raw0, confidenceRaw0;
    for k := 0 to |generators|
      invariant var t := GeneratorTally(generators[..k]);
        raw == raw0 + 100 * t.suspicious + 50 * t.manipulation && confidenceRaw == confidenceRaw0 + 50 * (t.suspicious + t.manipulation)
      invariant score == raw % ByteRange && confidence == confidenceRaw % ByteRange
    {
      assert generators[..k + 1][..k] == generators[..k];
      var kind := KindOf(generators[k]);
      if kind == Suspicious {
        WrapStep(raw, 100);
        WrapStep(confidenceRaw, 50);
        score, confidence := WrappingAdd(score, 100), WrappingAdd(confidence, 50);
        raw, confidenceRaw := raw + 100, confidenceRaw + 50;
      } else if kind == Manipulation {
        WrapStep(raw, 50);
        WrapStep(confidenceRaw, 50);
        score, confidence := WrappingAdd(score, 50), WrappingAdd(confidence, 50);
        raw, confidenceRaw := raw + 50, confidenceRaw + 50;
      }
    }
    assert generators[..|generators|] == generators;
  }

  /** The certificate points added in u8 arithmetic to wrapped totals. */
  method AddCertificatesWrapping(validation: ValidationData, rawScore: int, rawConfidence: int, score0: int, confidence0: int)
    returns (score: int, confidence: int)
    requires score0 == rawScore % ByteRange && confidence0 == rawConfidence % ByteRange
    ensures score == (rawScore + CertScorePoints(validation)) % ByteRange
    ensures confidence == (rawConfidence + CertConfidencePoints(validation)) % ByteRange
  {
    score, confidence := score0, confidence0;
    if validation.certsCount != 0 {
      WrapStep(rawScore, 20);
      WrapStep(rawConfidence, 20);
      score, confidence := WrappingAdd(score, 20), WrappingAdd(confidence, 20);
      match validation.state {
        case Valid =>
          WrapStep(rawConfidence + 20, 40);
          confidence := WrappingAdd(confidence, 40);
        case Trusted =>
          WrapStep(rawConfidence + 20, 60);
          confidence := WrappingAdd(confidence, 60);
        case Invalid =>
          WrapStep(rawScore + 20, 60);
          WrapStep(rawConfidence + 20, 20);
          score, confidence := WrappingAdd(score, 60), WrappingAdd(confidence, 20);
      }
    }
  }

  /** The claim points accumulated in u8 arithmetic. */
  method ClaimsWrapping(claims: seq<ClaimData>) returns (score: int, confidence: int)
    ensures score == ClaimScorePoints(claims) % ByteRange
    ensures confidence == ClaimConfidencePoints(claims) % ByteRange
  {
    if |claims| == 0 {
      return 0, 0;
    }
    score, confidence := 1, 1;
    ghost var raw, confidenceRaw := 1, 1;
    for i := 0 to |claims|
      invariant var t := ClaimsTally(claims[..i]);
        raw == 1 + 100 * t.suspicious + 50 * t.manipulation && confidenceRaw == 1 + 50 * (t.suspicious + t.manipulation)
      invariant score == raw % ByteRange && confidence == confidenceRaw % ByteRange
    {
      assert claims[..i + 1][..i] == claims[..i];
      score, confidence, raw, confidenceRaw := AddGeneratorsWrapping(claims[i].claimGenerators, raw, confidenceRaw, score, confidence);
    }
    assert claims[..|claims|] == claims;
  }

  /** The accumulation exactly as the Rust code does it, in u8 with
      wrap-around, clamped to 100 only afterwards. */
  method ScoreAsWritten(claims: seq<ClaimData>, validation: ValidationData) returns (score: int, confidence: int)
    ensures score == CapAt100(RawScore(claims, validation) % ByteRange)
    ensures confidence == CapAt100(RawConfidence(claims, validation) % ByteRange)
  {
    score, confidence := ClaimsWrapping(claims);
    score, confidence := AddCertificatesWrapping(validation, ClaimScorePoints(claims), ClaimConfidencePoints(claims), score, confidence);
    score, confidence := CapAt100(score), CapAt100(confidence);
  }

  /** Generators that are all suspicious tally one suspicious point each. */
  lemma {:induction false} AllSuspiciousTally(generators: seq<string>)
    requires forall k :: 0 <= k < |generators| ==> KindOf(generators[k]) == Suspicious
    ensures GeneratorTally(generators) == Tally(|generators|, 0)
  {
    if generators != [] {
      AllSuspiciousTally(generators[..|generators| - 1]);
    }
  }

  /** Three suspicious generators in one claim, without certificates, score
      301 and 151 before any clamp. */
  lemma ThreeSuspiciousRaw(g1: string, g2: string, g3: string)
    requires KindOf(g1) == Suspicious && KindOf(g2) == Suspicious && KindOf(g3) == Suspicious
    ensures RawScore([ClaimData([g1, g2, g3])], ValidationData(Invalid, 0)) == 301
    ensures RawConfidence([ClaimData([g1, g2, g3])], ValidationData(Invalid, 0)) == 151
  {
    var claims := [ClaimData([g1, g2, g3])];
    assert ClaimsTally(claims) == Tally(3, 0) by {
      AllSuspiciousTally([g1, g2, g3]);
      assert claims[..0] == [];
    }
  }

  /** Three suspicious generators in one claim (for example chatgpt,
      midjourney and dall-e) reach a raw score of 301: the u8 accumulation
      wraps it to 45 and reports Modified, where the intended clamp gives
      100 and Generated. */
  lemma ThreeSuspiciousGeneratorsWrap(g1: string, g2: string, g3: string)
    requires KindOf(g1) == Suspicious && KindOf(g2) == Suspicious && KindOf(g3) == Suspicious
    ensures var claims, validation := [ClaimData([g1, g2, g3])], ValidationData(Invalid, 0);
      && CapAt100(RawScore(claims, validation) % ByteRange) == 45
      && VerdictFromScore(CapAt100(RawScore(claims, validation) % ByteRange), CapAt100(RawConfidence(claims, validation) % ByteRange)) == Modified
      && VerdictFromScore(CapAt100(RawScore(claims, validation)), CapAt100(RawConfidence(claims, validation))) == Generated
  {
    ThreeSuspiciousRaw(g1, g2, g3);
    assert 301 % ByteRange == 45 && 151 % ByteRange == 151;
    assert VerdictFromScore(45, 100) == Modified && VerdictFromScore(100, 100) == Generated;
  }
}
