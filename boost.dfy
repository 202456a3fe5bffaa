/**
 * The pattern boost: a product of independent factors — agreement among
 * the traditional detectors, agreement between the classifier and the
 * artifact detector, authenticity signals, and an extreme classifier
 * score — clamped to [0.4, 2.0].
 */
module Boost {
  import opened Stages
  import opened VerdictStats

  const TraditionalMethods: seq<string> :=
    [ArtifactsStage, LightingAnalysisStage, AdvancedArtifactsStage, PixelAnalysisStage]

  /** A method counts as consistent when it has a score of at least 0.4. */
  predicate IsConsistent(scores: Scores, name: string)
  {
    name in scores && scores[name] >= 0.4
  }

  /** How many of `names` have a score of at least 0.4: none exactly when no
      name is consistent, all exactly when every name is. */
  function CountConsistent(scores: Scores, names: seq<string>): (n: nat)
    ensures n <= |names|
    ensures n == 0 <==> forall i :: 0 <= i < |names| ==> !IsConsistent(scores, names[i])
    ensures n == |names| <==> forall i :: 0 <= i < |names| ==> IsConsistent(scores, names[i])
  {
    if names == [] then 0
    else
      var m := names[|names| - 1];
      CountConsistent(scores, names[..|names| - 1]) + (if IsConsistent(scores, m) then 1 else 0)
  }

  function ConsistencyFactor(scores: Scores): real
  {
    var count := CountConsistent(scores, TraditionalMethods);
    if count >= 3 then 1.4 else if count >= 2 then 1.2 else 1.0
  }

  /** ×1.5 when classifier and artifact detector both lean AI, ×1.3 when a
      confident classifier meets a clean artifact score. */
  function AgreementFactor(scores: Scores): real
  {
    if AiModelStage in scores && ArtifactsStage in scores then
      var ai, art := scores[AiModelStage], scores[ArtifactsStage];
      (if ai >= 0.5 && art >= 0.6 then 1.5 else 1.0) * (if ai >= 0.7 && art <= 0.3 then 1.3 else 1.0)
    else 1.0
  }

  /** The authenticity signals: compression ≤ 0.3, color balance ≤ 0.2, artifacts ≤ 0.4. */
  function AuthenticitySignals(scores: Scores): nat
  {
    (if CompressionStage in scores && scores[CompressionStage] <= 0.3 then 1 else 0)
    + (if ColorBalanceStage in scores && scores[ColorBalanceStage] <= 0.2 then 1 else 0)
    + (if ArtifactsStage in scores && scores[ArtifactsStage] <= 0.4 then 1 else 0)
  }

  function AuthenticityFactor(scores: Scores): real
  {
    if AiModelStage in scores && scores[AiModelStage] <= 0.3 && AuthenticitySignals(scores) >= 2 then 0.6 else 1.0
  }

  function ExtremeFactor(scores: Scores): real
  {
    if AiModelStage in scores && (scores[AiModelStage] >= 0.8 || scores[AiModelStage] <= 0.2) then 1.4 else 1.0
  }

  function ClampBoost(b: real): (r: real)
    ensures 0.4 <= r <= 2.0
    ensures 0.4 <= b <= 2.0 ==> r == b
  {
    if b > 2.0 then 2.0 else if b < 0.4 then 0.4 else b
  }

  /** The boost as a product of its factors. */
  function AdvancedBoost(scores: Scores): real
  {
    ClampBoost(ConsistencyFactor(scores) * AgreementFactor(scores) * AuthenticityFactor(scores) * ExtremeFactor(scores))
  }

  /** The source's step-by-step computation of the boost. */
  method CalculateAdvancedBoost(scores: Scores) returns (boost: real)
    ensures boost == AdvancedBoost(scores)
    ensures 0.6 <= boost <= 2.0
  {
    boost := 1.0;

    var consistencyCount := 0;
    var i := 0;
    while i < |TraditionalMethods|
      invariant 0 <= i <= |TraditionalMethods|
      invariant consistencyCount == CountConsistent(scores, TraditionalMethods[..i])
    {
      var name := TraditionalMethods[i];
      assert TraditionalMethods[..i + 1][..i] == TraditionalMethods[..i];
      if name in scores && scores[name] >= 0.4 {
        consistencyCount := consistencyCount + 1;
      }
      i := i + 1;
    }
    assert TraditionalMethods[..i] == TraditionalMethods;

    if consistencyCount >= 3 {
      boost := boost * 1.4;
    } else if consistencyCount >= 2 {
      boost := boost * 1.2;
    }
    ghost var consistency := boost;

    if AiModelStage in scores {
      var aiModelScore := scores[AiModelStage];
      if ArtifactsStage in scores {
        var artifactsScore := scores[ArtifactsStage];
        if aiModelScore >= 0.5 && artifactsScore >= 0.6 {
          boost := boost * 1.5;
        }
        if aiModelScore >= 0.7 && artifactsScore <= 0.3 {
          boost := boost * 1.3;
        }
      }
      assert boost == consistency * AgreementFactor(scores);
      ghost var agreed := boost;

      if aiModelScore <= 0.3 {
        var authenticityCount := 0;
        if CompressionStage in scores && scores[CompressionStage] <= 0.3 {
          authenticityCount := authenticityCount + 1;
        }
        if ColorBalanceStage in scores && scores[ColorBalanceStage] <= 0.2 {
          authenticityCount := authenticityCount + 1;
        }
        if ArtifactsStage in scores && scores[ArtifactsStage] <= 0.4 {
          authenticityCount := authenticityCount + 1;
        }
        if authenticityCount >= 2 {
          boost := boost * 0.6;
        }
      }
      assert boost == agreed * AuthenticityFactor(scores);

      if aiModelScore >= 0.8 || aiModelScore <= 0.2 {
        boost := boost * 1.4;
      }
    }
    assert boost == ConsistencyFactor(scores) * AgreementFactor(scores) * AuthenticityFactor(scores) * ExtremeFactor(scores);

    if boost > 2.0 {
      boost := 2.0;
    } else if boost < 0.4 {
      boost := 0.4;
    }
    BoostRange(scores);
  }

  /** With no scores every factor is 1. */
  lemma EmptyBoost()
    ensures AdvancedBoost(map[]) == 1.0
  {
    assert CountConsistent(map[], TraditionalMethods) == 0;
  }

  /** 0.6 is the only factor below 1 and it applies at most once, so the
      lower clamp at 0.4 is never reached. */
  lemma BoostRange(scores: Scores)
    ensures 0.6 <= AdvancedBoost(scores) <= 2.0
  {
    var c, a, u, e := ConsistencyFactor(scores), AgreementFactor(scores), AuthenticityFactor(scores), ExtremeFactor(scores);
    assert 1.0 <= c && 1.0 <= a && 1.0 <= e && (u == 0.6 || u == 1.0);
    assert 1.0 <= c * a;
    assert 1.0 <= c * a * e;
    assert c * a * u * e == (c * a * e) * u;
  }

  /** The ×1.5 and ×1.3 agreement factors never apply together. */
  lemma AgreementFactorsExclusive(scores: Scores)
    ensures AgreementFactor(scores) in {1.0, 1.5, 1.3}
  {
  }
}
