/**
 * The per-analyzer explanation sentences shown next to each result section.
 * Eight analyzers read "ai_probability" and pick one of four bands, the
 * neural-network explainer reads "probability" and picks one of five, and
 * the metadata and EXIF explainers look at flags and strings.  A sentence is
 * modelled by the band or case it reports and the percentage it shows; the
 * surrounding wording and the "%.1f" formatting are not modelled.
 */
module Explanations {
  import opened Common
  import opened GoValues
  import opened HandlerUtils

  // ---------------------------------------------------------------------
  // Four-band explainers
  // ---------------------------------------------------------------------

  /** The four bands, from most to least AI-indicating. */
  datatype Band = HighBand | UpperMiddleBand | LowerMiddleBand | LowBand

  /** 3 for the most AI-indicating band down to 0. */
  function BandRank(b: Band): (k: nat)
    ensures k <= 3
  {
    match b
    case HighBand => 3
    case UpperMiddleBand => 2
    case LowerMiddleBand => 1
    case LowBand => 0
  }

  /** Every value falls in exactly one band, each inclusive at its lower
      edge: [0.7, ∞), [0.5, 0.7), [0.3, 0.5) and below 0.3. */
  function BandOf(p: real): (b: Band)
    ensures b == HighBand <==> p >= 0.7
    ensures b == UpperMiddleBand <==> 0.5 <= p < 0.7
    ensures b == LowerMiddleBand <==> 0.3 <= p < 0.5
    ensures b == LowBand <==> p < 0.3
  {
    if p >= 0.7 then HighBand
    else if p >= 0.5 then UpperMiddleBand
    else if p >= 0.3 then LowerMiddleBand
    else LowBand
  }

  /** A higher probability never selects a less AI-indicating band. */
  lemma BandOfMonotone(p: real, q: real)
    requires p <= q
    ensures BandRank(BandOf(p)) <= BandRank(BandOf(q))
  {
  }

  /** The analyzers whose explainer is the four-band selector. */
  datatype Explainer =
    | ArtifactsExplainer
    | AdvancedArtifactsExplainer
    | ObjectCoherenceExplainer
    | TraditionalExplainer
    | PixelExplainer
    | CompressionExplainer
    | ColorExplainer
    | LightingExplainer

  datatype Explanation =
    // A four-band sentence and the percentage it shows.
    | Banded(explainer: Explainer, band: Band, percent: real)
    // The explainer's fixed sentence for a missing or non-numeric value.
    | BandedFallback(explainer: Explainer)
    // The neural-network sentence and the percentage it shows.
    | ModelBanded(modelBand: ModelBand, percent: real)
    // "AI model analysis completed with standard confidence level."
    | ModelFallback
    // "Rich metadata found including software information. …"
    | RichMetadata
    // "Comprehensive metadata present. …"
    | ComprehensiveMetadata
    // "Limited or missing metadata. …"
    | LimitedMetadata
    // "Basic metadata scan shows positive indicators for authentic image."
    | QuickMetadataPositive
    // "Quick metadata scan shows minimal metadata present."
    | QuickMetadataMinimal
    // "Complete camera metadata found: <make> <model>. …"
    | CompleteCameraMetadata(make: string, model: string)
    // "Camera metadata present. …"
    | CameraMetadataPresent
    // "No camera-specific EXIF data found. …"
    | NoCameraData

  const AIProbabilityKey: string := "ai_probability"

  /** The percentage a four-band sentence shows: the AI probability, except
      that the traditional explainer's two lower bands report authenticity. */
  function ShownPercent(explainer: Explainer, p: real): real
  {
    if explainer == TraditionalExplainer && p < 0.5 then (1.0 - p) * 100.0 else p * 100.0
  }

  /** Reads "ai_probability" with GetFloatValue; a missing or rejected value
      gives the fallback, any accepted value the sentence of its band. */
  function GenerateBandedExplanation(explainer: Explainer, data: Object): (e: Explanation)
    ensures e == BandedFallback(explainer) <==> !GetFloatValue(data, AIProbabilityKey).1
    ensures e.Banded? <==> GetFloatValue(data, AIProbabilityKey).1
    ensures e.Banded? ==> e.explainer == explainer
    ensures e.Banded? ==> e.band == BandOf(GetFloatValue(data, AIProbabilityKey).0)
    ensures e.Banded? && (explainer != TraditionalExplainer || e.band.HighBand? || e.band.UpperMiddleBand?) ==>
      e.percent == GetFloatValue(data, AIProbabilityKey).0 * 100.0
    ensures e.Banded? && explainer == TraditionalExplainer && (e.band.LowerMiddleBand? || e.band.LowBand?) ==>
      e.percent == (1.0 - GetFloatValue(data, AIProbabilityKey).0) * 100.0
  {
    var (p, exists_) := GetFloatValue(data, AIProbabilityKey);
    if exists_ then Banded(explainer, BandOf(p), ShownPercent(explainer, p)) else BandedFallback(explainer)
  }

  /** The fallback without an accepted "ai_probability" p; otherwise the band
      of p, showing p·100. */
  function GenerateArtifactsExplanation(data: Object): (e: Explanation)
    ensures !GetFloatValue(data, AIProbabilityKey).1 ==> e == BandedFallback(ArtifactsExplainer)
    ensures GetFloatValue(data, AIProbabilityKey).1 ==>
      e == Banded(ArtifactsExplainer, BandOf(GetFloatValue(data, AIProbabilityKey).0),
                  GetFloatValue(data, AIProbabilityKey).0 * 100.0)
  {
    GenerateBandedExplanation(ArtifactsExplainer, data)
  }

  /** The fallback without an accepted "ai_probability" p; otherwise the band
      of p, showing p·100. */
  function GenerateAdvancedArtifactsExplanation(data: Object): (e: Explanation)
    ensures !GetFloatValue(data, AIProbabilityKey).1 ==> e == BandedFallback(AdvancedArtifactsExplainer)
    ensures GetFloatValue(data, AIProbabilityKey).1 ==>
      e == Banded(AdvancedArtifactsExplainer, BandOf(GetFloatValue(data, AIProbabilityKey).0),
                  GetFloatValue(data, AIProbabilityKey).0 * 100.0)
  {
    GenerateBandedExplanation(AdvancedArtifactsExplainer, data)
  }

  /** The fallback without an accepted "ai_probability" p; otherwise the band
      of p, showing p·100. */
  function GenerateObjectCoherenceExplanation(data: Object): (e: Explanation)
    ensures !GetFloatValue(data, AIProbabilityKey).1 ==> e == BandedFallback(ObjectCoherenceExplainer)
    ensures GetFloatValue(data, AIProbabilityKey).1 ==>
      e == Banded(ObjectCoherenceExplainer, BandOf(GetFloatValue(data, AIProbabilityKey).0),
                  GetFloatValue(data, AIProbabilityKey).0 * 100.0)
  {
    GenerateBandedExplanation(ObjectCoherenceExplainer, data)
  }

  /** The fallback without an accepted "ai_probability" p; otherwise the band
      of p, showing p·100 from 0.5 and the authentic share (1 − p)·100 below. */
  function GenerateTraditionalExplanation(data: Object): (e: Explanation)
    ensures !GetFloatValue(data, AIProbabilityKey).1 ==> e == BandedFallback(TraditionalExplainer)
    ensures GetFloatValue(data, AIProbabilityKey).1 && GetFloatValue(data, AIProbabilityKey).0 >= 0.5 ==>
      e == Banded(TraditionalExplainer, BandOf(GetFloatValue(data, AIProbabilityKey).0),
                  GetFloatValue(data, AIProbabilityKey).0 * 100.0)
    ensures GetFloatValue(data, AIProbabilityKey).1 && GetFloatValue(data, AIProbabilityKey).0 < 0.5 ==>
      e == Banded(TraditionalExplainer, BandOf(GetFloatValue(data, AIProbabilityKey).0),
                  (1.0 - GetFloatValue(data, AIProbabilityKey).0) * 100.0)
  {
    GenerateBandedExplanation(TraditionalExplainer, data)
  }

  /** The fallback without an accepted "ai_probability" p; otherwise the band
      of p, showing p·100. */
  function GeneratePixelExplanation(data: Object): (e: Explanation)
    ensures !GetFloatValue(data, AIProbabilityKey).1 ==> e == BandedFallback(PixelExplainer)
    ensures GetFloatValue(data, AIProbabilityKey).1 ==>
      e == Banded(PixelExplainer, BandOf(GetFloatValue(data, AIProbabilityKey).0),
                  GetFloatValue(data, AIProbabilityKey).0 * 100.0)
  {
    GenerateBandedExplanation(PixelExplainer, data)
  }

  /** The fallback without an accepted "ai_probability" p; otherwise the band
      of p, showing p·100. */
  function GenerateCompressionExplanation(data: Object): (e: Explanation)
    ensures !GetFloatValue(data, AIProbabilityKey).1 ==> e == BandedFallback(CompressionExplainer)
    ensures GetFloatValue(data, AIProbabilityKey).1 ==>
      e == Banded(CompressionExplainer, BandOf(GetFloatValue(data, AIProbabilityKey).0),
                  GetFloatValue(data, AIProbabilityKey).0 * 100.0)
  {
    GenerateBandedExplanation(CompressionExplainer, data)
  }

  /** The fallback without an accepted "ai_probability" p; otherwise the band
      of p, showing p·100. */
  function GenerateColorExplanation(data: Object): (e: Explanation)
    ensures !GetFloatValue(data, AIProbabilityKey).1 ==> e == BandedFallback(ColorExplainer)
    ensures GetFloatValue(data, AIProbabilityKey).1 ==>
      e == Banded(ColorExplainer, BandOf(GetFloatValue(data, AIProbabilityKey).0),
                  GetFloatValue(data, AIProbabilityKey).0 * 100.0)
  {
    GenerateBandedExplanation(ColorExplainer, data)
  }

  /** The fallback without an accepted "ai_probability" p; otherwise the band
      of p, showing p·100. */
  function GenerateLightingExplanation(data: Object): (e: Explanation)
    ensures !GetFloatValue(data, AIProbabilityKey).1 ==> e == BandedFallback(LightingExplainer)
    ensures GetFloatValue(data, AIProbabilityKey).1 ==>
      e == Banded(LightingExplainer, BandOf(GetFloatValue(data, AIProbabilityKey).0),
                  GetFloatValue(data, AIProbabilityKey).0 * 100.0)
  {
    GenerateBandedExplanation(LightingExplainer, data)
  }

  /** The advanced-artifacts explainer bands exactly like the artifacts one. */
  lemma AdvancedArtifactsSameBands(data: Object)
    ensures GenerateAdvancedArtifactsExplanation(data).Banded? <==> GenerateArtifactsExplanation(data).Banded?
    ensures GenerateAdvancedArtifactsExplanation(data).Banded? ==>
      && GenerateAdvancedArtifactsExplanation(data).band == GenerateArtifactsExplanation(data).band
      && GenerateAdvancedArtifactsExplanation(data).percent == GenerateArtifactsExplanation(data).percent
  {
  }

  /** The traditional explainer reports authenticity in its lower bands:
      the shown percentage falls as the probability rises there. */
  lemma TraditionalLowerBandsReportAuthenticity(p: real, data: Object)
    requires AIProbabilityKey in data && data[AIProbabilityKey] == JFloat(p)
    requires p < 0.5
    ensures GenerateTraditionalExplanation(data).percent + GeneratePixelExplanation(data).percent == 100.0
  {
  }

  /** A negative probability is reported in the lowest band. */
  lemma NegativeProbabilityLowestBand(p: real, data: Object)
    requires AIProbabilityKey in data && data[AIProbabilityKey] == JFloat(p) && p < 0.0
    ensures GenerateObjectCoherenceExplanation(data) == Banded(ObjectCoherenceExplainer, LowBand, p * 100.0)
  {
  }

  /** A numeric string is parsed and then banded like the number itself. */
  lemma NumericStringBanded(data: Object, n: nat)
    requires AIProbabilityKey in data && data[AIProbabilityKey] == JStr(NatToString(n))
    ensures GenerateCompressionExplanation(data) == Banded(CompressionExplainer, BandOf(n as real), n as real * 100.0)
  {
    GetFloatValueOfNumeral(data, AIProbabilityKey, n);
  }

  /** A boolean or int64 value is rejected by GetFloatValue and gives the fallback. */
  lemma NonNumericFallsBack(data: Object)
    requires AIProbabilityKey in data && (data[AIProbabilityKey].JBool? || data[AIProbabilityKey].JInt64?)
    ensures GeneratePixelExplanation(data) == BandedFallback(PixelExplainer)
    ensures GenerateColorExplanation(data) == BandedFallback(ColorExplainer)
    ensures GenerateLightingExplanation(data) == BandedFallback(LightingExplainer)
  {
  }

  // ---------------------------------------------------------------------
  // Neural-network explainer
  // ---------------------------------------------------------------------

  /** The five bands, from most to least AI-indicating. */
  datatype ModelBand = StronglyAI | LikelyAI | MixedSignals | LikelyAuthentic | StronglyAuthentic

  function ModelBandRank(b: ModelBand): (k: nat)
    ensures k <= 4
  {
    match b
    case StronglyAI => 4
    case LikelyAI => 3
    case MixedSignals => 2
    case LikelyAuthentic => 1
    case StronglyAuthentic => 0
  }

  /** Lower bounds 0.8, 0.6, 0.4 and 0.2, then everything below 0.2. */
  function ModelBandOf(p: real): (b: ModelBand)
    ensures b == StronglyAI <==> p >= 0.8
    ensures b == LikelyAI <==> 0.6 <= p < 0.8
    ensures b == MixedSignals <==> 0.4 <= p < 0.6
    ensures b == LikelyAuthentic <==> 0.2 <= p < 0.4
    ensures b == StronglyAuthentic <==> p < 0.2
  {
    if p >= 0.8 then StronglyAI
    else if p >= 0.6 then LikelyAI
    else if p >= 0.4 then MixedSignals
    else if p >= 0.2 then LikelyAuthentic
    else StronglyAuthentic
  }

  lemma ModelBandOfMonotone(p: real, q: real)
    requires p <= q
    ensures ModelBandRank(ModelBandOf(p)) <= ModelBandRank(ModelBandOf(q))
  {
  }

  const ProbabilityKey: string := "probability"

  /** Reads "probability"; the percentage shown is always probability·100,
      in the authentic bands too. */
  function GenerateAIExplanation(data: Object): (e: Explanation)
    ensures e == ModelFallback <==> !GetFloatValue(data, ProbabilityKey).1
    ensures e.ModelBanded? <==> GetFloatValue(data, ProbabilityKey).1
    ensures e.ModelBanded? ==>
      && e.modelBand == ModelBandOf(GetFloatValue(data, ProbabilityKey).0)
      && e.percent == GetFloatValue(data, ProbabilityKey).0 * 100.0
  {
    var (p, exists_) := GetFloatValue(data, ProbabilityKey);
    if exists_ then ModelBanded(ModelBandOf(p), p * 100.0) else ModelFallback
  }

  // ---------------------------------------------------------------------
  // Metadata explainers
  // ---------------------------------------------------------------------

  const HasMetadataKey: string := "has_metadata"
  const SoftwareKey: string := "software"

  /** "has_metadata" holds the bool true (any other type counts as absent). */
  predicate HasMetadataFlag(data: Object)
  {
    HasMetadataKey in data && data[HasMetadataKey] == JBool(true)
  }

  /** Rich with a non-empty "software" string, comprehensive without one,
      limited when the flag is missing, false or not a bool. */
  function GenerateMetadataExplanation(data: Object): (e: Explanation)
    ensures e == RichMetadata <==> HasMetadataFlag(data) && GetStringValue(data, SoftwareKey).0 != ""
    ensures e == ComprehensiveMetadata <==> HasMetadataFlag(data) && GetStringValue(data, SoftwareKey).0 == ""
    ensures e == LimitedMetadata <==> !HasMetadataFlag(data)
  {
    if HasMetadataKey in data && data[HasMetadataKey].JBool? && data[HasMetadataKey].b then
      var (software, exists_) := GetStringValue(data, SoftwareKey);
      if exists_ && software != "" then RichMetadata else ComprehensiveMetadata
    else
      LimitedMetadata
  }

  /** Positive iff "has_metadata" is the bool true. */
  function GenerateQuickMetadataExplanation(data: Object): (e: Explanation)
    ensures e == QuickMetadataPositive <==> HasMetadataFlag(data)
    ensures e == QuickMetadataPositive || e == QuickMetadataMinimal
  {
    if HasMetadataKey in data && data[HasMetadataKey].JBool? && data[HasMetadataKey].b then QuickMetadataPositive
    else QuickMetadataMinimal
  }

  /** The quick scan is positive exactly when the full explainer finds more
      than limited metadata. */
  lemma QuickAgreesWithFull(data: Object)
    ensures GenerateQuickMetadataExplanation(data) == QuickMetadataPositive <==> GenerateMetadataExplanation(data) != LimitedMetadata
  {
  }

  // ---------------------------------------------------------------------
  // EXIF explainer
  // ---------------------------------------------------------------------

  const HasCameraInfoKey: string := "has_camera_info"
  const CameraMakeKey: string := "camera_make"
  const CameraModelKey: string := "camera_model"

  /** Camera data is reported only when GetFloatValue reads a positive
      "has_camera_info"; both make and model must be non-empty strings for
      the complete sentence. */
  function GenerateEXIFExplanation(data: Object): (e: Explanation)
    ensures e == NoCameraData <==> GetFloatValue(data, HasCameraInfoKey).0 <= 0.0
    ensures e.CompleteCameraMetadata? <==>
      && GetFloatValue(data, HasCameraInfoKey).0 > 0.0
      && GetStringValue(data, CameraMakeKey).0 != "" && GetStringValue(data, CameraModelKey).0 != ""
    ensures e.CompleteCameraMetadata? ==>
      e.make == data[CameraMakeKey].s && e.model == data[CameraModelKey].s
    ensures e == NoCameraData || e == CameraMetadataPresent || e.CompleteCameraMetadata?
  {
    var (hasCameraInfo, _) := GetFloatValue(data, HasCameraInfoKey);
    if hasCameraInfo > 0.0 then
      var (cameraMake, _) := GetStringValue(data, CameraMakeKey);
      var (cameraModel, _) := GetStringValue(data, CameraModelKey);
      if cameraMake != "" && cameraModel != "" then CompleteCameraMetadata(cameraMake, cameraModel)
      else CameraMetadataPresent
    else
      NoCameraData
  }

  /** A boolean "has_camera_info" is rejected by GetFloatValue, so it never
      reports camera data, whatever its value. */
  lemma BoolCameraFlagIgnored(data: Object)
    requires HasCameraInfoKey in data && data[HasCameraInfoKey].JBool?
    ensures GenerateEXIFExplanation(data) == NoCameraData
  {
  }
}
