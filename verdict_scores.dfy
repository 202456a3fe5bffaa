/**
 * The per-stage scorers of the verdict aggregator: each reads one numeric
 * field of a stage's result map through `GetFloatValue` and falls back to a
 * fixed default; the EXIF and metadata scorers inspect a field and return
 * 0 either way.
 */
module VerdictScores {
  import opened GoValues
  import opened HandlerUtils
  import opened Common

  const ProbabilityKey: string := "probability"
  const AIProbabilityKey: string := "ai_probability"
  const HasCameraInfoKey: string := "has_camera_info"
  const HasMetadataKey: string := "has_metadata"

  /** `r` is what reading `key` with `GetFloatValue` yields, or `fallback`
      when the read fails: a missing key, or a value that is neither a
      float64, an int nor a numeric string. */
  predicate ReadsOr(data: Object, key: string, fallback: real, r: real)
  {
    && (key !in data ==> r == fallback)
    && (key in data && data[key].JFloat? ==> r == data[key].f)
    && (key in data && data[key].JInt? ==> r == data[key].i as real)
    && (key in data && data[key].JStr? ==>
          r == (if ParseFloat(data[key].s).Some? then ParseFloat(data[key].s).value else fallback))
    && (key in data && !(data[key].JFloat? || data[key].JInt? || data[key].JStr?) ==> r == fallback)
  }

  function FloatOr(data: Object, key: string, fallback: real): (r: real)
    ensures ReadsOr(data, key, fallback, r)
  {
    var (v, ok) := GetFloatValue(data, key);
    if ok then v else fallback
  }

  /** The camera-info lookup has no effect: the score is always 0. */
  function EXIFScore(data: Object): (r: real)
    ensures r == 0.0
  {
    if GetFloatValue(data, HasCameraInfoKey).0 > 0.0 then 0.0 else 0.0
  }

  /** Whether or not has_metadata is the bool true, the score is 0. */
  function MetadataScore(data: Object): (r: real)
    ensures r == 0.0
  {
    if HasMetadataKey in data && data[HasMetadataKey] == JBool(true) then 0.0 else 0.0
  }

  /** The quick metadata scorer has the same shape and is also always 0. */
  function QuickMetadataScore(data: Object): (r: real)
    ensures r == 0.0
  {
    if HasMetadataKey in data && data[HasMetadataKey] == JBool(true) then 0.0 else 0.0
  }

  /** The classifier's "probability", else 0.5. */
  function AIModelScore(data: Object): (r: real)
    ensures ReadsOr(data, ProbabilityKey, 0.5, r)
  {
    FloatOr(data, ProbabilityKey, 0.5)
  }

  function ArtifactsScore(data: Object): (r: real)
    ensures ReadsOr(data, AIProbabilityKey, 0.4, r)
  {
    FloatOr(data, AIProbabilityKey, 0.4)
  }

  function CompressionScore(data: Object): (r: real)
    ensures ReadsOr(data, AIProbabilityKey, 0.5, r)
  {
    FloatOr(data, AIProbabilityKey, 0.5)
  }

  function PixelScore(data: Object): (r: real)
    ensures ReadsOr(data, AIProbabilityKey, 0.0, r)
  {
    FloatOr(data, AIProbabilityKey, 0.0)
  }

  function LightingScore(data: Object): (r: real)
    ensures ReadsOr(data, AIProbabilityKey, 0.667, r)
  {
    FloatOr(data, AIProbabilityKey, 0.667)
  }

  function ColorScore(data: Object): (r: real)
    ensures ReadsOr(data, AIProbabilityKey, 0.5, r)
  {
    FloatOr(data, AIProbabilityKey, 0.5)
  }

  function AdvancedArtifactsScore(data: Object): (r: real)
    ensures ReadsOr(data, AIProbabilityKey, 0.333, r)
  {
    FloatOr(data, AIProbabilityKey, 0.333)
  }

  function ObjectCoherenceScore(data: Object): (r: real)
    ensures ReadsOr(data, AIProbabilityKey, 0.333, r)
  {
    FloatOr(data, AIProbabilityKey, 0.333)
  }

  /** A numeric-string probability is parsed before it is used. */
  lemma NumeralProbabilityIsRead(data: Object, n: nat)
    requires AIProbabilityKey in data && data[AIProbabilityKey] == JStr(Common.NatToString(n))
    ensures ArtifactsScore(data) == n as real
  {
    GetFloatValueOfNumeral(data, AIProbabilityKey, n);
  }
}
