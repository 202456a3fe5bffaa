/**
 * The structured HTTP response: every stage result is converted to a plain
 * map (EXIF records are flattened, unsupported types dropped) and wrapped in
 * a section carrying the stage name, the data and the stage's explanation.
 */
module AnalysisResponse {
  import opened Common
  import opened GoValues
  import opened HandlerUtils
  import opened Stages
  import opened Explanations

  datatype Conversion = Converted(data: Object) | UnsupportedType

  /** The flattened EXIF record: camera flag, make and model always;
      creation date and GPS only when set; whether raw EXIF bytes exist. */
  function ExifToObject(x: ExifData): (r: Object)
    ensures HasCameraInfoKey in r && CameraMakeKey in r && CameraModelKey in r && "modification_indicators" in r
    ensures r[HasCameraInfoKey] == JBool(x.make != "" || x.model != "")
    ensures r[CameraMakeKey] == JStr(x.make) && r[CameraModelKey] == JStr(x.model)
    ensures "creation_date" in r <==> x.dateTime.Some?
    ensures "gps_info" in r <==> x.gps.Some?
    ensures r["modification_indicators"] == JBool(|x.raw| > 0)
    ensures r.Keys <= {HasCameraInfoKey, CameraMakeKey, CameraModelKey, "creation_date", "gps_info", "modification_indicators"}
  {
    var base := map[HasCameraInfoKey := JBool(x.make != "" || x.model != ""),
                     CameraMakeKey := JStr(x.make),
                     CameraModelKey := JStr(x.model)];
    var dated := if x.dateTime.Some? then base["creation_date" := JStr(x.dateTime.value)] else base;
    var located := if x.gps.Some? then dated["gps_info" := JFloatMap(map["latitude" := x.gps.value.0, "longitude" := x.gps.value.1])] else dated;
    located["modification_indicators" := JBool(|x.raw| > 0)]
  }

  /** A map passes unchanged, a nil EXIF pointer becomes the empty map, an
      EXIF record is flattened, and any other type is an error. */
  function ConvertAnalysisResult(v: Json): (r: Conversion)
    ensures v.JObj? ==> r == Converted(v.fields)
    ensures v.JExif? && v.exif.None? ==> r == Converted(map[])
    ensures v.JExif? && v.exif.Some? ==> r == Converted(ExifToObject(v.exif.value))
    ensures r.UnsupportedType? <==> !(v.JObj? || v.JExif?)
  {
    match v
    case JObj(fields) => Converted(fields)
    case JExif(exif) => Converted(if exif.Some? then ExifToObject(exif.value) else map[])
    case _ => UnsupportedType
  }

  /** One response section: the stage name, its data and its explanation. */
  datatype Section = Section(analysisType: string, data: Object, explanation: Explanation)

  /** The explanation by stage name, the traditional one by default. */
  function ExplanationFor(name: string, data: Object): Explanation
  {
    if name == ExifStage then GenerateEXIFExplanation(data)
    else if name == AiModelStage then GenerateAIExplanation(data)
    else if name == MetadataStage then Explanations.GenerateMetadataExplanation(data)
    else if name == CompressionStage then GenerateCompressionExplanation(data)
    else if name == PixelAnalysisStage then GeneratePixelExplanation(data)
    else if name == LightingAnalysisStage then GenerateLightingExplanation(data)
    else if name == ColorBalanceStage then GenerateColorExplanation(data)
    else if name == ArtifactsStage then GenerateArtifactsExplanation(data)
    else if name == AdvancedArtifactsStage then GenerateAdvancedArtifactsExplanation(data)
    else if name == ObjectCoherenceStage then GenerateObjectCoherenceExplanation(data)
    else if name == MetadataQuickStage then GenerateQuickMetadataExplanation(data)
    else Explanations.GenerateTraditionalExplanation(data)
  }

  /** Always a section (never nil) with the name and data as given. */
  function CreateAnalysisSection(name: string, data: Object): (s: Section)
    ensures s.analysisType == name && s.data == data
    ensures s.explanation == ExplanationFor(name, data)
  {
    Section(name, data, ExplanationFor(name, data))
  }

  /** A stage without its own explainer (c2pa among them) gets the
      traditional sentence. */
  lemma UnlistedStageGetsTraditional(name: string, data: Object)
    requires name !in {ExifStage, AiModelStage, MetadataStage, CompressionStage, PixelAnalysisStage,
                       LightingAnalysisStage, ColorBalanceStage, ArtifactsStage, AdvancedArtifactsStage,
                       ObjectCoherenceStage, MetadataQuickStage}
    ensures CreateAnalysisSection(name, data).explanation == Banded(TraditionalExplainer, BandOf(GetFloatValue(data, AIProbabilityKey).0),
                                                                    ShownPercent(TraditionalExplainer, GetFloatValue(data, AIProbabilityKey).0))
            || CreateAnalysisSection(name, data).explanation == BandedFallback(TraditionalExplainer)
  {
  }

  /** The names whose result converts. */
  function Convertible(results: map<string, Json>, names: set<string>): (r: set<string>)
    ensures r <= names
  {
    set n | n in names && n in results && ConvertAnalysisResult(results[n]).Converted?
  }

  /** Converts every stage result, dropping the ones of an unsupported type,
      then builds one section per converted result. */
  method CreateStructuredResponse(results: map<string, Json>) returns (response: map<string, Section>)
    ensures response.Keys == Convertible(results, results.Keys)
    ensures forall n :: n in response ==>
      response[n] == CreateAnalysisSection(n, ConvertAnalysisResult(results[n]).data)
  {
    var converted: map<string, Object> := map[];
    var pending := results.Keys;
    while pending != {}
      invariant pending <= results.Keys
      invariant converted.Keys == Convertible(results, results.Keys - pending)
      invariant forall n :: n in converted ==> Converted(converted[n]) == ConvertAnalysisResult(results[n])
      decreases pending
    {
      var name :| name in pending;
      var c := ConvertAnalysisResult(results[name]);
      if c.Converted? {
        converted := converted[name := c.data];
      }
      pending := pending - {name};
    }
    assert results.Keys - pending == results.Keys;

    response := map[];
    var unsectioned := converted.Keys;
    while unsectioned != {}
      invariant unsectioned <= converted.Keys
      invariant response.Keys == converted.Keys - unsectioned
      invariant forall n :: n in response ==> response[n] == CreateAnalysisSection(n, converted[n])
      decreases unsectioned
    {
      var name :| name in unsectioned;
      response := response[name := CreateAnalysisSection(name, converted[name])];
      unsectioned := unsectioned - {name};
    }
  }

  /** The converter stores has_camera_info as a bool, which the EXIF
      explainer's GetFloatValue rejects: a converted EXIF record always gets
      the "No camera-specific EXIF data" sentence. */
  lemma ConvertedExifNeverReportsCamera(x: ExifData)
    ensures CreateAnalysisSection(ExifStage, ConvertAnalysisResult(JExif(Some(x))).data).explanation == NoCameraData
  {
    BoolCameraFlagIgnored(ExifToObject(x));
  }
}
