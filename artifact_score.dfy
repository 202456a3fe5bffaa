/**
 * The artifact detector's aggregation: one indicator per analysed
 * section (blockiness, ringing, colour bleeding, upscaling, denoising and,
 * for PNG files, the PNG checks), their share as the AI probability, and
 * the conversion of numpy values to plain JSON values.
 */
module ArtifactScore {
  import opened Common
  import opened Indicators
  import opened CompressionScore

  // ---------------------------------------------------------------------
  // JSON conversion
  // ---------------------------------------------------------------------

  /** The Python values the detector produces; dicts keep insertion order. */
  datatype PyValue =
    | PyDict(items: seq<(string, PyValue)>)
    | PyList(elements: seq<PyValue>)
    | NpBool(b: bool)
    | NpInt(i: int)
    | NpFloat(f: real)
    | PyBool(b: bool)
    | PyInt(i: int)
    | PyFloat(f: real)
    | PyStr(s: string)
    | PyNone

  /** No numpy scalar anywhere inside. */
  predicate Plain(v: PyValue)
  {
    match v
    case PyDict(items) => forall i :: 0 <= i < |items| ==> Plain(items[i].1)
    case PyList(elements) => forall i :: 0 <= i < |elements| ==> Plain(elements[i])
    case NpBool(_) => false
    case NpInt(_) => false
    case NpFloat(_) => false
    case _ => true
  }

  /** `make_json_serializable`: rebuilds dicts and lists, turns numpy
      scalars into the Python ones and leaves everything else alone. */
  function MakeSerializable(v: PyValue): (r: PyValue)
    ensures Plain(r)
    ensures v.PyDict? <==> r.PyDict?
    ensures v.PyList? <==> r.PyList?
    ensures v.PyDict? ==> |r.items| == |v.items| && forall i :: 0 <= i < |v.items| ==>
      r.items[i] == (v.items[i].0, MakeSerializable(v.items[i].1))
    ensures v.PyList? ==> |r.elements| == |v.elements| && forall i :: 0 <= i < |v.elements| ==>
      r.elements[i] == MakeSerializable(v.elements[i])
    ensures v.NpBool? ==> r == PyBool(v.b)
    ensures v.NpInt? ==> r == PyInt(v.i)
    ensures v.NpFloat? ==> r == PyFloat(v.f)
    ensures !(v.PyDict? || v.PyList? || v.NpBool? || v.NpInt? || v.NpFloat?) ==> r == v
    decreases v, 1
  {
    match v
    case PyDict(items) => PyDict(SerializeItems(v, items))
    case PyList(elements) => PyList(SerializeElements(v, elements))
    case NpBool(b) => PyBool(b)
    case NpInt(i) => PyInt(i)
    case NpFloat(f) => PyFloat(f)
    case _ => v
  }

  function SerializeItems(parent: PyValue, items: seq<(string, PyValue)>): (r: seq<(string, PyValue)>)
    requires forall i :: 0 <= i < |items| ==> items[i] < parent
    ensures |r| == |items|
    ensures forall i :: 0 <= i < |items| ==> r[i] == (items[i].0, MakeSerializable(items[i].1)) && Plain(r[i].1)
    decreases parent, 0, |items|
  {
    if items == [] then []
    else [(items[0].0, MakeSerializable(items[0].1))] + SerializeItems(parent, items[1..])
  }

  function SerializeElements(parent: PyValue, elements: seq<PyValue>): (r: seq<PyValue>)
    requires forall i :: 0 <= i < |elements| ==> elements[i] < parent
    ensures |r| == |elements|
    ensures forall i :: 0 <= i < |elements| ==> r[i] == MakeSerializable(elements[i]) && Plain(r[i])
    decreases parent, 0, |elements|
  {
    if elements == [] then []
    else [MakeSerializable(elements[0])] + SerializeElements(parent, elements[1..])
  }

  /** A value that is already plain comes back unchanged, so the
      conversion is idempotent. */
  lemma {:induction false} PlainUnchanged(v: PyValue)
    requires Plain(v)
    ensures MakeSerializable(v) == v
    decreases v, 1
  {
    match v
    case PyDict(items) => PlainItemsUnchanged(v, items);
    case PyList(elements) => PlainElementsUnchanged(v, elements);
    case _ =>
  }

  lemma {:induction false} PlainItemsUnchanged(parent: PyValue, items: seq<(string, PyValue)>)
    requires forall i :: 0 <= i < |items| ==> items[i] < parent && Plain(items[i].1)
    ensures SerializeItems(parent, items) == items
    decreases parent, 0, |items|
  {
    if items != [] {
      PlainUnchanged(items[0].1);
      PlainItemsUnchanged(parent, items[1..]);
    }
  }

  lemma {:induction false} PlainElementsUnchanged(parent: PyValue, elements: seq<PyValue>)
    requires forall i :: 0 <= i < |elements| ==> elements[i] < parent && Plain(elements[i])
    ensures SerializeElements(parent, elements) == elements
    decreases parent, 0, |elements|
  {
    if elements != [] {
      PlainUnchanged(elements[0]);
      PlainElementsUnchanged(parent, elements[1..]);
    }
  }

  /** The scalar a value denotes, whether it is a numpy or a Python one. */
  datatype Scalar = BoolScalar(b: bool) | IntScalar(i: int) | FloatScalar(f: real) | Other

  function ScalarOf(v: PyValue): Scalar
  {
    match v
    case NpBool(b) => BoolScalar(b)
    case PyBool(b) => BoolScalar(b)
    case NpInt(i) => IntScalar(i)
    case PyInt(i) => IntScalar(i)
    case NpFloat(f) => FloatScalar(f)
    case PyFloat(f) => FloatScalar(f)
    case _ => Other
  }

  /** Two values hold the same data: dicts with the same keys in the same
      order, lists of the same length, equivalent members, and scalars that
      denote the same bool, integer or float whichever library made them. */
  predicate Equivalent(a: PyValue, b: PyValue)
    decreases a
  {
    match a
    case PyDict(x) =>
      b.PyDict? && |x| == |b.items| &&
      forall i :: 0 <= i < |x| ==> x[i].0 == b.items[i].0 && Equivalent(x[i].1, b.items[i].1)
    case PyList(x) =>
      b.PyList? && |x| == |b.elements| &&
      forall i :: 0 <= i < |x| ==> Equivalent(x[i], b.elements[i])
    case _ => if ScalarOf(a) == Other then a == b else ScalarOf(a) == ScalarOf(b)
  }

  /** The conversion loses nothing: every value, at every depth, comes back
      as an equivalent plain value. */
  lemma {:induction false} SerializeKeepsData(v: PyValue)
    ensures Equivalent(v, MakeSerializable(v))
    decreases v
  {
    var r := MakeSerializable(v);
    match v
    case PyDict(items) =>
      forall i | 0 <= i < |items| ensures Equivalent(items[i].1, r.items[i].1) {
        SerializeKeepsData(items[i].1);
      }
    case PyList(elements) =>
      forall i | 0 <= i < |elements| ensures Equivalent(elements[i], r.elements[i]) {
        SerializeKeepsData(elements[i]);
      }
    case _ =>
  }

  lemma MakeSerializableIdempotent(v: PyValue)
    ensures MakeSerializable(MakeSerializable(v)) == MakeSerializable(v)
  {
    PlainUnchanged(MakeSerializable(v));
  }

  // ---------------------------------------------------------------------
  // The PNG checks
  // ---------------------------------------------------------------------

  /** The image statistics the PNG checks use. */
  datatype PngImageStats = PngImageStats(uniqueColors: nat, ditheringScore: real, edgeDensity: real)

  /** Too few or too many colours, strong dithering, or an edge density
      outside [0.01, 0.3]. */
  function PngIndicator(s: PngImageStats): (b: bool)
    ensures b <==> s.uniqueColors < 1000 || s.uniqueColors > 100000 || s.ditheringScore > 50.0
                   || s.edgeDensity < 0.01 || s.edgeDensity > 0.3
  {
    if s.uniqueColors < 1000 then true
    else if s.uniqueColors > 100000 then true
    else if s.ditheringScore > 50.0 then true
    else if s.edgeDensity < 0.01 then true
    else if s.edgeDensity > 0.3 then true
    else false
  }

  datatype ColorComplexity = VeryLow | Low | Normal | High | Artificial

  function ColorComplexityCategory(uniqueColors: nat): (c: ColorComplexity)
    ensures c == VeryLow <==> uniqueColors < 1000
    ensures c == Low <==> 1000 <= uniqueColors < 5000
    ensures c == Normal <==> 5000 <= uniqueColors < 50000
    ensures c == High <==> 50000 <= uniqueColors < 100000
    ensures c == Artificial <==> uniqueColors >= 100000
  {
    if uniqueColors < 1000 then VeryLow
    else if uniqueColors < 5000 then Low
    else if uniqueColors < 50000 then Normal
    else if uniqueColors < 100000 then High
    else Artificial
  }

  /** A very-low colour count always raises the indicator; so does an
      artificial one above 100000.  Exactly 100000 colours is categorised
      artificial without raising it. */
  lemma CategoryAndIndicator(s: PngImageStats)
    ensures ColorComplexityCategory(s.uniqueColors) == VeryLow ==> PngIndicator(s)
    ensures s.uniqueColors > 100000 ==> ColorComplexityCategory(s.uniqueColors) == Artificial && PngIndicator(s)
    ensures s.uniqueColors == 100000 && 0.01 <= s.edgeDensity <= 0.3 && s.ditheringScore <= 50.0 ==>
              ColorComplexityCategory(s.uniqueColors) == Artificial && !PngIndicator(s)
  {
  }

  datatype PngArtifacts =
    | NotApplicable
    | Analyzed(stats: PngImageStats, aiPngIndicator: bool, category: ColorComplexity)

  /** `detect_png_specific_artifacts`: only for a ".png" extension. */
  function DetectPngArtifacts(path: string, s: PngImageStats): (r: PngArtifacts)
    ensures r.NotApplicable? <==> SplitExt(ToLower(path)) != ".png"
    ensures r.Analyzed? ==> r.aiPngIndicator == PngIndicator(s) && r.category == ColorComplexityCategory(s.uniqueColors)
  {
    if SplitExt(ToLower(path)) != ".png" then NotApplicable
    else Analyzed(s, PngIndicator(s), ColorComplexityCategory(s.uniqueColors))
  }

  // ---------------------------------------------------------------------
  // The overall assessment
  // ---------------------------------------------------------------------

  /** A result section: absent, or present with or without its indicator key. */
  datatype Section = Absent | Present(indicator: Option<bool>)

  /** `.get(indicator, False)` on a section. */
  function Flag(s: Section): bool
  {
    s.Present? && s.indicator.Some? && s.indicator.value
  }

  /** The PNG section as the scorer sees it: its "png_analysis" value and
      its indicator key. */
  datatype PngSection = NoPngSection | PngSectionPresent(analysis: Option<string>, indicator: Option<bool>)

  datatype ArtifactResults = ArtifactResults(
    compression: Section,
    ringing: Section,
    colorBleeding: Section,
    upscaling: Section,
    noiseReduction: Section,
    png: PngSection)

  datatype ArtifactSummary = ArtifactSummary(
    hasCompressionArtifacts: bool,
    hasRinging: bool,
    hasColorBleeding: bool,
    hasUpscaling: bool,
    overDenoised: bool,
    pngSpecificIssues: bool)

  datatype Assessment = Assessment(
    aiProbabilityScore: real,
    confidenceLevel: real,
    totalIndicators: nat,
    positiveIndicators: nat,
    summary: ArtifactSummary)

  function SectionPart(s: Section): seq<bool>
  {
    if s.Present? then [Flag(s)] else []
  }

  /** The PNG section counts unless it reports "not_applicable". */
  predicate PngCounts(p: PngSection)
  {
    p.PngSectionPresent? && p.analysis != Some("not_applicable")
  }

  function PngFlag(p: PngSection): bool
  {
    p.PngSectionPresent? && p.indicator.Some? && p.indicator.value
  }

  /** One indicator per present section, in the order the scorer checks them. */
  function ArtifactIndicators(r: ArtifactResults): (ind: seq<bool>)
    ensures |ind| <= 6
  {
    SectionPart(r.compression) + SectionPart(r.ringing) + SectionPart(r.colorBleeding)
    + SectionPart(r.upscaling) + SectionPart(r.noiseReduction) + PngPart(r.png)
  }

  function PngPart(p: PngSection): seq<bool>
  {
    if PngCounts(p) then [PngFlag(p)] else []
  }

  /** Appends the PNG indicator unless the section is absent or not applicable. */
  method AppendPng(indicators: seq<bool>, p: PngSection) returns (out: seq<bool>)
    ensures out == indicators + PngPart(p)
  {
    out := indicators;
    if p.PngSectionPresent? && p.analysis != Some("not_applicable") {
      out := out + [if p.indicator.Some? then p.indicator.value else false];
    }
  }

  /** Appends a section's indicator when the section is present. */
  method AppendSection(indicators: seq<bool>, s: Section) returns (out: seq<bool>)
    ensures out == indicators + SectionPart(s)
  {
    out := indicators;
    if s.Present? {
      out := out + [if s.indicator.Some? then s.indicator.value else false];
    }
  }

  /** `calculate_artifact_ai_score`. */
  method CalculateArtifactAiScore(r: ArtifactResults) returns (a: Assessment)
    ensures a.totalIndicators == |ArtifactIndicators(r)|
    ensures a.positiveIndicators == CountTrue(ArtifactIndicators(r))
    ensures a.aiProbabilityScore == Share(ArtifactIndicators(r))
    ensures a.confidenceLevel == a.totalIndicators as real / 6.0
    ensures a.summary == ArtifactSummary(Flag(r.compression), Flag(r.ringing), Flag(r.colorBleeding),
                                         Flag(r.upscaling), Flag(r.noiseReduction), PngFlag(r.png))
  {
    var indicators: seq<bool> := [];
    indicators := AppendSection(indicators, r.compression);
    assert indicators == SectionPart(r.compression);
    indicators := AppendSection(indicators, r.ringing);
    indicators := AppendSection(indicators, r.colorBleeding);
    indicators := AppendSection(indicators, r.upscaling);
    indicators := AppendSection(indicators, r.noiseReduction);
    indicators := AppendPng(indicators, r.png);
    var score := if |indicators| > 0 then CountTrue(indicators) as real / |indicators| as real else 0.0;
    var summary := ArtifactSummary(Flag(r.compression), Flag(r.ringing), Flag(r.colorBleeding),
                                   Flag(r.upscaling), Flag(r.noiseReduction), PngFlag(r.png));
    a := Assessment(score, |indicators| as real / 6.0, |indicators|, CountTrue(indicators), summary);
  }

  /** The score is a probability, the confidence at most 1, and there are
      never more positive indicators than indicators. */
  lemma AssessmentBounds(r: ArtifactResults)
    ensures 0.0 <= Share(ArtifactIndicators(r)) <= 1.0
    ensures |ArtifactIndicators(r)| as real / 6.0 <= 1.0
    ensures CountTrue(ArtifactIndicators(r)) <= |ArtifactIndicators(r)|
  {
    ShareInUnitRange(ArtifactIndicators(r));
  }

  /** A "not_applicable" PNG section adds no indicator, yet its flag still
      shows in the summary. */
  lemma NotApplicablePngNotCounted(r: ArtifactResults)
    requires r.png == PngSectionPresent(Some("not_applicable"), Some(true))
    ensures |ArtifactIndicators(r)| <= 5
    ensures PngFlag(r.png)
  {
  }

  /** A JPEG run has all five base sections and no PNG section: five
      indicators and confidence 5/6. */
  lemma BaseSectionsOnly(r: ArtifactResults)
    requires r.compression.Present? && r.ringing.Present? && r.colorBleeding.Present?
    requires r.upscaling.Present? && r.noiseReduction.Present? && r.png == NoPngSection
    ensures |ArtifactIndicators(r)| == 5
  {
  }
}
