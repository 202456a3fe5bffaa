/**
 * The parser for the neural classifier's text output.  The script prints a
 * line such as "img: photo.jpg pred: FAKE prob: 1.000 conf: 1.000"; the
 * parser takes the first line mentioning "img:", splits it into
 * whitespace-separated fields and reads the token after each marker.
 */
module PythonRunner {
  import opened Common

  const ImageMarker: string := "img:"
  const PredMarker: string := "pred:"
  const ProbMarker: string := "prob:"
  const ConfMarker: string := "conf:"
  const MinFields: nat := 8
  const ModelType: string := "ensemble_efficientnetv2"

  datatype ParseError =
    | NoPredictionFound        // no line mentions "img:"
    | InvalidFormat            // fewer than 8 fields
    | InvalidProbability       // a "prob:" value is not a number
    | InvalidConfidence        // a "conf:" value is not a number
    | CouldNotParsePrediction  // no (or an empty) prediction token

  /** The parsed result map: the prediction lowercased, the two numbers, and
      the derived AI flag and authenticity score. */
  datatype Classification = Classification(
    prediction: string,
    probability: real,
    confidence: real,
    modelType: string,
    isAIGenerated: bool,
    authenticityScore: real)

  datatype ParseOutcome = Parsed(value: Classification) | Failed(error: ParseError)

  // ---------------------------------------------------------------------
  // Reference definitions
  // ---------------------------------------------------------------------

  /** The first line that mentions "img:". */
  function PredictionLine(lines: seq<string>): (r: Option<string>)
    ensures r.None? <==> forall j :: 0 <= j < |lines| ==> !HasSubstring(lines[j], ImageMarker)
    ensures r.Some? ==> r.value in lines && HasSubstring(r.value, ImageMarker)
  {
    if lines == [] then None
    else if HasSubstring(lines[0], ImageMarker) then Some(lines[0])
    else
      assert forall j :: 1 <= j < |lines| ==> lines[j] == lines[1..][j - 1];
      PredictionLine(lines[1..])
  }

  /** Field j is the last `marker` before n that has a token after it. */
  predicate LastMarkerAt(parts: seq<string>, marker: string, n: nat, j: nat)
  {
    && j < n && j + 1 < |parts| && parts[j] == marker
    && forall k :: j < k < n && k + 1 < |parts| ==> parts[k] != marker
  }

  /** The token after the last `marker` among the first n fields, a marker in
      the final position having no token after it. */
  function LastValueBefore(parts: seq<string>, marker: string, n: nat): (r: Option<string>)
    requires n <= |parts|
  {
    if n == 0 then None
    else if parts[n - 1] == marker && n < |parts| then Some(parts[n])
    else LastValueBefore(parts, marker, n - 1)
  }

  /** No value exactly when no marker before n has a token after it; a value
      is the token after the last such marker. */
  lemma {:induction false} LastValueBeforeMeans(parts: seq<string>, marker: string, n: nat)
    requires n <= |parts|
    ensures LastValueBefore(parts, marker, n).None? <==> forall j :: 0 <= j < n && j + 1 < |parts| ==> parts[j] != marker
    ensures LastValueBefore(parts, marker, n).Some? ==>
      exists j :: LastMarkerAt(parts, marker, n, j) && parts[j + 1] == LastValueBefore(parts, marker, n).value
  {
    if n > 0 {
      if parts[n - 1] == marker && n < |parts| {
        assert LastMarkerAt(parts, marker, n, n - 1);
      } else {
        LastValueBeforeMeans(parts, marker, n - 1);
        var r := LastValueBefore(parts, marker, n - 1);
        if r.Some? {
          var j :| LastMarkerAt(parts, marker, n - 1, j) && parts[j + 1] == r.value;
          assert LastMarkerAt(parts, marker, n, j);
        }
      }
    }
  }

  /** A "prob:" or "conf:" marker followed by a token that is not a number. */
  predicate IsBadNumber(parts: seq<string>, j: nat)
  {
    && j + 1 < |parts|
    && (parts[j] == ProbMarker || parts[j] == ConfMarker)
    && ParseFloat(parts[j + 1]).None?
  }

  /** The marker of the first bad number at or after field j. */
  function FirstBadFrom(parts: seq<string>, j: nat): (r: Option<string>)
    requires j <= |parts|
    ensures r.Some? ==> r.value == ProbMarker || r.value == ConfMarker
    decreases |parts| - j
  {
    if j == |parts| then None
    else if IsBadNumber(parts, j) then Some(parts[j])
    else FirstBadFrom(parts, j + 1)
  }

  /** The token after the last marker, or "" (Go's zero value) when there is none. */
  function TokenAfter(parts: seq<string>, marker: string, n: nat): string
    requires n <= |parts|
  {
    var v := LastValueBefore(parts, marker, n);
    if v.Some? then v.value else ""
  }

  /** The number after the last marker, or 0 (Go's zero value) when there is none. */
  function NumberAfter(parts: seq<string>, marker: string, n: nat): real
    requires n <= |parts|
  {
    var v := LastValueBefore(parts, marker, n);
    if v.Some? && ParseFloat(v.value).Some? then ParseFloat(v.value).value else 0.0
  }

  /** The result built from a prediction token and the two numbers. */
  function Classify(prediction: string, probability: real, confidence: real): (c: Classification)
    ensures c.prediction == ToLower(prediction)
    ensures c.isAIGenerated <==> prediction == "FAKE"
    ensures c.isAIGenerated ==> c.authenticityScore == 1.0 - probability
    ensures !c.isAIGenerated ==> c.authenticityScore == probability
    ensures c.probability == probability && c.confidence == confidence && c.modelType == ModelType
  {
    var isFake := prediction == "FAKE";
    Classification(ToLower(prediction), probability, confidence, ModelType, isFake,
                   if isFake then 1.0 - probability else probability)
  }

  /** What the fields of the prediction line yield. */
  function FieldsSpec(parts: seq<string>): (r: ParseOutcome)
  {
    var bad := FirstBadFrom(parts, 0);
    var pred := TokenAfter(parts, PredMarker, |parts|);
    if |parts| < MinFields then Failed(InvalidFormat)
    else if bad == Some(ProbMarker) then Failed(InvalidProbability)
    else if bad == Some(ConfMarker) then Failed(InvalidConfidence)
    else if pred == "" then Failed(CouldNotParsePrediction)
    else Parsed(Classify(pred, NumberAfter(parts, ProbMarker, |parts|), NumberAfter(parts, ConfMarker, |parts|)))
  }

  /** What parsing the whole output yields. */
  function ParseSpec(output: string): (r: ParseOutcome)
  {
    var line := PredictionLine(SplitOn(output, '\n'));
    if line.None? then Failed(NoPredictionFound) else FieldsSpec(Fields(line.value))
  }

  // ---------------------------------------------------------------------
  // The parser
  // ---------------------------------------------------------------------

  /** Splits the output into lines, takes the first "img:" line and parses
      its whitespace-separated fields. */
  method ParseClassifyV6Output(output: string) returns (r: ParseOutcome)
    ensures r == ParseSpec(output)
  {
    var lines := SplitOn(output, '\n');
    var predLine := FindPredictionLine(lines);
    if predLine.None? {
      return Failed(NoPredictionFound);
    }
    r := ParseFields(Fields(predLine.value));
  }

  /** The scan for the first line containing "img:", stopping at it. */
  method FindPredictionLine(lines: seq<string>) returns (line: Option<string>)
    ensures line == PredictionLine(lines)
  {
    var i := 0;
    while i < |lines|
      invariant 0 <= i <= |lines|
      invariant forall k :: 0 <= k < i ==> !HasSubstring(lines[k], ImageMarker)
    {
      if HasSubstring(lines[i], ImageMarker) {
        FirstMatchIsPredictionLine(lines, i);
        return Some(lines[i]);
      }
      i := i + 1;
    }
    return None;
  }

  /** Rejects fewer than 8 fields, then scans them once: "pred:" keeps the
      last prediction, "prob:" and "conf:" parse their token and fail on the
      first value that is not a number. */
  method ParseFields(parts: seq<string>) returns (r: ParseOutcome)
    ensures r == FieldsSpec(parts)
  {
    if |parts| < MinFields {
      return Failed(InvalidFormat);
    }
    var prediction := "";
    var probability, confidence := 0.0, 0.0;
    for j := 0 to |parts|
      invariant FirstBadFrom(parts, 0) == FirstBadFrom(parts, j)
      invariant prediction == TokenAfter(parts, PredMarker, j)
      invariant probability == NumberAfter(parts, ProbMarker, j)
      invariant confidence == NumberAfter(parts, ConfMarker, j)
    {
      var failed;
      failed, prediction, probability, confidence := ReadField(parts, j, prediction, probability, confidence);
      if failed.Some? {
        return Failed(failed.value);
      }
    }
    if prediction == "" {
      return Failed(CouldNotParsePrediction);
    }
    r := Parsed(Classify(prediction, probability, confidence));
  }

  /** The three value markers are different strings. */
  lemma MarkersDistinct()
    ensures PredMarker != ProbMarker && PredMarker != ConfMarker && ProbMarker != ConfMarker
  {
    assert PredMarker[2] != ProbMarker[2] && PredMarker[0] != ConfMarker[0] && ProbMarker[0] != ConfMarker[0];
  }

  /** Reading field j: it is the first bad number from j on, or the search
      goes on after it; and it may be the last marker before j + 1. */
  lemma ScanField(parts: seq<string>, j: nat, marker: string)
    requires j < |parts|
    ensures FirstBadFrom(parts, j) == if IsBadNumber(parts, j) then Some(parts[j]) else FirstBadFrom(parts, j + 1)
    ensures LastValueBefore(parts, marker, j + 1)
      == if parts[j] == marker && j + 1 < |parts| then Some(parts[j + 1]) else LastValueBefore(parts, marker, j)
  {
  }

  /** One field of the scan: "pred:" takes the next token, "prob:" and
      "conf:" parse it and fail when it is not a number. */
  method ReadField(parts: seq<string>, j: nat, prediction: string, probability: real, confidence: real)
    returns (failed: Option<ParseError>, prediction': string, probability': real, confidence': real)
    requires j < |parts|
    requires prediction == TokenAfter(parts, PredMarker, j)
    requires probability == NumberAfter(parts, ProbMarker, j)
    requires confidence == NumberAfter(parts, ConfMarker, j)
    ensures failed.None? <==> !IsBadNumber(parts, j)
    ensures failed.Some? ==> failed == Some(if parts[j] == ProbMarker then InvalidProbability else InvalidConfidence)
    ensures failed.None? ==> prediction' == TokenAfter(parts, PredMarker, j + 1)
    ensures failed.None? ==> probability' == NumberAfter(parts, ProbMarker, j + 1)
    ensures failed.None? ==> confidence' == NumberAfter(parts, ConfMarker, j + 1)
  {
    MarkersDistinct();
    ScanField(parts, j, PredMarker);
    ScanField(parts, j, ProbMarker);
    ScanField(parts, j, ConfMarker);
    failed, prediction', probability', confidence' := None, prediction, probability, confidence;
    var part := parts[j];
    if j + 1 < |parts| {
      if part == PredMarker {
        prediction' := parts[j + 1];
      } else if part == ProbMarker {
        var v := ParseFloat(parts[j + 1]);
        if v.None? {
          return Some(InvalidProbability), prediction, probability, confidence;
        }
        probability' := v.value;
      } else if part == ConfMarker {
        var v := ParseFloat(parts[j + 1]);
        if v.None? {
          return Some(InvalidConfidence), prediction, probability, confidence;
        }
        confidence' := v.value;
      }
    }
  }

  /** The first line found by a left-to-right scan is the prediction line. */
  lemma {:induction false} FirstMatchIsPredictionLine(lines: seq<string>, i: nat)
    requires i < |lines| && HasSubstring(lines[i], ImageMarker)
    requires forall k :: 0 <= k < i ==> !HasSubstring(lines[k], ImageMarker)
    ensures PredictionLine(lines) == Some(lines[i])
  {
    if i > 0 {
      assert !HasSubstring(lines[0], ImageMarker);
      assert forall k :: 0 <= k < i - 1 ==> lines[1..][k] == lines[k + 1];
      FirstMatchIsPredictionLine(lines[1..], i - 1);
    }
  }

  // ---------------------------------------------------------------------
  // Properties
  // ---------------------------------------------------------------------

  /** A successful parse has a non-empty prediction, flags AI exactly for the
      raw token "FAKE", and then reports authenticity as 1 − probability. */
  lemma ParsedResultShape(output: string)
    requires ParseSpec(output).Parsed?
    ensures var c := ParseSpec(output).value;
      && c.prediction != ""
      && (c.isAIGenerated ==> c.prediction == "fake" && c.authenticityScore == 1.0 - c.probability)
      && (!c.isAIGenerated ==> c.authenticityScore == c.probability)
  {
    var parts := Fields(PredictionLine(SplitOn(output, '\n')).value);
    assert FieldsSpec(parts).Parsed?;
    var pred := TokenAfter(parts, PredMarker, |parts|);
    ClassifyShape(pred, NumberAfter(parts, ProbMarker, |parts|), NumberAfter(parts, ConfMarker, |parts|));
  }

  lemma ClassifyShape(pred: string, probability: real, confidence: real)
    requires pred != ""
    ensures var c := Classify(pred, probability, confidence);
      && c.prediction != ""
      && (c.isAIGenerated ==> c.prediction == "fake" && c.authenticityScore == 1.0 - c.probability)
      && (!c.isAIGenerated ==> c.authenticityScore == c.probability)
  {
    assert |ToLower(pred)| == |pred|;
    if pred == "FAKE" {
      assert ToLower(pred) == "fake";
    }
  }

  /** Only the exact upper-case token counts as AI-generated: "Fake" is
      reported as "fake" but not flagged. */
  lemma MixedCaseFakeNotFlagged()
    ensures Classify("Fake", 0.9, 0.8).prediction == "fake"
    ensures !Classify("Fake", 0.9, 0.8).isAIGenerated
  {
    assert ToLower("Fake") == [LowerChar('F')] + ToLower("ake");
  }

  /** Output without any "img:" line is an error. */
  lemma NoImageLineFails(output: string)
    requires forall line :: line in SplitOn(output, '\n') ==> !HasSubstring(line, ImageMarker)
    ensures ParseSpec(output) == Failed(NoPredictionFound)
  {
    var lines := SplitOn(output, '\n');
    assert forall j :: 0 <= j < |lines| ==> lines[j] in lines;
  }

  /** A "pred:" that only appears as the final field has no token after it,
      so the prediction is missing. */
  lemma PredictionOnlyAtEndIsMissing(parts: seq<string>)
    requires |parts| >= 1
    requires forall j :: 0 <= j < |parts| - 1 ==> parts[j] != PredMarker
    ensures LastValueBefore(parts, PredMarker, |parts|).None?
  {
    LastValueBeforeMeans(parts, PredMarker, |parts|);
  }
}
