/**
 * The compression analyzer's scoring: JPEG files are judged on double
 * compression, quantisation tables and the DCT histogram; PNG files on the
 * statistics of the chunk walker.  Each check appends one indicator and the
 * AI probability is the share of true indicators.
 */
module CompressionScore {
  import opened Common
  import opened HandlerUtils
  import opened Indicators

  // ---------------------------------------------------------------------
  // JPEG
  // ---------------------------------------------------------------------

  /** What the JPEG helper scripts report: the double-compression score,
      the quantisation-table statistics (empty when unavailable), the
      number of DCT histogram bins and the histogram's |mean − median|. */
  datatype JpegStats = JpegStats(
    doubleCompression: real,
    quantTables: map<string, real>,
    histogramBins: nat,
    histogramSkewness: real)

  datatype JpegFlags = JpegFlags(
    highDoubleCompression: bool,
    suspiciousQuantization: bool,
    uniformQuantization: bool,
    unnaturalHistogram: bool)

  datatype JpegAnalysis = JpegAnalysis(
    aiProbability: real,
    flags: JpegFlags,
    confidence: real,
    indicators: seq<bool>)

  /** `dict.get(key, 0)` on the quantisation statistics. */
  function QuantValue(tables: map<string, real>, key: string): real
  {
    if key in tables then tables[key] else 0.0
  }

  /** The skewness the histogram check computes: only for more than 10 bins. */
  function Skewness(r: JpegStats): real
  {
    if r.histogramBins > 10 then r.histogramSkewness else 0.0
  }

  /** The JPEG indicators in check order: double compression always, the
      two quantisation checks for a non-empty table, the histogram check
      for more than 10 bins. */
  function JpegIndicators(r: JpegStats): (ind: seq<bool>)
    ensures 1 <= |ind| <= 4
    ensures ind[0] == (r.doubleCompression > 0.15)
  {
    [r.doubleCompression > 0.15]
    + (if |r.quantTables| > 0
       then [QuantValue(r.quantTables, "comp0_mean") < 15.0, QuantValue(r.quantTables, "comp0_std") < 5.0]
       else [])
    + (if r.histogramBins > 10 then [r.histogramSkewness > 100.0] else [])
  }

  /** `calculate_jpeg_ai_score`. */
  method JpegAiScore(r: JpegStats) returns (a: JpegAnalysis)
    ensures a.indicators == JpegIndicators(r)
    ensures a.aiProbability == Share(a.indicators)
    ensures a.confidence == |a.indicators| as real / 4.0
    ensures a.flags.highDoubleCompression == (r.doubleCompression > 0.15)
    ensures a.flags.suspiciousQuantization == (|r.quantTables| > 0 && QuantValue(r.quantTables, "comp0_mean") < 15.0)
    ensures a.flags.uniformQuantization == (|r.quantTables| > 0 && QuantValue(r.quantTables, "comp0_std") < 5.0)
    ensures a.flags.unnaturalHistogram == (r.histogramBins > 10 && r.histogramSkewness > 100.0)
  {
    // The checks append to the indicator list in this order.
    var quantChecks: seq<bool> := [];
    var mean, std := 0.0, 0.0;
    if |r.quantTables| > 0 {
      mean := QuantValue(r.quantTables, "comp0_mean");
      std := QuantValue(r.quantTables, "comp0_std");
      quantChecks := [mean < 15.0, std < 5.0];
    }
    var histogramChecks: seq<bool> := [];
    var skewness := 0.0;
    if r.histogramBins > 10 {
      skewness := r.histogramSkewness;
      histogramChecks := [skewness > 100.0];
    }
    var indicators := [r.doubleCompression > 0.15] + quantChecks + histogramChecks;
    var probability := Share(indicators);
    var flags := JpegFlags(
      r.doubleCompression > 0.15,
      if |r.quantTables| > 0 then mean < 15.0 else false,
      if |r.quantTables| > 0 then std < 5.0 else false,
      if r.histogramBins > 0 then skewness > 100.0 else false);
    a := JpegAnalysis(probability, flags, |indicators| as real / 4.0, indicators);
  }

  /** The JPEG probability is a share of 1 to 4 indicators, and the
      confidence is how many of the 4 possible checks ran. */
  lemma JpegScoreBounds(r: JpegStats)
    ensures 0.0 <= Share(JpegIndicators(r)) <= 1.0
    ensures 0.25 <= |JpegIndicators(r)| as real / 4.0 <= 1.0
  {
    ShareInUnitRange(JpegIndicators(r));
  }

  /** A non-empty table without the statistics reads them as 0, which
      counts as both suspicious and uniform quantisation. */
  lemma MissingQuantStatsAreSuspicious(r: JpegStats)
    requires |r.quantTables| > 0 && "comp0_mean" !in r.quantTables && "comp0_std" !in r.quantTables
    ensures JpegIndicators(r)[1] && JpegIndicators(r)[2]
  {
  }

  // ---------------------------------------------------------------------
  // PNG
  // ---------------------------------------------------------------------

  /** The keys of the chunk walker's output that the scorer reads; None
      for an absent key. */
  datatype PngStats = PngStats(
    compressionType: Option<string>,
    pixelEntropy: Option<real>,
    compressionRatio: Option<real>,
    idatBytes: Option<real>,
    fileSize: Option<real>)

  datatype PngFlags = PngFlags(
    suspiciousCompression: bool,
    unusualColorCount: bool,
    poorCompressionEfficiency: bool,
    minimalMetadata: bool)

  datatype PngAnalysis = PngAnalysis(
    aiProbability: real,
    flags: PngFlags,
    confidence: real,
    indicators: seq<bool>)

  /** A compression type naming uncompressed or raw data. */
  predicate UncompressedType(t: string)
  {
    HasSubstring(ToLower(t), "uncompressed") || HasSubstring(ToLower(t), "raw")
  }

  /** The IDAT share of the file, 0 for a non-positive size. */
  function IdatRatio(idat: real, size: real): real
  {
    if size > 0.0 then idat / size else 0.0
  }

  function TypePart(r: PngStats): seq<bool>
  {
    if r.compressionType.Some? then [UncompressedType(r.compressionType.value)] else []
  }

  function EntropyPart(r: PngStats): seq<bool>
  {
    if r.pixelEntropy.Some? then [r.pixelEntropy.value < 4.0] else []
  }

  function RatioPart(r: PngStats): seq<bool>
  {
    if r.compressionRatio.Some? then [r.compressionRatio.value > 0.8] else []
  }

  function IdatPart(r: PngStats): seq<bool>
  {
    if r.idatBytes.Some? && r.fileSize.Some? then [IdatRatio(r.idatBytes.value, r.fileSize.value) > 0.98] else []
  }

  /** The indicators of the fields that are present, in check order. */
  function PngFound(r: PngStats): (ind: seq<bool>)
    ensures |ind| <= 4
  {
    TypePart(r) + EntropyPart(r) + RatioPart(r) + IdatPart(r)
  }

  /** The indicators scored: those found, or a single false one when no
      field is present. */
  function PngIndicators(r: PngStats): (ind: seq<bool>)
    ensures 1 <= |ind| <= 4
  {
    if PngFound(r) == [] then [false] else PngFound(r)
  }

  /** The share, reduced by 30% for entropy above 7 and halved for a ratio
      of at most 0.05. */
  function PngProbability(r: PngStats): real
  {
    var p := Share(PngIndicators(r));
    var p1 := if r.pixelEntropy.Some? && r.pixelEntropy.value > 7.0 then p * 0.7 else p;
    if r.compressionRatio.Some? && r.compressionRatio.value <= 0.05 then p1 * 0.5 else p1
  }

  /** The entropy check: too little complexity is suspicious. */
  method CheckEntropy(r: PngStats) returns (part: seq<bool>, unusualColorCount: bool)
    ensures part == EntropyPart(r)
    ensures unusualColorCount <==> r.pixelEntropy.Some? && r.pixelEntropy.value < 4.0
  {
    part, unusualColorCount := [], false;
    if r.pixelEntropy.Some? {
      var entropy := r.pixelEntropy.value;
      if entropy < 4.0 {
        part := [true];
        unusualColorCount := true;
      } else if entropy > 7.5 {
        part := [false];
      } else {
        part := [false];
      }
    }
  }

  /** The compression-ratio check: only poor compression is suspicious. */
  method CheckRatio(r: PngStats) returns (part: seq<bool>)
    ensures part == RatioPart(r)
  {
    part := [];
    if r.compressionRatio.Some? {
      var ratio := r.compressionRatio.value;
      if ratio <= 0.1 {
        part := [false];
      } else if ratio < 0.3 {
        part := [false];
      } else if ratio > 0.8 {
        part := [true];
      } else {
        part := [false];
      }
    }
  }

  /** The four PNG checks, each appending its indicator when its field is
      present; also the two flags set along the way. */
  method CollectPngIndicators(r: PngStats) returns (indicators: seq<bool>, suspiciousCompression: bool, unusualColorCount: bool)
    ensures indicators == PngFound(r)
    ensures suspiciousCompression <==> r.compressionType.Some? && UncompressedType(r.compressionType.value)
    ensures unusualColorCount <==> r.pixelEntropy.Some? && r.pixelEntropy.value < 4.0
  {
    indicators := [];
    suspiciousCompression := false;
    if r.compressionType.Some? {
      if UncompressedType(r.compressionType.value) {
        indicators := indicators + [true];
        suspiciousCompression := true;
      } else {
        indicators := indicators + [false];
      }
    }
    assert indicators == TypePart(r);
    var entropyPart, ratioPart;
    entropyPart, unusualColorCount := CheckEntropy(r);
    indicators := indicators + entropyPart;
    ratioPart := CheckRatio(r);
    indicators := indicators + ratioPart;
    if r.idatBytes.Some? && r.fileSize.Some? {
      var idatRatio := if r.fileSize.value > 0.0 then r.idatBytes.value / r.fileSize.value else 0.0;
      indicators := indicators + [idatRatio > 0.98];
    }
  }

  /** The share of the indicators with the two photo-like reductions. */
  method DampedProbability(r: PngStats, indicators: seq<bool>) returns (probability: real)
    requires indicators == PngIndicators(r)
    ensures probability == PngProbability(r)
  {
    probability := if |indicators| > 0 then CountTrue(indicators) as real / |indicators| as real else 0.0;
    if r.pixelEntropy.Some? && r.pixelEntropy.value > 7.0 {
      probability := probability * 0.7;
    }
    if r.compressionRatio.Some? && r.compressionRatio.value <= 0.05 {
      probability := probability * 0.5;
    }
  }

  /** `calculate_png_ai_score`; None where Python divides by a zero file
      size for the minimal-metadata flag. */
  method PngAiScore(r: PngStats) returns (a: Option<PngAnalysis>)
    ensures a.None? <==> r.idatBytes.Some? && r.fileSize.Some? && r.fileSize.value == 0.0
    ensures a.Some? ==> var v := a.value;
      && v.indicators == PngIndicators(r)
      && v.aiProbability == PngProbability(r)
      && v.confidence == |v.indicators| as real / 4.0
      && (v.flags.suspiciousCompression <==> r.compressionType.Some? && UncompressedType(r.compressionType.value))
      && (v.flags.unusualColorCount <==> r.pixelEntropy.Some? && r.pixelEntropy.value < 4.0)
      && (v.flags.poorCompressionEfficiency <==> r.compressionRatio.Some? && r.compressionRatio.value > 0.8)
      && (v.flags.minimalMetadata <==> r.idatBytes.Some? && r.fileSize.Some? && r.idatBytes.value / r.fileSize.value > 0.98)
  {
    var indicators, suspiciousCompression, unusualColorCount := CollectPngIndicators(r);
    if indicators == [] {
      indicators := indicators + [false];
    }
    var probability := DampedProbability(r, indicators);
    if r.idatBytes.Some? && r.fileSize.Some? && r.fileSize.value == 0.0 {
      return None;
    }
    var minimalMetadata := r.idatBytes.Some? && r.fileSize.Some? && r.idatBytes.value / r.fileSize.value > 0.98;
    var flags := PngFlags(suspiciousCompression, unusualColorCount,
                          r.compressionRatio.Some? && r.compressionRatio.value > 0.8, minimalMetadata);
    a := Some(PngAnalysis(probability, flags, |indicators| as real / 4.0, indicators));
  }

  /** The PNG probability stays a probability after both reductions. */
  lemma PngProbabilityInUnitRange(r: PngStats)
    ensures 0.0 <= PngProbability(r) <= 1.0
  {
    ShareInUnitRange(PngIndicators(r));
  }

  /** With none of the fields present the file is judged authentic: one
      false indicator, probability 0, confidence 0.25. */
  lemma NoPngFieldsIsAuthentic()
    ensures var r := PngStats(None, None, None, None, None);
      PngIndicators(r) == [false] && PngProbability(r) == 0.0 && |PngIndicators(r)| as real / 4.0 == 0.25
  {
    assert CountTrue([false]) == 0 by {
      assert [false][..0] == [];
    }
  }

  /** Of the ratio bands only a ratio above 0.8 is suspicious. */
  lemma OnlyPoorCompressionIsSuspicious(ratio: real)
    ensures PngIndicators(PngStats(None, None, Some(ratio), None, None)) == [ratio > 0.8]
  {
  }

  /** A very regular, perfectly compressed image (entropy above 7, ratio at
      most 0.05) scores at most 0.35 even with every indicator set. */
  lemma PhotoCharacteristicsDamp(r: PngStats)
    requires r.pixelEntropy.Some? && r.pixelEntropy.value > 7.0
    requires r.compressionRatio.Some? && r.compressionRatio.value <= 0.05
    ensures PngProbability(r) <= 0.35
  {
    ShareInUnitRange(PngIndicators(r));
  }

  // ---------------------------------------------------------------------
  // Dispatch by extension
  // ---------------------------------------------------------------------

  /** Python's `os.path.splitext(...)[1]`: like Go's `filepath.Ext`, except
      that dots leading the file name do not start an extension. */
  function SplitExt(path: string): (e: string)
    ensures e == [] || e == Ext(path)
  {
    var name := FinalElement(path);
    var e := Ext(path);
    if |e| <= |name| && forall i :: 0 <= i < |name| - |e| ==> name[i] == '.' then [] else e
  }

  datatype CompressionResult =
    | JpegResult(jpegStats: JpegStats, jpeg: JpegAnalysis)
    | PngResult(pngStats: PngStats, png: Option<PngAnalysis>)
    | UnsupportedFormat(ext: string)

  /** `analyze_image`: the lowercased extension picks the JPEG or PNG path;
      the helper scripts' outputs are parameters. */
  method AnalyzeImage(path: string, jpegStats: JpegStats, pngStats: PngStats) returns (result: CompressionResult)
    ensures var ext := SplitExt(ToLower(path));
      && (result.JpegResult? <==> ext == ".jpg" || ext == ".jpeg")
      && (result.PngResult? <==> ext == ".png")
      && (result.UnsupportedFormat? <==> ext !in {".jpg", ".jpeg", ".png"})
    ensures result.JpegResult? ==> result.jpeg.indicators == JpegIndicators(jpegStats)
    ensures result.PngResult? ==> result.png.Some? ==> result.png.value.aiProbability == PngProbability(pngStats)
    ensures result.UnsupportedFormat? ==> result.ext == SplitExt(ToLower(path))
  {
    var ext := SplitExt(ToLower(path));
    if ext == ".jpg" || ext == ".jpeg" {
      var a := JpegAiScore(jpegStats);
      result := JpegResult(jpegStats, a);
    } else if ext == ".png" {
      var a := PngAiScore(pngStats);
      result := PngResult(pngStats, a);
    } else {
      result := UnsupportedFormat(ext);
    }
  }
}
