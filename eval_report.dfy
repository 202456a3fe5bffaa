/**
 * The evaluation report of a batch run: every analysed file yields an
 * expected and an actual result code (0 meaning the analysis failed), and
 * the report counts hits, misses and failures and derives the accuracy.
 */
module EvalReport {
  import opened Common

  /** One analysed file: the expected and the actual result code (u8). */
  datatype EvalResult = EvalResult(expectedResult: byte, actualResult: byte, fileName: string)

  /** How one result counts: an actual code of 0 is a failure; otherwise a
      hit when it equals that file's own expected code, else a miss. */
  datatype Outcome = Hit | Miss | Fail

  function OutcomeOf(r: EvalResult): (o: Outcome)
    ensures o == Fail <==> r.actualResult == 0
    ensures o == Hit <==> r.actualResult != 0 && r.actualResult == r.expectedResult
    ensures o == Miss <==> r.actualResult != 0 && r.actualResult != r.expectedResult
  {
    if r.actualResult == 0 then Fail
    else if r.actualResult == r.expectedResult then Hit
    else Miss
  }

  /** The number of results with outcome o. */
  function Count(results: seq<EvalResult>, o: Outcome): (n: nat)
    ensures n <= |results|
  {
    if results == [] then 0
    else Count(results[..|results| - 1], o) + (if OutcomeOf(results[|results| - 1]) == o then 1 else 0)
  }

  /** The report: the number of files, the first file's expected code, the
      three counts, hits over files, and the results themselves. */
  datatype Report = Report(
    filesAnalyzed: nat,
    expectedResult: byte,
    hits: nat,
    misses: nat,
    fails: nat,
    accuracy: real,
    results: seq<EvalResult>)

  /** Builds the report with one pass over the results; an empty run is all
      zeros. */
  method From(results: seq<EvalResult>) returns (report: Report)
    ensures report.filesAnalyzed == |results| && report.results == results
    ensures |results| == 0 ==> report == Report(0, 0, 0, 0, 0, 0.0, results)
    ensures |results| > 0 ==> report.expectedResult == results[0].expectedResult
    ensures report.hits == Count(results, Hit)
    ensures report.misses == Count(results, Miss)
    ensures report.fails == Count(results, Fail)
    ensures |results| > 0 ==> report.accuracy == report.hits as real / |results| as real
  {
    var filesAnalyzed := |results|;
    if filesAnalyzed == 0 {
      return Report(filesAnalyzed, 0, 0, 0, 0, 0.0, results);
    }
    var expectedResult := results[0].expectedResult;
    var hits, misses, fails := 0, 0, 0;
    for i := 0 to |results|
      invariant hits == Count(results[..i], Hit)
      invariant misses == Count(results[..i], Miss)
      invariant fails == Count(results[..i], Fail)
    {
      assert results[..i + 1][..i] == results[..i];
      var result := results[i];
      if result.actualResult == 0 {
        fails := fails + 1;
      } else if result.actualResult == result.expectedResult {
        hits := hits + 1;
      } else {
        misses := misses + 1;
      }
    }
    assert results[..|results|] == results;
    var accuracy := hits as real / filesAnalyzed as real;
    report := Report(filesAnalyzed, expectedResult, hits, misses, fails, accuracy, results);
  }

  /** Every result is exactly one of hit, miss and failure. */
  lemma {:induction false} CountsPartition(results: seq<EvalResult>)
    ensures Count(results, Hit) + Count(results, Miss) + Count(results, Fail) == |results|
  {
    if results != [] {
      CountsPartition(results[..|results| - 1]);
    }
  }

  /** Accuracy lies between 0 and 1, and is 1 exactly when every file is a hit. */
  lemma AccuracyInUnitRange(results: seq<EvalResult>)
    requires |results| > 0
    ensures 0.0 <= Count(results, Hit) as real / |results| as real <= 1.0
    ensures Count(results, Hit) as real / |results| as real == 1.0 <==> Count(results, Hit) == |results|
  {
    QuotientInUnitRange(Count(results, Hit) as real, |results| as real);
  }

  /** A file is counted as a hit against its own expected code, not the
      report's: a mixed batch can score full accuracy although its files
      expect different codes. */
  lemma HitsUseEachFilesExpectation(a: EvalResult, b: EvalResult)
    requires a.actualResult == a.expectedResult != 0 && b.actualResult == b.expectedResult != 0
    ensures Count([a, b], Hit) == 2
  {
    assert [a, b][..1] == [a];
    assert [a, b][..1][..0] == [];
  }

  // ---------------------------------------------------------------------
  // The tab-separated line
  // ---------------------------------------------------------------------

  /** The expected code, the actual code and the file name, separated by tabs. */
  function ToLine(r: EvalResult): (line: string)
    ensures '\t' !in r.fileName ==> |SplitOn(line, '\t')| == 3
  {
    var line := NatToString(r.expectedResult as nat) + "\t" + NatToString(r.actualResult as nat) + "\t" + r.fileName;
    LineFields(r);
    line
  }

  /** Splitting at a separator that does not occur in the first part. */
  lemma {:induction false} SplitOnConcat(a: string, sep: char, b: string)
    requires sep !in a
    ensures SplitOn(a + [sep] + b, sep) == [a] + SplitOn(b, sep)
    decreases |a|
  {
    var s := a + [sep] + b;
    if a == [] {
      assert s[1..] == b;
    } else {
      assert s[1..] == a[1..] + [sep] + b;
      SplitOnConcat(a[1..], sep, b);
      assert [s[0]] + a[1..] == a;
    }
  }

  /** A string without the separator is one piece. */
  lemma {:induction false} SplitOnAbsent(s: string, sep: char)
    requires sep !in s
    ensures SplitOn(s, sep) == [s]
    decreases |s|
  {
    if s != [] {
      SplitOnAbsent(s[1..], sep);
      assert [s[0]] + s[1..] == s;
    }
  }

  lemma LineFields(r: EvalResult)
    ensures var e, a := NatToString(r.expectedResult as nat), NatToString(r.actualResult as nat);
      '\t' !in r.fileName ==> SplitOn(e + "\t" + a + "\t" + r.fileName, '\t') == [e, a, r.fileName]
  {
    var e, a := NatToString(r.expectedResult as nat), NatToString(r.actualResult as nat);
    if '\t' !in r.fileName {
      assert '\t' !in e && '\t' !in a;
      assert e + "\t" + a + "\t" + r.fileName == e + ['\t'] + (a + ['\t'] + r.fileName);
      SplitOnConcat(e, '\t', a + ['\t'] + r.fileName);
      SplitOnConcat(a, '\t', r.fileName);
      SplitOnAbsent(r.fileName, '\t');
    }
  }

  /** The line reads back: a file name without tabs gives exactly three
      fields whose digits are the two codes and whose last is the name. */
  lemma {:induction false} LineRoundTrip(r: EvalResult)
    requires '\t' !in r.fileName
    ensures var p := SplitOn(ToLine(r), '\t');
      && |p| == 3 && AllDigits(p[0]) && AllDigits(p[1])
      && DigitsValue(p[0]) == r.expectedResult as int
      && DigitsValue(p[1]) == r.actualResult as int
      && p[2] == r.fileName
  {
    LineFields(r);
    NatToStringRoundTrip(r.expectedResult as nat);
    NatToStringRoundTrip(r.actualResult as nat);
  }
}
