/**
 * The accuracy report of the API test script: each tested image has a
 * true label ("AI", "Non-AI" or something else) and either an error or the
 * analysis the API returned.  The script colours each verdict by its
 * probability band and, over the labelled results without an error, counts
 * the confusion matrix at the detection threshold of 55 and derives
 * accuracy, precision, recall and F1.  Sending images to the API and the
 * table printing are left out.
 */
module TestImages {
  import opened Common

  // ---------------------------------------------------------------------
  // Verdict colouring
  // ---------------------------------------------------------------------

  const GreenCircle := "\U{1F7E2}"
  const BlueCircle := "\U{1F535}"
  const YellowCircle := "\U{1F7E1}"
  const OrangeCircle := "\U{1F7E0}"
  const RedCircle := "\U{1F534}"

  /** The band markers from the lowest probability to the highest. */
  const BandMarkers: seq<string> := [GreenCircle, BlueCircle, YellowCircle, OrangeCircle, RedCircle]

  /** The band of a probability in percent: one band per 20 points below
      80, and the top band from 80 on. */
  function BandIndex(probability: real): (k: nat)
    ensures k < |BandMarkers|
    ensures k == 0 <==> probability < 20.0
    ensures k == 4 <==> probability >= 80.0
    ensures 0 < k < 4 ==> 20.0 * k as real <= probability < 20.0 * (k + 1) as real
  {
    if probability < 20.0 then 0
    else if probability < 40.0 then 1
    else if probability < 60.0 then 2
    else if probability < 80.0 then 3
    else 4
  }

  /** `format_verdict`: the band marker, a space and the verdict. */
  function FormatVerdict(verdict: string, probability: real): (s: string)
    ensures probability >= 80.0 ==> s == RedCircle + " " + verdict
    ensures 60.0 <= probability < 80.0 ==> s == OrangeCircle + " " + verdict
    ensures 40.0 <= probability < 60.0 ==> s == YellowCircle + " " + verdict
    ensures 20.0 <= probability < 40.0 ==> s == BlueCircle + " " + verdict
    ensures probability < 20.0 ==> s == GreenCircle + " " + verdict
  {
    BandMarkers[BandIndex(probability)] + " " + verdict
  }

  /** A higher probability never gets a lower band. */
  lemma BandMonotone(p: real, q: real)
    requires p <= q
    ensures BandIndex(p) <= BandIndex(q)
  {
  }

  // ---------------------------------------------------------------------
  // Accuracy metrics
  // ---------------------------------------------------------------------

  /** The probability at or above which an image counts as detected AI. */
  const AiDetectionThreshold: real := 55.0

  const AiLabel := "AI"
  const NonAiLabel := "Non-AI"

  /** One entry of the results: its "true_label" (None when missing),
      whether it has an "error" key, and the "probability" of its analysis
      (None when the analysis or the key is missing, read as 0). */
  datatype TestResult = TestResult(trueLabel: Option<string>, hasError: bool, probability: Option<real>)

  /** A result that takes part in the metrics. */
  predicate Labelled(r: TestResult)
  {
    r.trueLabel.Some? && (r.trueLabel.value == AiLabel || r.trueLabel.value == NonAiLabel) && !r.hasError
  }

  function Probability(r: TestResult): real
  {
    if r.probability.Some? then r.probability.value else 0.0
  }

  predicate PredictedAi(r: TestResult)
  {
    Probability(r) >= AiDetectionThreshold
  }

  predicate ActualAi(r: TestResult)
  {
    r.trueLabel == Some(AiLabel)
  }

  /** The labelled results without an error, in order. */
  function LabelledResults(results: seq<TestResult>): (l: seq<TestResult>)
    ensures |l| <= |results|
    ensures forall r :: r in l <==> r in results && Labelled(r)
  {
    if results == [] then []
    else
      var init := LabelledResults(results[..|results| - 1]);
      var last := results[|results| - 1];
      assert results == results[..|results| - 1] + [last];
      if Labelled(last) then init + [last] else init
  }

  /** The confusion matrix and the number of correct predictions. */
  datatype Confusion = Confusion(correct: nat, tp: nat, fp: nat, tn: nat, fn: nat)

  /** The confusion counts over a list of results. */
  function Tally(l: seq<TestResult>): (c: Confusion)
  {
    if l == [] then Confusion(0, 0, 0, 0, 0)
    else
      var c := Tally(l[..|l| - 1]);
      var r := l[|l| - 1];
      var predicted, actual := PredictedAi(r), ActualAi(r);
      Confusion(
        c.correct + (if predicted == actual then 1 else 0),
        c.tp + (if actual && predicted then 1 else 0),
        c.fp + (if !actual && predicted then 1 else 0),
        c.tn + (if !actual && !predicted then 1 else 0),
        c.fn + (if actual && !predicted then 1 else 0))
  }

  datatype Metrics = Metrics(
    total: nat,
    correct: nat,
    accuracy: real,
    truePositives: nat,
    falsePositives: nat,
    trueNegatives: nat,
    falseNegatives: nat,
    precision: real,
    recall: real,
    f1Score: real)

  /** `a / b`, or 0 when the denominator is 0. */
  function RatioOrZero(a: real, b: real): real
  {
    if b > 0.0 then a / b else 0.0
  }

  /** The metrics of a confusion matrix over `total` results. */
  function MetricsOf(c: Confusion, total: nat): Metrics
    requires total > 0
  {
    var precision := RatioOrZero(c.tp as real, (c.tp + c.fp) as real);
    var recall := RatioOrZero(c.tp as real, (c.tp + c.fn) as real);
    Metrics(total, c.correct, c.correct as real / total as real, c.tp, c.fp, c.tn, c.fn,
            precision, recall, RatioOrZero(2.0 * (precision * recall), precision + recall))
  }

  /** `calculate_accuracy_metrics`: None for no results or no labelled
      result without an error, else the metrics of the labelled ones. */
  method CalculateAccuracyMetrics(results: seq<TestResult>) returns (m: Option<Metrics>)
    ensures m.None? <==> LabelledResults(results) == []
    ensures m.Some? ==> m.value == MetricsOf(Tally(LabelledResults(results)), |LabelledResults(results)|)
  {
    if results == [] {
      return None;
    }
    var labelled := LabelledResults(results);
    if labelled == [] {
      return None;
    }
    var c := CountConfusion(labelled);
    m := Some(MetricsOf(c, |labelled|));
  }

  /** The counting loop of `calculate_accuracy_metrics`: each result is
      correct when prediction and label agree, and falls in one cell of the
      confusion matrix. */
  method CountConfusion(labelled: seq<TestResult>) returns (c: Confusion)
    ensures c == Tally(labelled)
  {
    var correct, tp, fp, tn, fn := 0, 0, 0, 0, 0;
    var i := 0;
    while i < |labelled|
      invariant 0 <= i <= |labelled|
      invariant Tally(labelled[..i]) == Confusion(correct, tp, fp, tn, fn)
    {
      var r := labelled[i];
      assert labelled[..i + 1][..i] == labelled[..i];
      var predictedAi := Probability(r) >= AiDetectionThreshold;
      var actualAi := r.trueLabel == Some(AiLabel);
      if predictedAi == actualAi {
        correct := correct + 1;
      }
      if actualAi && predictedAi {
        tp := tp + 1;
      } else if actualAi && !predictedAi {
        fn := fn + 1;
      } else if !actualAi && predictedAi {
        fp := fp + 1;
      } else if !actualAi && !predictedAi {
        tn := tn + 1;
      }
      i := i + 1;
    }
    assert labelled[..i] == labelled;
    c := Confusion(correct, tp, fp, tn, fn);
  }


  /** Every result falls in exactly one cell of the confusion matrix, and
      the correct ones are the true positives and true negatives. */
  lemma {:induction false} TallyPartition(l: seq<TestResult>)
    ensures var c := Tally(l);
      c.tp + c.fp + c.tn + c.fn == |l| && c.correct == c.tp + c.tn
  {
    if l != [] {
      TallyPartition(l[..|l| - 1]);
    }
  }

  /** A count over a larger count lies in [0, 1]; over nothing it is 0. */
  lemma RatioOrZeroInUnitRange(a: real, b: real)
    requires 0.0 <= a <= b
    ensures 0.0 <= RatioOrZero(a, b) <= 1.0
    ensures b == 0.0 ==> RatioOrZero(a, b) == 0.0
    ensures 0.0 < a == b ==> RatioOrZero(a, b) == 1.0
  {
    if b > 0.0 {
      QuotientInUnitRange(a, b);
    }
  }

  lemma ProductNonNegative(a: real, b: real)
    requires 0.0 <= a && 0.0 <= b
    ensures 0.0 <= a * b
  {
  }

  /** F1 of two values in [0, 1] lies in [0, 1]. */
  lemma HarmonicInUnitRange(p: real, r: real)
    requires 0.0 <= p <= 1.0 && 0.0 <= r <= 1.0
    ensures 0.0 <= RatioOrZero(2.0 * (p * r), p + r) <= 1.0
  {
    ProductNonNegative(p, 1.0 - r);
    ProductNonNegative(r, 1.0 - p);
    ProductNonNegative(p, r);
    RatioOrZeroInUnitRange(2.0 * (p * r), p + r);
  }

  /** All metrics lie in [0, 1], with a zero denominator giving 0; a
      perfect run has accuracy 1. */
  lemma MetricsInUnitRange(c: Confusion, total: nat)
    requires total > 0 && c.tp + c.fp + c.tn + c.fn == total && c.correct == c.tp + c.tn
    ensures var m := MetricsOf(c, total);
      && 0.0 <= m.accuracy <= 1.0
      && 0.0 <= m.precision <= 1.0 && (c.tp + c.fp == 0 ==> m.precision == 0.0)
      && 0.0 <= m.recall <= 1.0 && (c.tp + c.fn == 0 ==> m.recall == 0.0)
      && 0.0 <= m.f1Score <= 1.0
      && (c.correct == total ==> m.accuracy == 1.0)
  {
    RatioOrZeroInUnitRange(c.correct as real, total as real);
    RatioOrZeroInUnitRange(c.tp as real, (c.tp + c.fp) as real);
    RatioOrZeroInUnitRange(c.tp as real, (c.tp + c.fn) as real);
    var precision := RatioOrZero(c.tp as real, (c.tp + c.fp) as real);
    var recall := RatioOrZero(c.tp as real, (c.tp + c.fn) as real);
    HarmonicInUnitRange(precision, recall);
    var m := MetricsOf(c, total);
    assert m.precision == precision && m.recall == recall;
    assert m.f1Score == RatioOrZero(2.0 * (precision * recall), precision + recall);
    assert m.accuracy == RatioOrZero(c.correct as real, total as real);
  }

  /** The metrics of every non-empty result list: the matrix accounts for
      each labelled result once and every rate lies in [0, 1]. */
  lemma ReportedMetricsValid(results: seq<TestResult>)
    requires LabelledResults(results) != []
    ensures var l := LabelledResults(results);
      var m := MetricsOf(Tally(l), |l|);
      && m.truePositives + m.falsePositives + m.trueNegatives + m.falseNegatives == m.total
      && m.correct == m.truePositives + m.trueNegatives
      && 0.0 <= m.accuracy <= 1.0 && 0.0 <= m.precision <= 1.0
      && 0.0 <= m.recall <= 1.0 && 0.0 <= m.f1Score <= 1.0
  {
    var l := LabelledResults(results);
    TallyPartition(l);
    MetricsInUnitRange(Tally(l), |l|);
  }

  /** An image counts as detected AI exactly at or above 55. */
  lemma DetectionThreshold(r: TestResult)
    ensures PredictedAi(r) <==> Probability(r) >= 55.0
    ensures r.probability.None? ==> !PredictedAi(r)
  {
  }
}
