/**
 * The decision logic of the image classifier script: where a model's
 * decision threshold is looked for and how it is read, the ensemble vote
 * over several models, the list of test-time augmentations (TTA), the
 * dataset index arithmetic that pairs images with augmentations, and the
 * averaging of each image's augmented outputs.  The networks themselves,
 * image decoding and the file system are left out: model outputs are
 * sequences of probabilities and files are a map from name to parsed JSON.
 */
module ClassifyV6 {
  import opened Common

  // ---------------------------------------------------------------------
  // Small integer helpers
  // ---------------------------------------------------------------------

  function MinNat(a: nat, b: nat): (r: nat)
    ensures r <= a && r <= b && (r == a || r == b)
  {
    if a <= b then a else b
  }

  /** Row i of a table with n columns ends no later than row k starts. */
  lemma RowFits(i: nat, k: nat, n: nat)
    ensures i < k ==> i * n + n <= k * n
  {
    if i < k {
      var d := k - i - 1;
      assert d * n >= 0;
      assert k * n == i * n + n + d * n;
    }
  }

  /** Floor division has a unique quotient and remainder. */
  lemma DivUnique(a: nat, n: nat, q: nat, r: nat)
    requires 0 <= r < n && a == q * n + r
    ensures a / n == q && a % n == r
  {
    var q', r' := a / n, a % n;
    assert a == q' * n + r';
    RowFits(q', q, n);
    RowFits(q, q', n);
  }

  lemma NextRow(i: nat, n: nat)
    ensures (i + 1) * n == i * n + n
  {
  }

  /** Group i of a batch with at least i + 1 whole groups fits in it. */
  lemma GroupFits(i: nat, len: nat, n: nat)
    requires n > 0 && i < len / n
    ensures i * n + n <= len
  {
    RowFits(i, len / n, n);
    assert len / n * n <= len;
  }

  /** The whole groups of a batch of m outputs, taken after r reported
      images and b outputs with r * n <= b, do not overrun a dataset of
      `images` images. */
  lemma CountFits(r: nat, m: nat, b: nat, n: nat, images: nat)
    requires n > 0 && r * n <= b && b + m <= images * n
    ensures r + m / n <= images
    ensures (r + m / n) * n <= b + m
  {
    assert (r + m / n) * n == r * n + m / n * n;
    assert m / n * n <= m;
    RowFits(images, r + m / n, n);
  }

  // ---------------------------------------------------------------------
  // Threshold files
  // ---------------------------------------------------------------------

  /** A parsed JSON document. */
  datatype Json =
    | JNull
    | JBool(b: bool)
    | JNumber(n: real)
    | JString(s: string)
    | JArray(items: seq<Json>)
    | JObject(fields: map<string, Json>)

  /** `isinstance(v, (int, float))` followed by `float(v)`: Python's bool is
      an int, so true and false read as 1 and 0. */
  function AsNumber(v: Json): (r: Option<real>)
    ensures r.Some? <==> v.JNumber? || v.JBool?
    ensures v.JNumber? ==> r == Some(v.n)
    ensures v.JBool? ==> r == Some(if v.b then 1.0 else 0.0)
  {
    match v
    case JNumber(n) => Some(n)
    case JBool(b) => Some(if b then 1.0 else 0.0)
    case _ => None
  }

  const BestThresholdKey := "best_threshold"
  const ThresholdKey := "threshold"

  /** An object whose `key` holds a number. */
  predicate NumericField(v: Json, key: string)
  {
    v.JObject? && key in v.fields && AsNumber(v.fields[key]).Some?
  }

  /** `load_threshold_from_json`; None stands for a file that cannot be read
      or parsed (the exception the function swallows). */
  function LoadThreshold(doc: Option<Json>): (r: Option<real>)
  {
    if doc.None? then None
    else
      var v := doc.value;
      if NumericField(v, BestThresholdKey) then AsNumber(v.fields[BestThresholdKey])
      else if NumericField(v, ThresholdKey) then AsNumber(v.fields[ThresholdKey])
      else if v.JObject? then None
      else AsNumber(v)
  }

  /** A numeric "best_threshold" wins, then a numeric "threshold", then a
      bare number; every other document gives no threshold. */
  lemma LoadThresholdPreference(doc: Option<Json>)
    ensures LoadThreshold(doc).Some? <==>
      doc.Some? && (NumericField(doc.value, BestThresholdKey) || NumericField(doc.value, ThresholdKey)
                    || doc.value.JNumber? || doc.value.JBool?)
    ensures doc.Some? && NumericField(doc.value, BestThresholdKey) ==>
      LoadThreshold(doc) == AsNumber(doc.value.fields[BestThresholdKey])
    ensures doc.Some? && !NumericField(doc.value, BestThresholdKey) && NumericField(doc.value, ThresholdKey) ==>
      LoadThreshold(doc) == AsNumber(doc.value.fields[ThresholdKey])
  {
  }

  /** A threshold written as a number, alone or under either key, reads back. */
  lemma LoadThresholdRoundTrip(t: real)
    ensures LoadThreshold(Some(JNumber(t))) == Some(t)
    ensures LoadThreshold(Some(JObject(map[BestThresholdKey := JNumber(t)]))) == Some(t)
    ensures LoadThreshold(Some(JObject(map[ThresholdKey := JNumber(t)]))) == Some(t)
    ensures LoadThreshold(Some(JObject(map[BestThresholdKey := JString("x"), ThresholdKey := JNumber(t)]))) == Some(t)
  {
    var both := JObject(map[BestThresholdKey := JString("x"), ThresholdKey := JNumber(t)]);
    assert !NumericField(both, BestThresholdKey);
    assert NumericField(both, ThresholdKey);
  }

  const BestSuffix := "_best"
  const ThresholdSuffix := "_threshold.json"
  const SharedThresholdFile := "threshold.json"

  /** The three names tried next to a model file with stem `stem`: its own,
      the one without "_best", and the shared one. */
  function CandidateNames(stem: string): (names: seq<string>)
    ensures |names| == 3
  {
    [stem + ThresholdSuffix, ReplaceAll(stem, BestSuffix, "") + ThresholdSuffix, SharedThresholdFile]
  }

  /** The entries of `xs` in order, each kept at its first occurrence. */
  function Dedup(xs: seq<string>): (d: seq<string>)
  {
    if xs == [] then []
    else
      var d := Dedup(xs[..|xs| - 1]);
      if xs[|xs| - 1] in d then d else d + [xs[|xs| - 1]]
  }

  predicate Distinct(xs: seq<string>)
  {
    forall i, j :: 0 <= i < j < |xs| ==> xs[i] != xs[j]
  }

  /** Deduplicating keeps every entry once and adds nothing. */
  lemma {:induction false} DedupSpec(xs: seq<string>)
    ensures Distinct(Dedup(xs))
    ensures forall x :: x in Dedup(xs) <==> x in xs
  {
    if xs != [] {
      var init := xs[..|xs| - 1];
      DedupSpec(init);
      assert xs == init + [xs[|xs| - 1]];
    }
  }

  /** `guess_threshold_candidates_for_model`, the folder left implicit: all
      candidates sit in the model's folder, so paths compare as names. */
  method GuessThresholdCandidates(stem: string) returns (uniq: seq<string>)
    ensures uniq == Dedup(CandidateNames(stem))
  {
    var candidates := CandidateNames(stem);
    var seen: set<string> := {};
    uniq := [];
    var i := 0;
    while i < |candidates|
      invariant 0 <= i <= |candidates|
      invariant uniq == Dedup(candidates[..i])
      invariant forall x :: x in seen <==> x in uniq
    {
      var c := candidates[i];
      assert candidates[..i + 1][..i] == candidates[..i];
      if c !in seen {
        seen := seen + {c};
        uniq := uniq + [c];
      }
      i := i + 1;
    }
    assert candidates[..i] == candidates;
  }

  /** Removing a pattern that occurs makes a string shorter. */
  lemma {:induction false} RemoveAllShrinks(s: string, pat: string)
    requires |pat| > 0
    ensures |ReplaceAll(s, pat, "")| <= |s|
    ensures HasSubstring(s, pat) ==> |ReplaceAll(s, pat, "")| < |s|
    decreases |s|
  {
    if |s| < |pat| {
    } else if s[..|pat|] == pat {
      RemoveAllShrinks(s[|pat|..], pat);
      assert ReplaceAll(s, pat, "") == "" + ReplaceAll(s[|pat|..], pat, "");
    } else {
      RemoveAllShrinks(s[1..], pat);
      if HasSubstring(s, pat) {
        var i :| 0 <= i <= |s| && OccursAt(s, pat, i);
        assert i != 0;
        assert s[1..][i - 1..i - 1 + |pat|] == s[i..i + |pat|];
        assert OccursAt(s[1..], pat, i - 1);
      }
    }
  }

  /** A model whose stem contains "_best" gets three distinct candidates;
      any other model gets two, its own file and the shared one. */
  lemma CandidateCount(stem: string)
    ensures HasSubstring(stem, BestSuffix) ==> Dedup(CandidateNames(stem)) == CandidateNames(stem)
    ensures !HasSubstring(stem, BestSuffix) ==>
      Dedup(CandidateNames(stem)) == [stem + ThresholdSuffix, SharedThresholdFile]
  {
    var a, b, c := stem + ThresholdSuffix, ReplaceAll(stem, BestSuffix, "") + ThresholdSuffix, SharedThresholdFile;
    assert |ThresholdSuffix| == 15 && |SharedThresholdFile| == 14;
    assert Dedup([a]) == [a] by {
      assert [a][..0] == [];
    }
    assert [a, b][..1] == [a] && [a, b, c][..2] == [a, b];
    assert c != a && c != b;
    if HasSubstring(stem, BestSuffix) {
      RemoveAllShrinks(stem, BestSuffix);
      assert |b| < |a|;
      assert Dedup([a, b]) == [a, b];
    } else {
      assert b == a;
      assert Dedup([a, b]) == [a];
    }
  }

  /** `auto_load_model_threshold`: the threshold of the first candidate that
      exists and holds one.  `files` maps the existing file names to their
      parsed contents (None when unreadable). */
  method AutoLoadThreshold(candidates: seq<string>, files: map<string, Option<Json>>) returns (r: Option<real>)
    ensures r.Some? ==> exists i :: (0 <= i < |candidates| && candidates[i] in files
      && LoadThreshold(files[candidates[i]]) == r
      && forall j :: 0 <= j < i ==> candidates[j] !in files || LoadThreshold(files[candidates[j]]).None?)
    ensures r.None? ==>
      forall j :: 0 <= j < |candidates| ==> candidates[j] !in files || LoadThreshold(files[candidates[j]]).None?
  {
    var i := 0;
    while i < |candidates|
      invariant 0 <= i <= |candidates|
      invariant forall j :: 0 <= j < i ==> candidates[j] !in files || LoadThreshold(files[candidates[j]]).None?
    {
      var cand := candidates[i];
      if cand in files {
        var thr := LoadThreshold(files[cand]);
        if thr.Some? {
          return thr;
        }
      }
      i := i + 1;
    }
    return None;
  }

  /** The ensemble's per-model threshold: the loaded one, else 0.25. */
  function EnsembleModelThreshold(loaded: Option<real>): (t: real)
    ensures loaded.Some? ==> t == loaded.value
    ensures loaded.None? ==> t == 0.25
  {
    if loaded.Some? then loaded.value else 0.25
  }

  /** The single model's threshold: the caller's, else the loaded one,
      else 0.5. */
  function SingleModelThreshold(given: Option<real>, loaded: Option<real>): (t: real)
    ensures given.Some? ==> t == given.value
    ensures given.None? && loaded.Some? ==> t == loaded.value
    ensures given.None? && loaded.None? ==> t == 0.5
  {
    if given.Some? then given.value else if loaded.Some? then loaded.value else 0.5
  }

  // ---------------------------------------------------------------------
  // The ensemble vote
  // ---------------------------------------------------------------------

  /** One model's probability for an image, under the model's name. */
  datatype ModelOutput = ModelOutput(name: string, prob: real)

  /** One model's decision (1 or 0) and how sure it is. */
  datatype Ballot = Ballot(decision: real, conf: real)

  /** The override when given, else the model's stored threshold, else 0.25. */
  function ThresholdFor(name: string, thresholds: map<string, real>, override: Option<real>): real
  {
    if override.Some? then override.value else if name in thresholds then thresholds[name] else 0.25
  }

  /** A model votes 1 at or above its threshold; its confidence is twice
      its distance from the threshold, capped at 1. */
  function BallotOf(o: ModelOutput, thresholds: map<string, real>, override: Option<real>): (b: Ballot)
    ensures b.decision == 1.0 <==> o.prob >= ThresholdFor(o.name, thresholds, override)
    ensures b.decision == 0.0 || b.decision == 1.0
    ensures 0.0 <= b.conf <= 1.0
  {
    var thr := ThresholdFor(o.name, thresholds, override);
    Ballot(if o.prob >= thr then 1.0 else 0.0, Clamp(2.0 * Abs(o.prob - thr), 0.0, 1.0))
  }

  function Ballots(outs: seq<ModelOutput>, thresholds: map<string, real>, override: Option<real>): (bs: seq<Ballot>)
    ensures |bs| == |outs|
    ensures forall i :: 0 <= i < |outs| ==> bs[i] == BallotOf(outs[i], thresholds, override)
  {
    seq(|outs|, i requires 0 <= i < |outs| => BallotOf(outs[i], thresholds, override))
  }

  /** The confidences of the ballots at least as sure as `minConf`. */
  function WeightSum(bs: seq<Ballot>, minConf: real): real
  {
    if bs == [] then 0.0
    else WeightSum(bs[..|bs| - 1], minConf) + (if bs[|bs| - 1].conf >= minConf then bs[|bs| - 1].conf else 0.0)
  }

  /** The same sum with each confidence multiplied by its decision. */
  function WeightedSum(bs: seq<Ballot>, minConf: real): real
  {
    if bs == [] then 0.0
    else
      var b := bs[|bs| - 1];
      WeightedSum(bs[..|bs| - 1], minConf) + (if b.conf >= minConf then b.decision * b.conf else 0.0)
  }

  function Decisions(bs: seq<Ballot>): (d: seq<real>)
    ensures |d| == |bs|
    ensures forall i :: 0 <= i < |bs| ==> d[i] == bs[i].decision
  {
    seq(|bs|, i requires 0 <= i < |bs| => bs[i].decision)
  }

  /** The vote before clipping: the confidence-weighted mean of the
      decisions of the sure enough models, else the plain mean of all
      decisions; None stands for the NaN that `np.mean` gives for no
      decisions at all. */
  function RawVote(bs: seq<Ballot>, minConf: real): Option<real>
  {
    if WeightSum(bs, minConf) > 0.0 then Some(WeightedSum(bs, minConf) / WeightSum(bs, minConf))
    else if bs != [] then Some(SeqMean(Decisions(bs)))
    else None
  }

  /** `max(0.0, min(1.0, vote))`; with a NaN vote Python's `min(1.0, nan)`
      keeps 1.0, since no comparison with NaN holds. */
  function ClipVote(raw: Option<real>): (v: real)
    ensures 0.0 <= v <= 1.0
    ensures raw.None? ==> v == 1.0
    ensures raw.Some? && 0.0 <= raw.value <= 1.0 ==> v == raw.value
  {
    if raw.None? then 1.0 else Clamp(raw.value, 0.0, 1.0)
  }

  /** The ensemble's confidence: twice the vote's distance from 1/2. */
  function VoteConfidence(vote: real): (c: real)
    requires 0.0 <= vote <= 1.0
    ensures 0.0 <= c <= 1.0
    ensures c == 2.0 * Abs(vote - 0.5)
  {
    Clamp(2.0 * Abs(vote - 0.5), 0.0, 1.0)
  }

  /** The sums over the first i + 1 ballots extend those over the first i. */
  lemma TallyStep(bs: seq<Ballot>, i: nat, minConf: real)
    requires i < |bs|
    ensures WeightSum(bs[..i + 1], minConf)
      == WeightSum(bs[..i], minConf) + (if bs[i].conf >= minConf then bs[i].conf else 0.0)
    ensures WeightedSum(bs[..i + 1], minConf)
      == WeightedSum(bs[..i], minConf) + (if bs[i].conf >= minConf then bs[i].decision * bs[i].conf else 0.0)
    ensures Decisions(bs[..i + 1]) == Decisions(bs[..i]) + [bs[i].decision]
  {
    assert bs[..i + 1][..i] == bs[..i];
  }

  /** `calculate_ensemble_vote` over the models in their order. */
  method CalculateEnsembleVote(outs: seq<ModelOutput>, thresholds: map<string, real>, override: Option<real>,
                               minConf: real)
    returns (vote: real, confidence: real)
    ensures vote == ClipVote(RawVote(Ballots(outs, thresholds, override), minConf))
    ensures confidence == VoteConfidence(vote)
  {
    var weightedSum, weightSum, unweightedVotes := TallyBallots(outs, thresholds, override, minConf);
    var raw: Option<real>;
    if weightSum > 0.0 {
      raw := Some(weightedSum / weightSum);
    } else if unweightedVotes != [] {
      raw := Some(SeqMean(unweightedVotes));
    } else {
      raw := None;
    }
    vote := ClipVote(raw);
    confidence := Clamp(2.0 * Abs(vote - 0.5), 0.0, 1.0);
  }

  /** The loop of `calculate_ensemble_vote`: each model's ballot is added
      to the weighted sums when it is sure enough, and its decision to the
      unweighted votes in any case. */
  method TallyBallots(outs: seq<ModelOutput>, thresholds: map<string, real>, override: Option<real>, minConf: real)
    returns (weightedSum: real, weightSum: real, unweightedVotes: seq<real>)
    ensures weightedSum == WeightedSum(Ballots(outs, thresholds, override), minConf)
    ensures weightSum == WeightSum(Ballots(outs, thresholds, override), minConf)
    ensures unweightedVotes == Decisions(Ballots(outs, thresholds, override))
  {
    ghost var bs := Ballots(outs, thresholds, override);
    weightedSum, weightSum, unweightedVotes := 0.0, 0.0, [];
    var i := 0;
    while i < |outs|
      invariant 0 <= i <= |outs|
      invariant weightedSum == WeightedSum(bs[..i], minConf)
      invariant weightSum == WeightSum(bs[..i], minConf)
      invariant unweightedVotes == Decisions(bs[..i])
    {
      var ballot := BallotOf(outs[i], thresholds, override);
      assert ballot == bs[i];
      TallyStep(bs, i, minConf);
      if ballot.conf >= minConf {
        weightedSum := weightedSum + ballot.decision * ballot.conf;
        weightSum := weightSum + ballot.conf;
      }
      unweightedVotes := unweightedVotes + [ballot.decision];
      i := i + 1;
    }
    assert bs[..i] == bs;
  }


  predicate Unanimous(bs: seq<Ballot>, d: real)
  {
    forall i :: 0 <= i < |bs| ==> bs[i].decision == d
  }

  predicate ValidBallots(bs: seq<Ballot>)
  {
    forall i :: 0 <= i < |bs| ==> (bs[i].decision == 0.0 || bs[i].decision == 1.0) && 0.0 <= bs[i].conf
  }

  /** The weighted sum of decisions lies between 0 and the sum of weights,
      and equals one end when all models agree. */
  lemma {:induction false} WeightedSumBetween(bs: seq<Ballot>, minConf: real)
    requires ValidBallots(bs)
    ensures 0.0 <= WeightedSum(bs, minConf) <= WeightSum(bs, minConf)
    ensures Unanimous(bs, 1.0) ==> WeightedSum(bs, minConf) == WeightSum(bs, minConf)
    ensures Unanimous(bs, 0.0) ==> WeightedSum(bs, minConf) == 0.0
  {
    if bs != [] {
      WeightedSumBetween(bs[..|bs| - 1], minConf);
    }
  }

  /** The decisions add up to between 0 and their number, and to one end
      when all models agree. */
  lemma {:induction false} DecisionTotalBetween(d: seq<real>)
    requires forall i :: 0 <= i < |d| ==> d[i] == 0.0 || d[i] == 1.0
    ensures 0.0 <= SeqTotal(d) <= |d| as real
    ensures (forall i :: 0 <= i < |d| ==> d[i] == 1.0) ==> SeqTotal(d) == |d| as real
    ensures (forall i :: 0 <= i < |d| ==> d[i] == 0.0) ==> SeqTotal(d) == 0.0
  {
    if d != [] {
      DecisionTotalBetween(d[..|d| - 1]);
    }
  }

  lemma RatioOf(a: real, b: real, d: real)
    requires b > 0.0 && a == d * b
    ensures a / b == d
  {
  }

  /** For at least one model the raw vote already lies in [0, 1], so the
      clipping changes nothing. */
  lemma RawVoteInUnitRange(bs: seq<Ballot>, minConf: real)
    requires ValidBallots(bs) && bs != []
    ensures RawVote(bs, minConf).Some?
    ensures 0.0 <= RawVote(bs, minConf).value <= 1.0
    ensures ClipVote(RawVote(bs, minConf)) == RawVote(bs, minConf).value
  {
    WeightedSumBetween(bs, minConf);
    if WeightSum(bs, minConf) > 0.0 {
      QuotientInUnitRange(WeightedSum(bs, minConf), WeightSum(bs, minConf));
    } else {
      var d := Decisions(bs);
      DecisionTotalBetween(d);
      QuotientInUnitRange(SeqTotal(d), |d| as real);
    }
  }

  /** Models that all vote the same way give exactly that vote, whether or
      not any of them is sure enough to be weighted, and full confidence. */
  lemma UnanimousVote(bs: seq<Ballot>, minConf: real, d: real)
    requires ValidBallots(bs) && bs != [] && Unanimous(bs, d) && (d == 0.0 || d == 1.0)
    ensures ClipVote(RawVote(bs, minConf)) == d
    ensures VoteConfidence(d) == 1.0
  {
    WeightedSumBetween(bs, minConf);
    if WeightSum(bs, minConf) > 0.0 {
      RatioOf(WeightedSum(bs, minConf), WeightSum(bs, minConf), d);
    } else {
      var dec := Decisions(bs);
      DecisionTotalBetween(dec);
      RatioOf(SeqTotal(dec), |dec| as real, d);
    }
  }

  /** With no model at all `np.mean` gives NaN, which the clipping turns
      into a vote of 1 with full confidence. */
  lemma EmptyVote(minConf: real)
    ensures ClipVote(RawVote([], minConf)) == 1.0
    ensures VoteConfidence(ClipVote(RawVote([], minConf))) == 1.0
  {
  }

  /** Every ballot a model casts is well formed. */
  lemma BallotsValid(outs: seq<ModelOutput>, thresholds: map<string, real>, override: Option<real>)
    ensures ValidBallots(Ballots(outs, thresholds, override))
  {
  }

  // ---------------------------------------------------------------------
  // Test-time augmentation
  // ---------------------------------------------------------------------

  /** The augmentations: plain resize and pad, a horizontal flip, a random
      crop from a 10% larger image, and a fixed rotation. */
  datatype TtaTransform = Centered | HorizontalFlip | RandomCrop | Rotation(degrees: int)

  /** Every augmentation in the order they are added. */
  const FullTta: seq<TtaTransform> := [Centered, HorizontalFlip, RandomCrop, RandomCrop, RandomCrop, Rotation(5), Rotation(-5)]

  /** Python's `xs[:n]`, where a negative n counts from the end. */
  function PyPrefix<T>(xs: seq<T>, n: int): (r: seq<T>)
    ensures |r| <= |xs|
  {
    if n >= 0 then xs[..MinNat(n, |xs|)]
    else if |xs| + n >= 0 then xs[..|xs| + n]
    else []
  }

  /** `make_tta_transforms`: the first two always, up to three crops while
      fewer than `numAugments`, then the two rotations while fewer, cut to
      `numAugments`. */
  method MakeTtaTransforms(numAugments: int) returns (ts: seq<TtaTransform>)
    ensures ts == PyPrefix(FullTta[..if numAugments <= 2 then 2 else MinNat(numAugments, 7)], numAugments)
  {
    var transforms := [Centered, HorizontalFlip];
    var crops := if numAugments - |transforms| < 3 then numAugments - |transforms| else 3;
    var k := 0;
    while k < crops
      invariant 0 <= k <= 3 && (k == 0 || k <= crops)
      invariant transforms == FullTta[..2 + k]
    {
      transforms := transforms + [RandomCrop];
      k := k + 1;
    }
    assert |transforms| == (if numAugments <= 2 then 2 else MinNat(numAugments, 5));
    var angles := [5, -5];
    var j := 0;
    while j < |angles|
      invariant 0 <= j <= |angles|
      invariant transforms == FullTta[..if numAugments <= 2 then 2 else MinNat(numAugments, 5 + j)]
    {
      if |transforms| < numAugments {
        transforms := transforms + [Rotation(angles[j])];
      }
      j := j + 1;
    }
    ts := PyPrefix(transforms, numAugments);
  }

  /** For a non-negative count there are min(n, 7) augmentations, taken from
      the front of the full list, the first being the plain one. */
  lemma TtaCount(numAugments: int)
    ensures var ts := PyPrefix(FullTta[..if numAugments <= 2 then 2 else MinNat(numAugments, 7)], numAugments);
      && (numAugments >= 0 ==> ts == FullTta[..MinNat(numAugments, 7)])
      && (numAugments > 0 ==> ts[0] == Centered)
      && (numAugments < 0 ==> |ts| == if numAugments == -1 then 1 else 0)
  {
  }

  // ---------------------------------------------------------------------
  // The dataset
  // ---------------------------------------------------------------------

  /** The image and the augmentation a dataset index stands for; None is
      the plain validation transform used without TTA. */
  datatype Item = Item(image: nat, transform: Option<nat>)

  /** `ImageDataset.__len__`: an empty augmentation list counts as none. */
  function DatasetLen(images: nat, transforms: nat): (len: nat)
    ensures transforms == 0 ==> len == images
    ensures transforms > 0 ==> len == images * transforms
  {
    if transforms > 0 then images * transforms else images
  }

  /** The index arithmetic of `ImageDataset.__getitem__`. */
  function ItemAt(idx: nat, transforms: nat): (it: Item)
  {
    if transforms > 0 then Item(idx / transforms, Some(idx % transforms)) else Item(idx, None)
  }

  /** With n augmentations every dataset index names an existing image and
      augmentation, image-major: index idx lies in row `image` of a table
      with n columns. */
  lemma DatasetIndexToItem(images: nat, n: nat, idx: nat)
    requires n > 0 && idx < DatasetLen(images, n)
    ensures ItemAt(idx, n).image < images
    ensures ItemAt(idx, n).transform.Some? && ItemAt(idx, n).transform.value < n
    ensures ItemAt(idx, n).image * n + ItemAt(idx, n).transform.value == idx
  {
    RowFits(images, idx / n, n);
    assert idx >= idx / n * n;
  }

  /** Conversely every pair of an image and an augmentation has its index,
      so the indices and the pairs correspond one to one. */
  lemma DatasetItemToIndex(images: nat, n: nat, p: nat, t: nat)
    requires p < images && t < n
    ensures p * n + t < DatasetLen(images, n)
    ensures ItemAt(p * n + t, n) == Item(p, Some(t))
  {
    RowFits(p, images, n);
    DivUnique(p * n + t, n, p, t);
  }

  /** Without TTA every index is its own image. */
  lemma DatasetWithoutTta(images: nat, idx: nat)
    requires idx < DatasetLen(images, 0)
    ensures ItemAt(idx, 0) == Item(idx, None)
  {
  }

  // ---------------------------------------------------------------------
  // Averaging the augmented outputs
  // ---------------------------------------------------------------------

  /** `np.array(probs).reshape(images, n).mean(axis=1)`: the mean of each
      run of n consecutive outputs, one run per image. */
  function TtaMeans(probs: seq<real>, n: nat, images: nat): (means: seq<real>)
    requires n > 0 && |probs| == images * n
    ensures |means| == images
    decreases images
  {
    if images == 0 then []
    else
      assert |probs| == (images - 1) * n + n;
      [SeqMean(probs[..n])] + TtaMeans(probs[n..], n, images - 1)
  }

  /** Entry i of the means is the mean of row i, which by
      `DatasetIndexToItem` holds exactly the outputs of image i. */
  lemma {:induction false} TtaMeansRow(probs: seq<real>, n: nat, images: nat, i: nat)
    requires n > 0 && |probs| == images * n && i < images
    ensures i * n + n <= |probs|
    ensures TtaMeans(probs, n, images)[i] == SeqMean(probs[i * n..i * n + n])
    decreases images
  {
    RowFits(i, images, n);
    if i > 0 {
      NextRow(images - 1, n);
      NextRow(i - 1, n);
      var lo, lo' := i * n, (i - 1) * n;
      var rest := probs[n..];
      TtaMeansRow(rest, n, images - 1, i - 1);
      assert rest[lo'..lo' + n] == probs[lo..lo + n];
    }
  }

  /** Means over two image-aligned runs of outputs concatenate. */
  lemma {:induction false} TtaMeansConcat(xs: seq<real>, ys: seq<real>, n: nat, a: nat, b: nat)
    requires n > 0 && |xs| == a * n && |ys| == b * n
    ensures |xs + ys| == (a + b) * n
    ensures TtaMeans(xs + ys, n, a + b) == TtaMeans(xs, n, a) + TtaMeans(ys, n, b)
    decreases a
  {
    assert (a + b) * n == a * n + b * n;
    if a > 0 {
      assert |xs| == (a - 1) * n + n;
      TtaMeansConcat(xs[n..], ys, n, a - 1, b);
      assert (xs + ys)[..n] == xs[..n];
      assert (xs + ys)[n..] == xs[n..] + ys;
    } else {
      assert xs + ys == ys;
    }
  }

  /** One more full row of outputs adds its mean at the end. */
  lemma TtaMeansSnoc(xs: seq<real>, n: nat, k: nat, lo: nat)
    requires n > 0 && lo == k * n && lo + n <= |xs|
    ensures |xs[..lo + n]| == (k + 1) * n
    ensures TtaMeans(xs[..lo + n], n, k + 1) == TtaMeans(xs[..lo], n, k) + [SeqMean(xs[lo..lo + n])]
  {
    NextRow(k, n);
    var row := xs[lo..lo + n];
    assert TtaMeans(row, n, 1) == [SeqMean(row)] by {
      assert row[..n] == row && row[n..] == [];
    }
    TtaMeansConcat(xs[..lo], row, n, k, 1);
    assert xs[..lo] + row == xs[..lo + n];
  }

  /** The images the real-time loop reports for one batch: `len(batch) // n`
      groups of n consecutive outputs from the batch start; a partial group
      at the batch end is dropped. */
  function BatchGroups(batch: seq<real>, n: nat): (means: seq<real>)
    requires n > 0
    ensures |means| == |batch| / n
  {
    var g := |batch| / n;
    TtaMeans(batch[..g * n], n, g)
  }

  /** What the real-time TTA path reports, batch by batch, for the dataset
      outputs `probs` in batches of `batchSize`. */
  function RealtimeGroups(probs: seq<real>, n: nat, batchSize: nat): seq<real>
    requires n > 0 && batchSize > 0
    decreases |probs|
  {
    if probs == [] then []
    else
      var m := MinNat(batchSize, |probs|);
      BatchGroups(probs[..m], n) + RealtimeGroups(probs[m..], n, batchSize)
  }

  /** The real-time groups from output b on are the next batch's groups
      followed by those of the rest. */
  lemma RealtimeUnfold(probs: seq<real>, n: nat, batchSize: nat, b: nat)
    requires n > 0 && batchSize > 0 && b < |probs|
    ensures var m := MinNat(batchSize, |probs| - b);
      RealtimeGroups(probs[b..], n, batchSize)
      == BatchGroups(probs[b..b + m], n) + RealtimeGroups(probs[b + m..], n, batchSize)
  {
    var m := MinNat(batchSize, |probs| - b);
    assert probs[b..][..m] == probs[b..b + m] && probs[b..][m..] == probs[b + m..];
  }

  /** The TTA branch of `predict_realtime` as written: each batch is cut
      into groups of n from its own start. */
  method RealtimeTtaAsWritten(probs: seq<real>, n: nat, batchSize: nat, images: nat) returns (reported: seq<real>)
    requires n > 0 && batchSize > 0 && |probs| == images * n
    ensures reported == RealtimeGroups(probs, n, batchSize)
  {
    reported := [];
    var b := 0;
    while b < |probs|
      invariant 0 <= b <= |probs|
      invariant reported + RealtimeGroups(probs[b..], n, batchSize) == RealtimeGroups(probs, n, batchSize)
      invariant |reported| * n <= b
      decreases |probs| - b
    {
      reported, b := NextBatch(probs, n, batchSize, images, b, reported);
    }
    assert probs[b..] == [];
  }

  /** The TTA branch of `predict_realtime` for any number n of augmentations:
      with none, the dataset holds one output per image and the first
      batch's `len(probs) // n` raises ZeroDivisionError (None here); with
      no images at all no batch is divided and nothing is reported. */
  method RealtimeTtaOrError(probs: seq<real>, n: nat, batchSize: nat, images: nat)
    returns (reported: Option<seq<real>>)
    requires batchSize > 0 && |probs| == DatasetLen(images, n)
    ensures reported.None? <==> n == 0 && images > 0
    ensures n > 0 ==> reported == Some(RealtimeGroups(probs, n, batchSize))
    ensures n == 0 && images == 0 ==> reported == Some([])
  {
    if n == 0 {
      if |probs| > 0 {
        return None;
      }
      return Some([]);
    }
    var r := RealtimeTtaAsWritten(probs, n, batchSize, images);
    return Some(r);
  }

  /** One pass of the batch loop: the next batch is taken from output b
      on and its groups are reported. */
  method NextBatch(probs: seq<real>, n: nat, batchSize: nat, images: nat, b: nat, reported0: seq<real>)
    returns (reported: seq<real>, b': nat)
    requires n > 0 && batchSize > 0 && |probs| == images * n
    requires b < |probs| && |reported0| * n <= b
    ensures b < b' <= |probs| && |reported| * n <= b'
    ensures reported + RealtimeGroups(probs[b'..], n, batchSize) == reported0 + RealtimeGroups(probs[b..], n, batchSize)
  {
    var m := MinNat(batchSize, |probs| - b);
    var batch := probs[b..b + m];
    RealtimeUnfold(probs, n, batchSize, b);
    CountFits(|reported0|, m, b, n, images);
    reported := ReportBatch(batch, n, images, reported0);
    assert |reported| == |reported0| + m / n;
    b' := b + m;
  }

  /** One batch of the real-time TTA loop: each of its `len(batch) // n`
      groups is reported as the next image while fewer than `images` have
      been reported, which, when the batch's groups fit in the dataset, is
      always the case. */
  method ReportBatch(batch: seq<real>, n: nat, images: nat, reported0: seq<real>) returns (reported: seq<real>)
    requires n > 0 && |reported0| + |batch| / n <= images
    ensures reported == reported0 + BatchGroups(batch, n)
  {
    reported := reported0;
    var batchImages := |batch| / n;
    var i := 0;
    var lo := 0;
    while i < batchImages
      invariant 0 <= i <= batchImages
      invariant lo == i * n && lo <= |batch|
      invariant |reported| == |reported0| + i
      invariant reported == reported0 + TtaMeans(batch[..lo], n, i)
    {
      GroupFits(i, |batch|, n);
      if |reported| < images {
        var imageProbs := batch[lo..lo + n];
        TtaMeansSnoc(batch, n, i, lo);
        reported := reported + [SeqMean(imageProbs)];
      }
      NextRow(i, n);
      i := i + 1;
      lo := lo + n;
    }
  }

  /** The per-image means the TTA path intends, reported as soon as an
      image's outputs are complete: outputs left over at a batch end are
      carried into the next batch. */
  method RealtimeTta(probs: seq<real>, n: nat, batchSize: nat, images: nat) returns (reported: seq<real>)
    requires n > 0 && batchSize > 0 && |probs| == images * n
    ensures reported == TtaMeans(probs, n, images)
  {
    reported := [];
    var pending: seq<real> := [];
    var b := 0;
    while b < |probs|
      invariant 0 <= b <= |probs|
      invariant |pending| < n
      invariant |reported| * n + |pending| == b
      invariant reported == TtaMeans(probs[..|reported| * n], n, |reported|)
      invariant pending == probs[|reported| * n..b]
    {
      var m := MinNat(batchSize, |probs| - b);
      pending := pending + probs[b..b + m];
      b := b + m;
      reported, pending := ReportComplete(probs, n, b, reported, pending);
    }
    DivUnique(|probs|, n, images, 0);
    DivUnique(|probs|, n, |reported|, |pending|);
    assert probs[..|reported| * n] == probs;
  }

  /** The inner loop of the intended TTA path: every image whose n outputs
      are all pending is reported, and fewer than n outputs stay pending. */
  method ReportComplete(probs: seq<real>, n: nat, b: nat, reported0: seq<real>, pending0: seq<real>)
    returns (reported: seq<real>, pending: seq<real>)
    requires n > 0 && b <= |probs|
    requires |reported0| * n + |pending0| == b
    requires reported0 == TtaMeans(probs[..|reported0| * n], n, |reported0|)
    requires pending0 == probs[|reported0| * n..b]
    ensures |pending| < n
    ensures |reported| * n + |pending| == b
    ensures reported == TtaMeans(probs[..|reported| * n], n, |reported|)
    ensures pending == probs[|reported| * n..b]
  {
    reported, pending := reported0, pending0;
    while |pending| >= n
      invariant |reported| * n + |pending| == b
      invariant reported == TtaMeans(probs[..|reported| * n], n, |reported|)
      invariant pending == probs[|reported| * n..b]
      decreases |pending|
    {
      var k := |reported|;
      TtaMeansSnoc(probs, n, k, k * n);
      assert pending[..n] == probs[k * n..k * n + n];
      reported := reported + [SeqMean(pending[..n])];
      pending := pending[n..];
    }
  }

  /** A batch whose size is a multiple of n, cut from a whole number of
      images, holds whole images and leaves whole images. */
  lemma AlignedBatchSize(batchSize: nat, len: nat, n: nat, images: nat)
    requires n > 0 && batchSize % n == 0 && len == images * n
    ensures var m := MinNat(batchSize, len);
      m == m / n * n && m / n <= images && len - m == (images - m / n) * n
  {
    var m := MinNat(batchSize, len);
    if m == batchSize {
      DivUnique(batchSize, n, batchSize / n, 0);
    } else {
      DivUnique(len, n, images, 0);
    }
    RowFits(images, m / n, n);
    assert (images - m / n) * n == images * n - m / n * n;
  }

  /** When the batch size is a multiple of the augmentation count, every
      batch holds whole images and the real-time path reports the intended
      means. */
  lemma {:induction false} AlignedBatchesAgree(probs: seq<real>, n: nat, batchSize: nat, images: nat)
    requires n > 0 && batchSize > 0 && batchSize % n == 0 && |probs| == images * n
    ensures RealtimeGroups(probs, n, batchSize) == TtaMeans(probs, n, images)
    decreases |probs|
  {
    if probs != [] {
      var m := MinNat(batchSize, |probs|);
      AlignedBatchSize(batchSize, |probs|, n, images);
      var a := m / n;
      var rest := probs[m..];
      RealtimeUnfold(probs, n, batchSize, 0);
      assert probs[0..] == probs && probs[0..m] == probs[..m] && probs[0 + m..] == rest;
      AlignedBatchesAgree(rest, n, batchSize, images - a);
      assert probs[..m][..a * n] == probs[..m];
      TtaMeansConcat(probs[..m], rest, n, a, images - a);
      assert probs[..m] + rest == probs;
    }
  }

  /** Three images of two augmentations in batches of three: the second
      batch starts inside image 1, so image 1 is reported with the mean of
      its second output and image 2's first, and image 2 is never reported. */
  lemma RealtimeMisaligned()
    ensures RealtimeGroups([0.0, 0.0, 1.0, 1.0, 0.0, 0.0], 2, 3) == [0.0, 0.5]
    ensures TtaMeans([0.0, 0.0, 1.0, 1.0, 0.0, 0.0], 2, 3) == [0.0, 1.0, 0.0]
  {
    MisalignedAsWritten();
    MisalignedIntended();
  }

  lemma PairMean(x: real, y: real)
    ensures SeqMean([x, y]) == (x + y) / 2.0
  {
    assert [x, y][..1] == [x];
    assert [x][..0] == [];
    assert SeqTotal([x]) == x;
    assert SeqTotal([x, y]) == x + y;
  }

  /** A single row of two outputs has its mean as the only entry. */
  lemma SingleRowMeans(row: seq<real>)
    requires |row| == 2
    ensures TtaMeans(row, 2, 1) == [SeqMean(row)]
  {
    assert row[..2] == row && row[2..] == [];
  }

  lemma MisalignedAsWritten()
    ensures RealtimeGroups([0.0, 0.0, 1.0, 1.0, 0.0, 0.0], 2, 3) == [0.0, 0.5]
  {
    var probs := [0.0, 0.0, 1.0, 1.0, 0.0, 0.0];
    var first, second := [0.0, 0.0, 1.0], [1.0, 0.0, 0.0];
    assert BatchGroups(first, 2) == [0.0] by {
      assert first[..2] == [0.0, 0.0];
      SingleRowMeans([0.0, 0.0]);
      PairMean(0.0, 0.0);
    }
    assert BatchGroups(second, 2) == [0.5] by {
      assert second[..2] == [1.0, 0.0];
      SingleRowMeans([1.0, 0.0]);
      PairMean(1.0, 0.0);
    }
    assert RealtimeGroups(second, 2, 3) == [0.5] by {
      assert second[..3] == second && second[3..] == [];
    }
    assert probs[..3] == first && probs[3..] == second;
  }

  lemma MisalignedIntended()
    ensures TtaMeans([0.0, 0.0, 1.0, 1.0, 0.0, 0.0], 2, 3) == [0.0, 1.0, 0.0]
  {
    var probs := [0.0, 0.0, 1.0, 1.0, 0.0, 0.0];
    var tail := probs[2..];
    var last := tail[2..];
    assert probs[..2] == [0.0, 0.0] && tail == [1.0, 1.0, 0.0, 0.0];
    assert tail[..2] == [1.0, 1.0] && last == [0.0, 0.0];
    PairMean(0.0, 0.0);
    PairMean(1.0, 1.0);
    assert TtaMeans(last, 2, 1) == [0.0] by {
      SingleRowMeans(last);
    }
  }
}
