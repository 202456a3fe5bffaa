/**
 * The analysis stage registry and the order in which the pipeline runs it.
 *
 * The pipeline owns a fixed list of twelve stages, each with a name, a
 * priority (lower runs first), a fast-track flag (stages run before the
 * early-exit test) and a timeout.  Before every run the list is copied and
 * bubble-sorted by priority; the sort swaps only on a strict `>`, so stages
 * of equal priority keep their declaration order.
 */
module Stages {

  datatype Stage = Stage(name: string, priority: int, fastTrack: bool, timeoutSeconds: nat)

  const FastTrackNames: set<string> := {MetadataQuickStage, C2PAStage, ExifStage}

  function Names(stages: seq<Stage>): (r: seq<string>)
    ensures |r| == |stages|
    ensures forall i :: 0 <= i < |stages| ==> r[i] == stages[i].name
  {
    if stages == [] then [] else [stages[0].name] + Names(stages[1..])
  }

  predicate DistinctNames(stages: seq<Stage>)
  {
    forall i, j :: 0 <= i < j < |stages| ==> stages[i].name != stages[j].name
  }

  /** The stage names, which are also the keys of the results map. */
  const MetadataQuickStage: string := "metadata-quick"
  const C2PAStage: string := "c2pa"
  const ExifStage: string := "exif"
  const MetadataStage: string := "metadata"
  const ArtifactsStage: string := "artifacts"
  const CompressionStage: string := "compression"
  const PixelAnalysisStage: string := "pixel-analysis"
  const ColorBalanceStage: string := "color-balance"
  const AdvancedArtifactsStage: string := "advanced-artifacts"
  const ObjectCoherenceStage: string := "object-coherence"
  const LightingAnalysisStage: string := "lighting-analysis"
  const AiModelStage: string := "ai-model"

  /** The registry, in declaration order. */
  function DefaultStages(): seq<Stage>
  {
    [ Stage(MetadataQuickStage, 1, true, 5),
      Stage(C2PAStage, 1, true, 8),
      Stage(ExifStage, 1, true, 2),
      Stage(MetadataStage, 2, false, 8),
      Stage(ArtifactsStage, 3, false, 15),
      Stage(CompressionStage, 3, false, 10),
      Stage(PixelAnalysisStage, 3, false, 18),
      Stage(ColorBalanceStage, 3, false, 12),
      Stage(AdvancedArtifactsStage, 3, false, 20),
      Stage(ObjectCoherenceStage, 4, false, 25),
      Stage(LightingAnalysisStage, 4, false, 20),
      Stage(AiModelStage, 2, false, 30) ]
  }

  // ---------------------------------------------------------------------
  // What a stable sort by priority means
  // ---------------------------------------------------------------------

  predicate SortedByPriority(s: seq<Stage>)
  {
    forall i, j :: 0 <= i < j < |s| ==> s[i].priority <= s[j].priority
  }

  /** `s` and `t` have the same priority classes. */
  ghost predicate SameClasses(s: seq<Stage>, t: seq<Stage>)
  {
    forall p :: ByPriority(s, p) == ByPriority(t, p)
  }

  /** The stages of priority `p`, in their order in `s`.  A sort is stable
      exactly when it keeps every one of these subsequences. */
  function ByPriority(s: seq<Stage>, p: int): (r: seq<Stage>)
    ensures |r| <= |s|
    ensures forall x :: x in r ==> x in s && x.priority == p
  {
    if s == [] then [] else (if s[0].priority == p then [s[0]] else []) + ByPriority(s[1..], p)
  }

  lemma {:induction false} ByPriorityConcat(a: seq<Stage>, b: seq<Stage>, p: int)
    ensures ByPriority(a + b, p) == ByPriority(a, p) + ByPriority(b, p)
    decreases |a|
  {
    if a == [] {
      assert a + b == b;
    } else {
      assert (a + b)[1..] == a[1..] + b;
      ByPriorityConcat(a[1..], b, p);
    }
  }

  /** A non-empty sequence has a non-empty class for the priority of its head. */
  lemma HeadClass(s: seq<Stage>)
    ensures s != [] ==> ByPriority(s, s[0].priority) == [s[0]] + ByPriority(s[1..], s[0].priority)
  {
  }

  lemma {:induction false} ClassEmpty(s: seq<Stage>, p: int)
    requires forall x :: x in s ==> x.priority != p
    ensures ByPriority(s, p) == []
    decreases |s|
  {
    if s != [] {
      assert s[0] in s;
      assert forall x :: x in s[1..] ==> x in s;
      ClassEmpty(s[1..], p);
    }
  }

  /** Swapping two adjacent blocks that share no priority keeps every priority class. */
  lemma SwapBlocksKeepsClass(b: seq<Stage>, c: seq<Stage>, p: int)
    requires forall x, y :: x in b && y in c ==> x.priority != y.priority
    ensures ByPriority(b + c, p) == ByPriority(c + b, p)
  {
    ByPriorityConcat(b, c, p);
    ByPriorityConcat(c, b, p);
    if ByPriority(b, p) != [] {
      var x := ByPriority(b, p)[0];
      assert x in b && x.priority == p;
      ClassEmpty(c, p);
    }
  }

  /** Swapping two neighbours of different priority keeps every priority class in order. */
  lemma SwapKeepsClasses(s: seq<Stage>, j: int)
    requires 0 <= j < |s| - 1 && s[j].priority != s[j + 1].priority
    ensures SameClasses(s[j := s[j + 1]][j + 1 := s[j]], s)
  {
    var t := s[j := s[j + 1]][j + 1 := s[j]];
    var a, x, y, d := s[..j], [s[j]], [s[j + 1]], s[j + 2..];
    assert s == a + (x + y) + d;
    assert t == a + (y + x) + d;
    forall p ensures ByPriority(t, p) == ByPriority(s, p) {
      ByPriorityConcat(a + (x + y), d, p);
      ByPriorityConcat(a, x + y, p);
      ByPriorityConcat(a + (y + x), d, p);
      ByPriorityConcat(a, y + x, p);
      SwapBlocksKeepsClass(x, y, p);
    }
  }

  /** Sortedness and stability fix the result: two sorted sequences with the
      same priority classes are equal. */
  lemma {:induction false} StableOrderUnique(r1: seq<Stage>, r2: seq<Stage>)
    requires SortedByPriority(r1) && SortedByPriority(r2)
    requires SameClasses(r1, r2)
    ensures r1 == r2
    decreases |r1|
  {
    HeadClass(r1);
    HeadClass(r2);
    if r1 != [] && r2 != [] {
      var p1, p2 := r1[0].priority, r2[0].priority;
      var c1 := ByPriority(r2, p1);
      assert c1[0] in r2;
      var c2 := ByPriority(r1, p2);
      assert c2[0] in r1;
      assert p1 == p2;
      assert r1[0] == r2[0];
      forall p ensures ByPriority(r1[1..], p) == ByPriority(r2[1..], p) {
        if p == p1 {
          assert ByPriority(r1[1..], p) == ByPriority(r1, p)[1..];
          assert ByPriority(r2[1..], p) == ByPriority(r2, p)[1..];
        } else {
          assert ByPriority(r1, p) == ByPriority(r1[1..], p);
          assert ByPriority(r2, p) == ByPriority(r2[1..], p);
        }
      }
      StableOrderUnique(r1[1..], r2[1..]);
    }
  }

  /** Twelve stages with distinct names and priorities in 1..4. */
  lemma RegistryShape()
    ensures var r := DefaultStages();
      |r| == 12 && DistinctNames(r)
      && (forall i :: 0 <= i < |r| ==> 1 <= r[i].priority <= 4)
  {
  }

  /** Exactly the three metadata-level stages are fast-track, all at priority 1. */
  lemma RegistryFastTrack()
    ensures var r := DefaultStages();
      && (forall i :: 0 <= i < |r| ==> (r[i].fastTrack <==> r[i].name in FastTrackNames))
      && (forall i :: 0 <= i < |r| && r[i].fastTrack ==> r[i].priority == 1)
  {
  }

  /** The registry in the order the pipeline runs it. */
  function DefaultRunStages(): (r: seq<Stage>)
    ensures SortedByPriority(r)
  {
    var s := DefaultStages();
    [s[0], s[1], s[2], s[3], s[11], s[4], s[5], s[6], s[7], s[8], s[9], s[10]]
  }

  lemma DefaultRunStagesSplit()
    ensures var s := DefaultStages();
      s == s[..4] + (s[4..11] + [s[11]]) && DefaultRunStages() == s[..4] + ([s[11]] + s[4..11])
      && forall x, y :: x in s[4..11] && y in [s[11]] ==> x.priority != y.priority
  {
    var s := DefaultStages();
    assert forall x :: x in s[4..11] ==> x.priority >= 3;
  }

  lemma DefaultRunStagesClasses()
    ensures SameClasses(DefaultRunStages(), DefaultStages())
  {
    var s := DefaultStages();
    var a, b, c := s[..4], s[4..11], [s[11]];
    DefaultRunStagesSplit();
    forall p ensures ByPriority(a + (c + b), p) == ByPriority(a + (b + c), p) {
      ByPriorityConcat(a, b + c, p);
      ByPriorityConcat(a, c + b, p);
      SwapBlocksKeepsClass(b, c, p);
    }
  }

  /** The run order of the registry: the stable sort of the registry is unique,
      and in it ai-model, declared last, runs right after metadata. */
  lemma DefaultRunOrder(r: seq<Stage>)
    requires SortedByPriority(r) && SameClasses(r, DefaultStages())
    ensures r == DefaultRunStages()
    ensures r[3].name == "metadata" && r[4].name == "ai-model" && r[5].name == "artifacts"
  {
    DefaultRunStagesClasses();
    StableOrderUnique(r, DefaultRunStages());
  }

  // ---------------------------------------------------------------------
  // The sort itself
  // ---------------------------------------------------------------------

  predicate SortedFrom(s: seq<Stage>, m: int)
  {
    forall k, l :: 0 <= m <= k < l < |s| ==> s[k].priority <= s[l].priority
  }

  predicate Partitioned(s: seq<Stage>, m: int)
  {
    forall k, l :: 0 <= k < m <= l < |s| ==> s[k].priority <= s[l].priority
  }

  /** The state of an inner pass over `s[..m]` that has reached position j,
      starting from `s0`. */
  ghost predicate PassInv(s: seq<Stage>, s0: seq<Stage>, j: int, m: int)
  {
    0 <= j <= m - 1 && m <= |s|
    && (forall k :: 0 <= k < j ==> s[k].priority <= s[j].priority)
    && SortedFrom(s, m) && Partitioned(s, m)
    && multiset(s) == multiset(s0) && SameClasses(s, s0)
  }

  /** One compare-and-swap of the inner pass: it keeps the contents, the
      priority classes and the sorted suffix, and moves the largest priority
      seen so far to position j + 1. */
  lemma BubbleStep(s: seq<Stage>, s0: seq<Stage>, j: int, m: int)
    requires PassInv(s, s0, j, m) && j < m - 1
    ensures s[j].priority > s[j + 1].priority ==> PassInv(s[j := s[j + 1]][j + 1 := s[j]], s0, j + 1, m)
    ensures s[j].priority <= s[j + 1].priority ==> PassInv(s, s0, j + 1, m)
  {
    if s[j].priority > s[j + 1].priority {
      var t := s[j := s[j + 1]][j + 1 := s[j]];
      SwapKeepsClasses(s, j);
      ClassesTransitive(t, s, s0);
    }
  }

  lemma ClassesTransitive(s: seq<Stage>, t: seq<Stage>, u: seq<Stage>)
    requires SameClasses(s, t) && SameClasses(t, u)
    ensures SameClasses(s, u)
  {
  }

  /** The end of an inner pass over `s[..m]`: its largest priority sits at m - 1. */
  lemma PassDone(s: seq<Stage>, m: int)
    requires 1 <= m <= |s|
    requires forall k :: 0 <= k < m - 1 ==> s[k].priority <= s[m - 1].priority
    requires SortedFrom(s, m) && Partitioned(s, m)
    ensures SortedFrom(s, m - 1) && Partitioned(s, m - 1)
  {
  }

  lemma AllSorted(s: seq<Stage>, m: int)
    requires 0 <= m <= 1
    requires SortedFrom(s, m) && Partitioned(s, m)
    ensures SortedByPriority(s)
  {
  }

  /** One inner pass of the bubble sort over the unsorted prefix `a[..m]`:
      it carries the largest priority of the prefix to position m - 1. */
  method BubblePass(a: array<Stage>, m: int)
    requires 1 <= m <= a.Length
    requires SortedFrom(a[..], m) && Partitioned(a[..], m)
    modifies a
    ensures SortedFrom(a[..], m - 1) && Partitioned(a[..], m - 1)
    ensures multiset(a[..]) == multiset(old(a[..]))
    ensures SameClasses(a[..], old(a[..]))
  {
    var j := 0;
    while j < m - 1
      invariant PassInv(a[..], old(a[..]), j, m)
    {
      ghost var s := a[..];
      BubbleStep(s, old(a[..]), j, m);
      if a[j].priority > a[j + 1].priority {
        a[j], a[j + 1] := a[j + 1], a[j];
        assert a[..] == s[j := s[j + 1]][j + 1 := s[j]];
      }
      j := j + 1;
    }
    PassDone(a[..], m);
  }

  /** Bubble sort on a copy: the result is ordered by priority, is a
      permutation of the input and keeps equal priorities in input order. */
  method SortStages(stages: seq<Stage>) returns (sorted: seq<Stage>)
    ensures SortedByPriority(sorted)
    ensures multiset(sorted) == multiset(stages)
    ensures SameClasses(sorted, stages)
  {
    var a := new Stage[|stages|](k requires 0 <= k < |stages| => stages[k]);
    assert a[..] == stages;
    var n := a.Length;
    var i := 0;
    while i < n - 1
      invariant 0 <= i <= n && (n >= 1 ==> i <= n - 1)
      invariant SortedFrom(a[..], n - i) && Partitioned(a[..], n - i)
      invariant multiset(a[..]) == multiset(stages)
      invariant SameClasses(a[..], stages)
    {
      ghost var before := a[..];
      BubblePass(a, n - i);
      ClassesTransitive(a[..], before, stages);
      i := i + 1;
    }
    AllSorted(a[..], n - i);
    sorted := a[..];
  }
}
