/**
 * The indicator lists the Python analyzers build: each check appends one
 * boolean, and the AI probability is the share of true entries.
 */
module Indicators {
  import opened Common

  /** `sum(indicators)`: the number of true entries. */
  function CountTrue(indicators: seq<bool>): (n: nat)
    ensures n <= |indicators|
  {
    if indicators == [] then 0
    else CountTrue(indicators[..|indicators| - 1]) + (if indicators[|indicators| - 1] then 1 else 0)
  }

  /** `sum(indicators) / len(indicators) if indicators else 0.0`. */
  function Share(indicators: seq<bool>): real
  {
    if indicators == [] then 0.0 else CountTrue(indicators) as real / |indicators| as real
  }

  /** A boolean counted as 0 or 1. */
  function BoolCount(b: bool): nat
  {
    if b then 1 else 0
  }

  lemma {:induction false} CountTrueAppend(indicators: seq<bool>, b: bool)
    ensures CountTrue(indicators + [b]) == CountTrue(indicators) + (if b then 1 else 0)
  {
    assert (indicators + [b])[..|indicators|] == indicators;
  }

  lemma {:induction false} CountTrueConcat(a: seq<bool>, b: seq<bool>)
    ensures CountTrue(a + b) == CountTrue(a) + CountTrue(b)
    decreases |b|
  {
    if b == [] {
      assert a + b == a;
    } else {
      var b' := b[..|b| - 1];
      assert a + b == (a + b') + [b[|b| - 1]];
      CountTrueAppend(a + b', b[|b| - 1]);
      CountTrueAppend(b', b[|b| - 1]);
      assert b == b' + [b[|b| - 1]];
      CountTrueConcat(a, b');
    }
  }

  /** No entry is true exactly when the count is 0; every entry is true
      exactly when the count is the length. */
  lemma {:induction false} CountTrueExtremes(indicators: seq<bool>)
    ensures CountTrue(indicators) == 0 <==> forall i :: 0 <= i < |indicators| ==> !indicators[i]
    ensures CountTrue(indicators) == |indicators| <==> forall i :: 0 <= i < |indicators| ==> indicators[i]
  {
    if indicators != [] {
      var prefix := indicators[..|indicators| - 1];
      CountTrueExtremes(prefix);
      assert forall i :: 0 <= i < |prefix| ==> prefix[i] == indicators[i];
    }
  }

  /** The share is a probability. */
  lemma ShareInUnitRange(indicators: seq<bool>)
    ensures 0.0 <= Share(indicators) <= 1.0
  {
    if indicators != [] {
      QuotientInUnitRange(CountTrue(indicators) as real, |indicators| as real);
    }
  }

  /** The share is 0 exactly when no entry is true. */
  lemma ShareZero(indicators: seq<bool>)
    ensures Share(indicators) == 0.0 <==> forall i :: 0 <= i < |indicators| ==> !indicators[i]
  {
    CountTrueExtremes(indicators);
    if indicators != [] {
      QuotientInUnitRange(CountTrue(indicators) as real, |indicators| as real);
    }
  }

  // ---------------------------------------------------------------------
  // Named indicators
  // ---------------------------------------------------------------------

  /** The labels of the first n checks that hold, in check order. */
  function SelectedUpTo(checks: seq<bool>, labels: seq<string>, n: nat): (names: seq<string>)
    requires |checks| == |labels| && n <= |checks|
    ensures |names| <= n
  {
    if n == 0 then [] else SelectedUpTo(checks, labels, n - 1) + When(checks[n - 1], labels[n - 1])
  }

  function When(b: bool, name: string): seq<string>
  {
    if b then [name] else []
  }

  /** Among the first n checks, a label is selected exactly when its check
      holds, provided the labels are distinct. */
  lemma {:induction false} SelectedExactly(checks: seq<bool>, labels: seq<string>, n: nat, k: nat)
    requires |checks| == |labels| && k < n <= |checks|
    requires forall i, j :: 0 <= i < j < |labels| ==> labels[i] != labels[j]
    ensures labels[k] in SelectedUpTo(checks, labels, n) <==> checks[k]
  {
    if k < n - 1 {
      SelectedExactly(checks, labels, n - 1, k);
    } else {
      SelectedOnlyEarlier(checks, labels, n - 1, k);
    }
  }

  /** When every check holds, every label is selected. */
  lemma {:induction false} SelectedAll(checks: seq<bool>, labels: seq<string>, n: nat)
    requires |checks| == |labels| && n <= |checks|
    requires forall i :: 0 <= i < n ==> checks[i]
    ensures |SelectedUpTo(checks, labels, n)| == n
  {
    if n > 0 {
      SelectedAll(checks, labels, n - 1);
    }
  }

  /** The first n selected labels all sit before position n. */
  lemma {:induction false} SelectedOnlyEarlier(checks: seq<bool>, labels: seq<string>, n: nat, k: nat)
    requires |checks| == |labels| && n <= k < |checks|
    requires forall i, j :: 0 <= i < j < |labels| ==> labels[i] != labels[j]
    ensures labels[k] !in SelectedUpTo(checks, labels, n)
  {
    if n > 0 {
      SelectedOnlyEarlier(checks, labels, n - 1, k);
    }
  }
}
