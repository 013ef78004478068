/** The transaction roadmap: the step list of a sale or a purchase and the progress
    fraction of the step reached. */
module Roadmap {

  /** The two kinds of transaction the roadmap offers. */
  datatype Mode = Sale | Purchase

  /** The nine steps of a sale. */
  const SaleSteps: seq<string> := [
    "1.売買相談", "2.物件調査", "3.査定", "4.媒介契約",
    "5.インスペクション", "6.広告", "7.契約交渉",
    "8.重要事項説明", "9.引渡・登記・決済"
  ]

  /** The ten steps of a purchase. */
  const PurchaseSteps: seq<string> := [
    "1.購入相談", "2.資金計画", "3.物件調査", "4.購入申込",
    "5.契約交渉", "6.媒介契約", "7.重要事項説明",
    "8.売買契約締結", "9.住宅ローン審査", "10.引渡・登記・決済"
  ]

  /** No step name occurs twice. */
  predicate Distinct(steps: seq<string>)
  {
    forall i, j :: 0 <= i < j < |steps| ==> steps[i] != steps[j]
  }

  /** The step list of a mode: nine distinct steps for a sale, ten for a purchase. */
  function Steps(m: Mode): (s: seq<string>)
    ensures |s| == if m == Sale then 9 else 10
    ensures Distinct(s)
  {
    if m == Sale then SaleSteps else PurchaseSteps
  }

  /** Position of the first occurrence of x in s, as a list's index lookup gives it. */
  function IndexOf(s: seq<string>, x: string): (k: nat)
    requires x in s
    ensures k < |s| && s[k] == x
    ensures forall j :: 0 <= j < k ==> s[j] != x
  {
    if s[0] == x then 0 else 1 + IndexOf(s[1..], x)
  }

  /** In a list without repetitions the lookup finds the very position of a step. */
  lemma IndexOfDistinct(s: seq<string>, i: nat)
    requires Distinct(s) && i < |s|
    ensures IndexOf(s, s[i]) == i
  {
  }

  /** Fraction of the roadmap completed once the chosen step is reached. */
  function Progress(steps: seq<string>, current: string): (p: real)
    requires current in steps
    ensures 0.0 < p <= 1.0
    ensures p == 1.0 ==> current == steps[|steps| - 1]
    ensures Distinct(steps) && current == steps[|steps| - 1] ==> p == 1.0
  {
    LastStepIndex(steps);
    (IndexOf(steps, current) + 1) as real / |steps| as real
  }

  /** In a non-empty list without repetitions the last step is found at the last position. */
  lemma LastStepIndex(steps: seq<string>)
    ensures Distinct(steps) && |steps| > 0 ==> IndexOf(steps, steps[|steps| - 1]) == |steps| - 1
  {
    if Distinct(steps) && |steps| > 0 {
      IndexOfDistinct(steps, |steps| - 1);
    }
  }

  /** The progress of the step at position i of a list without repetitions is (i + 1) / n. */
  lemma ProgressAt(steps: seq<string>, i: nat)
    requires Distinct(steps) && i < |steps|
    ensures Progress(steps, steps[i]) == (i + 1) as real / |steps| as real
  {
    IndexOfDistinct(steps, i);
  }

  /** Dividing by the same positive number keeps a strict order. */
  lemma DivStrictlyMonotone(a: real, b: real, n: real)
    requires a < b && n > 0.0
    ensures a / n < b / n
  {
    var qa, qb := a / n, b / n;
    assert (qb - qa) * n == b - a;
  }

  /** Progress increases strictly along a list without repetitions. */
  lemma ProgressStrictlyIncreasing(steps: seq<string>, i: nat, j: nat)
    requires Distinct(steps)
    requires i < j < |steps|
    ensures Progress(steps, steps[i]) < Progress(steps, steps[j])
  {
    ProgressAt(steps, i);
    ProgressAt(steps, j);
    DivStrictlyMonotone((i + 1) as real, (j + 1) as real, |steps| as real);
  }

  /** For either mode, any chosen step gives a progress in (0, 1], exactly 1 at the
      final step, strictly increasing with the step's position. */
  lemma ModeProgress(m: Mode, i: nat, j: nat)
    requires i < |Steps(m)| && j < |Steps(m)|
    ensures 0.0 < Progress(Steps(m), Steps(m)[i]) <= 1.0
    ensures Progress(Steps(m), Steps(m)[i]) == 1.0 <==> i == |Steps(m)| - 1
    ensures i < j ==> Progress(Steps(m), Steps(m)[i]) < Progress(Steps(m), Steps(m)[j])
  {
    var s := Steps(m);
    if i < j {
      ProgressStrictlyIncreasing(s, i, j);
    }
    if i < |s| - 1 {
      ProgressStrictlyIncreasing(s, i, |s| - 1);
    }
  }
}
