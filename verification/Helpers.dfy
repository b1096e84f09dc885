/**
 What several components share: optional values, the smaller of two numbers, sequences
 without repetition, selections from a sequence and one fact of multiplication.
 */
module Helpers {

  datatype Option<+T> = None | Some(value: T)

  function Min(a: nat, b: nat): nat { if a <= b then a else b }

  ghost predicate NoRepeat<T>(s: seq<T>) { forall i, j :: 0 <= i < j < |s| ==> s[i] != s[j] }

  lemma TimesMonotone(a: nat, b: nat, k: nat)
    requires a <= b
    ensures a * k <= b * k
  {
    assert (b - a) * k >= 0;
  }

  /** `part` is exactly the elements of `whole` that `keep` accepts, in their order; `at` says
      where they are. */
  ghost predicate Filtered<T>(whole: seq<T>, keep: T -> bool, at: seq<nat>, part: seq<T>) {
    && |at| == |part|
    && (forall a, b :: 0 <= a < b < |at| ==> at[a] < at[b])
    && (forall i: nat :: i in at <==> i < |whole| && keep(whole[i]))
    && forall a :: 0 <= a < |at| ==> at[a] < |whole| && part[a] == whole[at[a]]
  }

  lemma FilteredMore<T>(whole: seq<T>, x: T, keep: T -> bool, at: seq<nat>, part: seq<T>)
    requires Filtered(whole, keep, at, part)
    ensures !keep(x) ==> Filtered(whole + [x], keep, at, part)
    ensures keep(x) ==> Filtered(whole + [x], keep, at + [|whole|], part + [x])
  {
    var more := whole + [x];
    assert forall i :: 0 <= i < |whole| ==> more[i] == whole[i];
    assert forall a :: 0 <= a < |at| ==> at[a] in at;
    if keep(x) {
      var next := at + [|whole|];
      forall i: nat ensures i in next <==> i < |more| && keep(more[i]) {
        if i < |whole| { assert i in at <==> keep(whole[i]); }
      }
    }
  }
}
