/**
 Top-k and nucleus (top-p) filtering of one row of logits.

 `order` is whatever index sequence a descending sort returned (any tie order) and
 `w` the probabilities of the sorted row; softmax itself is not modelled, so `w` is
 any sequence of non-negative reals. A filtered logit is minus infinity: `Removed`.
 */
module NucleusFilter {
  import opened Helpers

  datatype Logit = Removed | Fin(value: real)

  /** `order` lists every index of a row of `n` logits once, largest logit first. */
  ghost predicate Descending(order: seq<nat>, logits: seq<Logit>) {
    && |order| == |logits|
    && (forall j :: 0 <= j < |order| ==> order[j] < |logits|)
    && (forall k :: 0 <= k < |logits| ==> k in order)
    && (forall i, j :: 0 <= i < j < |order| ==> order[i] != order[j])
    && (forall k :: 0 <= k < |logits| ==> logits[k].Fin?)
    && (forall i, j :: 0 <= i < j < |order| ==> logits[order[i]].value >= logits[order[j]].value)
  }

  ghost predicate Probabilities(w: seq<real>, n: nat) {
    |w| == n && forall j :: 0 <= j < n ==> w[j] >= 0.0
  }

  /** Probability of the first `n` tokens of the descending order. */
  ghost function Mass(w: seq<real>, n: nat): real
    requires n <= |w|
  {
    if n == 0 then 0.0 else Mass(w, n - 1) + w[n - 1]
  }

  /** `kept` is the length of the shortest non-empty prefix of the descending order,
      of at least `floor` tokens, whose mass exceeds `topP` (all of it if none does). */
  ghost predicate Nucleus(w: seq<real>, topP: real, floor: nat, kept: nat) {
    && 1 <= kept <= |w|
    && (kept < |w| ==> kept >= floor && Mass(w, kept) > topP)
    && (forall n :: 1 <= n < kept ==> n < floor || Mass(w, n) <= topP)
  }

  /** The code protects one token more than `min_tokens_to_keep` asks for, because it
      clears the first flags before shifting them; below two it protects just one. */
  function Floor(minKeep: int): nat { if minKeep > 1 then minKeep + 1 else 1 }

  lemma {:induction false} MassMonotone(w: seq<real>, i: nat, j: nat)
    requires Probabilities(w, |w|) && i <= j <= |w|
    ensures Mass(w, i) <= Mass(w, j)
    decreases j
  {
    if i < j { MassMonotone(w, i, j - 1); }
  }

  lemma {:induction false} NucleusExists(w: seq<real>, topP: real, floor: nat, from: nat) returns (kept: nat)
    requires 1 <= from <= |w|
    requires forall n :: 1 <= n < from ==> n < floor || Mass(w, n) <= topP
    ensures Nucleus(w, topP, floor, kept)
    decreases |w| - from
  {
    if from == |w| || (from >= floor && Mass(w, from) > topP) {
      kept := from;
    } else {
      kept := NucleusExists(w, topP, floor, from + 1);
    }
  }

  /** There is always exactly one nucleus, so the filter's result is determined. */
  lemma NucleusUnique(w: seq<real>, topP: real, floor: nat)
    requires |w| >= 1
    ensures exists kept :: Nucleus(w, topP, floor, kept)
    ensures forall a, b :: Nucleus(w, topP, floor, a) && Nucleus(w, topP, floor, b) ==> a == b
  {
    var kept := NucleusExists(w, topP, floor, 1);
  }

  /** `out` is `row` with exactly the nucleus, in original indexing, left in place. */
  ghost predicate NucleusKept(row: seq<Logit>, out: seq<Logit>, order: seq<nat>, w: seq<real>, topP: real, floor: nat) {
    exists kept: nat :: KeptFirst(row, out, order, w, topP, floor, kept)
  }

  /** The nucleus has `kept` tokens, and `out` is `row` with just these left in place. */
  ghost predicate KeptFirst(row: seq<Logit>, out: seq<Logit>, order: seq<nat>, w: seq<real>, topP: real, floor: nat, kept: nat) {
    && |out| == |row| == |order| == |w|
    && Nucleus(w, topP, floor, kept)
    && forall j :: 0 <= j < |order| && order[j] < |row| ==>
         out[order[j]] == if j < kept then row[order[j]] else Removed
  }

  /** `out` is `row` without the logits below the `k`-th largest one. */
  ghost predicate TopKept(row: seq<Logit>, out: seq<Logit>, order: seq<nat>, k: nat)
    requires Descending(order, row) && 1 <= k <= |row|
  {
    && |out| == |row|
    && forall i :: 0 <= i < |row| ==>
      out[i] == if row[i].value < row[order[k - 1]].value then Removed else row[i]
  }

  // ---------------------------------------------------------------- the filter

  /** Marks every sorted position whose cumulative probability exceeds `topP`. */
  method MarkAbove(w: seq<real>, topP: real) returns (remove: array<bool>)
    ensures fresh(remove) && remove.Length == |w|
    ensures forall j :: 0 <= j < |w| ==> remove[j] == (Mass(w, j + 1) > topP)
  {
    remove := new bool[|w|](_ => false);
    var cumulative := 0.0;
    for j := 0 to |w|
      invariant cumulative == Mass(w, j)
      invariant forall i :: 0 <= i < j ==> remove[i] == (Mass(w, i + 1) > topP)
    {
      cumulative := cumulative + w[j];
      remove[j] := cumulative > topP;
    }
  }

  /** Clears the protected flags, then shifts all of them one place to the right. */
  method ProtectAndShift(remove: array<bool>, minKeep: int)
    requires remove.Length >= 1
    modifies remove
    ensures !remove[0]
    ensures forall j :: 1 <= j < remove.Length ==> remove[j] == (old(remove[j - 1]) && j >= Floor(minKeep))
  {
    if minKeep > 1 {
      forall j | 0 <= j < remove.Length && j < minKeep {
        remove[j] := false;
      }
    }
    forall j | 1 <= j < remove.Length {
      remove[j] := remove[j - 1];
    }
    remove[0] := false;
  }

  method CopyFlags(flags: array<bool>) returns (copy: array<bool>)
    ensures fresh(copy) && copy[..] == flags[..]
  {
    copy := new bool[flags.Length](i requires 0 <= i < flags.Length reads flags => flags[i]);
  }

  /** Scatters the sorted flags back to original indexing. */
  method Scatter(order: seq<nat>, remove: array<bool>) returns (mask: array<bool>)
    requires remove.Length == |order|
    requires forall j :: 0 <= j < |order| ==> order[j] < |order|
    requires forall i, j :: 0 <= i < j < |order| ==> order[i] != order[j]
    ensures fresh(mask) && mask.Length == |order|
    ensures forall j :: 0 <= j < |order| ==> mask[order[j]] == remove[j]
  {
    mask := CopyFlags(remove);
    for j := 0 to |order|
      invariant forall i :: 0 <= i < j ==> mask[order[i]] == remove[i]
    {
      mask[order[j]] := remove[j];
    }
  }

  method Fill(logits: array<Logit>, mask: array<bool>)
    requires mask.Length == logits.Length
    modifies logits
    ensures forall i :: 0 <= i < logits.Length ==> logits[i] == if mask[i] then Removed else old(logits[i])
  {
    forall i | 0 <= i < logits.Length && mask[i] {
      logits[i] := Removed;
    }
  }

  method TopKTopPFilter(logits: array<Logit>, order: seq<nat>, w: seq<real>, topK: int, topP: real, minKeep: int)
    returns (returned: bool)
    requires logits.Length >= 1 && Descending(order, logits[..]) && Probabilities(w, logits.Length)
    modifies logits
    ensures returned <==> topK > 0 || topP < 1.0
    ensures !returned ==> logits[..] == old(logits[..])
    ensures topK > 0 ==>
      TopKept(old(logits[..]), logits[..], order, Clamp(if topK >= minKeep then topK else minKeep, logits.Length))
    ensures topK <= 0 && topP < 1.0 ==>
      NucleusKept(old(logits[..]), logits[..], order, w, topP, Floor(minKeep))
  {
    if topK > 0 {
      var k := Clamp(if topK >= minKeep then topK else minKeep, logits.Length);
      var threshold := logits[order[k - 1]].value;
      forall i | 0 <= i < logits.Length && logits[i].value < threshold {
        logits[i] := Removed;
      }
      return true;
    }
    if topP < 1.0 {
      ghost var row := logits[..];
      ghost var kept := NucleusExists(w, topP, Floor(minKeep), 1);
      var remove := MarkAbove(w, topP);
      ProtectAndShift(remove, minKeep);
      FlagsAreNucleus(w, topP, Floor(minKeep), kept, remove[..]);
      var mask := Scatter(order, remove);
      Fill(logits, mask);
      assert KeptFirst(row, logits[..], order, w, topP, Floor(minKeep), kept);
      return true;
    }
    return false;
  }

  function Clamp(k: int, n: nat): (r: nat)
    requires k >= 1 && n >= 1
    ensures 1 <= r <= n && r <= k
  {
    if k <= n then k else n
  }

  /** The shifted flags are clear on the nucleus and set behind it. */
  lemma FlagsAreNucleus(w: seq<real>, topP: real, floor: nat, kept: nat, remove: seq<bool>)
    requires Probabilities(w, |remove|) && |remove| >= 1 && floor >= 1
    requires Nucleus(w, topP, floor, kept)
    requires !remove[0] && forall j :: 1 <= j < |remove| ==> remove[j] == (Mass(w, j) > topP && j >= floor)
    ensures forall j :: 0 <= j < |remove| ==> remove[j] == (j >= kept)
  {
    forall j | 1 <= j < |remove| && j >= kept ensures remove[j] {
      MassMonotone(w, kept, j);
    }
  }

  /** The places of the order whose logit is kept. */
  function KeptPlaces(out: seq<Logit>, order: seq<nat>): set<int> {
    set j | 0 <= j < |order| && order[j] < |out| && out[order[j]].Fin?
  }

  /** Top-k by numbers: the larger of `top_k` and `min_tokens_to_keep`, but no more than there
      are, are kept, and others exactly as far as they tie with the last of these. */
  lemma TopKCount(row: seq<Logit>, out: seq<Logit>, order: seq<nat>, topK: int, minKeep: int)
    requires |row| >= 1 && topK > 0 && Descending(order, row)
    requires TopKept(row, out, order, Clamp(if topK >= minKeep then topK else minKeep, |row|))
    ensures var n := |KeptPlaces(out, order)|;
      && (topK >= |row| || minKeep >= |row| ==> n == |row| && out == row)
      && (topK < |row| && minKeep < |row| ==> n >= topK && n >= minKeep)
      && (minKeep <= topK < |row| ==> (n == topK <==> row[order[topK]].value < row[order[topK - 1]].value))
      && (topK < minKeep < |row| ==> (n == minKeep <==> row[order[minKeep]].value < row[order[minKeep - 1]].value))
  {
    var k, kept := Clamp(if topK >= minKeep then topK else minKeep, |row|), KeptPlaces(out, order);
    TopKKeepsTies(row, out, order, k);
    FirstPlaces(k, kept);
    if k < |row| && k in kept { FirstPlaces(k + 1, kept); }
    if k < |row| && k !in kept {
      assert forall j :: k < j < |row| ==> row[order[k]].value >= row[order[j]].value;
      OnlyPlaces(k, kept);
    }
    if k == |row| {
      OnlyPlaces(k, kept);
      AllKept(row, out, order);
    }
  }

  lemma AllKept(row: seq<Logit>, out: seq<Logit>, order: seq<nat>)
    requires |row| >= 1 && Descending(order, row) && TopKept(row, out, order, |row|)
    ensures out == row
  {
    forall i | 0 <= i < |row| ensures out[i] == row[i] {
      assert i in order;
      var j :| 0 <= j < |order| && order[j] == i;
      assert j < |row| - 1 ==> row[order[j]].value >= row[order[|row| - 1]].value;
    }
  }

  lemma {:induction false} FirstPlaces(k: nat, places: set<int>)
    requires forall j :: 0 <= j < k ==> j in places
    ensures |places| >= k
  {
    if k > 0 {
      FirstPlaces(k - 1, places - {k - 1});
    }
  }

  lemma {:induction false} OnlyPlaces(k: nat, places: set<int>)
    requires forall j :: j in places ==> 0 <= j < k
    ensures |places| <= k
  {
    if k == 0 {
      assert forall j :: j !in places;
    } else {
      OnlyPlaces(k - 1, places - {k - 1});
    }
  }

  // ------------------------------------------------------------------ sampling

  datatype Draw = FromLogits | FromNothing | ComparedNone

  /** Which logits the draw is made from. `None > 0` and `None < 1.0` raise. */
  method SampleFromLogits(logits: array<Logit>, order: seq<nat>, w: seq<real>, topK: Option<int>, topP: Option<real>)
    returns (draw: Draw)
    requires logits.Length >= 1 && Descending(order, logits[..]) && Probabilities(w, logits.Length)
    modifies logits
    ensures draw != FromNothing
    ensures draw == ComparedNone <==>
      (topK.None? && topP.Some?) || (topK.Some? && topK.value <= 0 && topP.None?)
    ensures draw == FromLogits ==> exists i :: 0 <= i < logits.Length && logits[i].Fin?
    ensures draw == FromLogits && topK.Some? && topK.value <= 0 && topP.value < 1.0 ==>
      NucleusKept(old(logits[..]), logits[..], order, w, topP.value, 1)
    ensures draw == FromLogits && topK.Some? && topK.value > 0 ==>
      TopKept(old(logits[..]), logits[..], order, Clamp(topK.value, logits.Length))
    ensures draw == FromLogits && (topK.None? || (topK.value <= 0 && topP.value >= 1.0)) ==>
      logits[..] == old(logits[..])
  {
    ghost var row := logits[..];
    if topK.Some? || topP.Some? {
      if topK.None? { return ComparedNone; }
      if topK.value <= 0 && topP.None? { return ComparedNone; }
      if topK.value > 0 || topP.value < 1.0 {
        var returned := TopKTopPFilter(logits, order, w, topK.value, if topP.Some? then topP.value else 1.0, 1);
        if !returned { return FromNothing; }
        LargestSurvives(row, logits[..], order, w, topK.value, if topP.Some? then topP.value else 1.0);
      }
    }
    assert logits[order[0]] == row[order[0]];
    return FromLogits;
  }

  lemma LargestSurvives(row: seq<Logit>, out: seq<Logit>, order: seq<nat>, w: seq<real>, topK: int, topP: real)
    requires |row| >= 1 && Descending(order, row)
    requires topK > 0 ==> TopKept(row, out, order, Clamp(topK, |row|))
    requires topK <= 0 ==> NucleusKept(row, out, order, w, topP, 1)
    ensures |out| == |row| && out[order[0]] == row[order[0]]
  {
  }

  // ------------------------------------------------------------------ theorems

  /** What is kept is never smaller than what is removed, and something is kept. */
  lemma KeptDominatesRemoved(row: seq<Logit>, out: seq<Logit>, order: seq<nat>, w: seq<real>, topP: real, floor: nat)
    requires |row| >= 1 && Descending(order, row) && NucleusKept(row, out, order, w, topP, floor)
    ensures out[order[0]] == row[order[0]]
    ensures forall a, b :: 0 <= a < |row| && 0 <= b < |row| && out[a].Fin? && out[b].Removed? ==>
      out[a] == row[a] && row[a].value >= row[b].value
  {
    forall a, b | 0 <= a < |row| && 0 <= b < |row| && out[a].Fin? && out[b].Removed?
      ensures out[a] == row[a] && row[a].value >= row[b].value
    {
      assert a in order && b in order;
      var i :| 0 <= i < |order| && order[i] == a;
      var j :| 0 <= j < |order| && order[j] == b;
    }
  }

  /** Top-k keeps the first k of the order and, beyond them, exactly the ties with
      the k-th largest: it can keep more than k logits, never fewer. */
  lemma TopKKeepsTies(row: seq<Logit>, out: seq<Logit>, order: seq<nat>, k: nat)
    requires Descending(order, row) && 1 <= k <= |row| && TopKept(row, out, order, k)
    ensures forall j :: 0 <= j < |row| ==>
      (out[order[j]].Fin? <==> j < k || row[order[j]].value == row[order[k - 1]].value)
  {
    forall j | 0 <= j < |row|
      ensures out[order[j]].Fin? <==> j < k || row[order[j]].value == row[order[k - 1]].value
    {
      if j < k - 1 {
        assert row[order[j]].value >= row[order[k - 1]].value;
      } else if j >= k {
        assert row[order[k - 1]].value >= row[order[j]].value;
      }
    }
  }

  // ------------------------------------------------- the floor asked for and kept

  /** What `min_tokens_to_keep` asks for: so many tokens, and one in any case. */
  function AskedFloor(minKeep: int): nat { if minKeep > 1 then minKeep else 1 }

  /** The token protected beside those asked for decides exactly when the tokens asked for are
      not all there are and already exceed the threshold: then one token more is kept. */
  ghost predicate KeepsOneMore(w: seq<real>, topP: real, minKeep: int) {
    1 < minKeep < |w| && Mass(w, minKeep) > topP
  }

  lemma FloorDiffersIff(w: seq<real>, topP: real, minKeep: int, asked: nat, kept: nat)
    requires Probabilities(w, |w|)
    requires Nucleus(w, topP, AskedFloor(minKeep), asked) && Nucleus(w, topP, Floor(minKeep), kept)
    ensures kept != asked <==> KeepsOneMore(w, topP, minKeep)
    ensures kept != asked ==> asked == minKeep && kept == minKeep + 1
  {
    if 1 < minKeep < |w| {
      MassMonotone(w, minKeep, minKeep + 1);
      if asked > minKeep { assert Mass(w, minKeep) <= topP; }
    }
  }

  /** The filtered row differs from the one asked for in exactly this case, whatever the row. */
  lemma RowDiffersIff(row: seq<Logit>, asked: seq<Logit>, out: seq<Logit>, order: seq<nat>,
                      w: seq<real>, topP: real, minKeep: int)
    requires Descending(order, row) && Probabilities(w, |row|)
    requires NucleusKept(row, asked, order, w, topP, AskedFloor(minKeep))
    requires NucleusKept(row, out, order, w, topP, Floor(minKeep))
    ensures out != asked <==> KeepsOneMore(w, topP, minKeep)
  {
    var a: nat :| KeptFirst(row, asked, order, w, topP, AskedFloor(minKeep), a);
    var b: nat :| KeptFirst(row, out, order, w, topP, Floor(minKeep), b);
    FloorDiffersIff(w, topP, minKeep, a, b);
    if a == b {
      forall k | 0 <= k < |row| ensures out[k] == asked[k] {
        assert k in order;
        var j :| 0 <= j < |order| && order[j] == k;
      }
    } else {
      assert asked[order[a]] == Removed && out[order[a]] == row[order[a]];
    }
  }

  /** Such an input: two tokens asked for, three kept. */
  lemma KeepsThreeForTwo(w: seq<real>, topP: real)
    requires w == [0.9, 0.06, 0.04] && topP == 0.5
    ensures Probabilities(w, 3) && Nucleus(w, topP, AskedFloor(2), 2) && Nucleus(w, topP, Floor(2), 3)
  {
    assert Mass(w, 1) == 0.9 by { assert Mass(w, 0) == 0.0; }
    assert Mass(w, 2) == 0.96;
  }
}
