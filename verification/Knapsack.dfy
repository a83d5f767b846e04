/** The selection of custom instructions: a 0/1 knapsack table with the chosen items read back from it. */
module Knapsack {

  ghost predicate Items(weights: seq<int>, values: seq<real>)
  {
    |weights| == |values| && forall i :: 0 <= i < |weights| ==> weights[i] >= 0
  }

  // A selection says of each of the first items whether it is taken.
  function WeightOf(weights: seq<int>, pick: seq<bool>): int
    requires |pick| <= |weights|
  {
    if pick == [] then 0
    else
      var n := |pick| - 1;
      WeightOf(weights, pick[..n]) + if pick[n] then weights[n] else 0
  }

  function ValueOf(values: seq<real>, pick: seq<bool>): real
    requires |pick| <= |values|
  {
    if pick == [] then 0.0
    else
      var n := |pick| - 1;
      ValueOf(values, pick[..n]) + if pick[n] then values[n] else 0.0
  }

  function Picks(n: nat, items: seq<nat>): (pick: seq<bool>)
    ensures |pick| == n
  {
    seq(n, i requires 0 <= i < n => i in items)
  }

  // The recurrence the table is filled by.
  function Best(weights: seq<int>, values: seq<real>, i: nat, j: nat): real
    requires Items(weights, values) && i <= |weights|
  {
    if i == 0 then 0.0
    else
      var skip := Best(weights, values, i - 1, j);
      if weights[i - 1] > j then skip
      else
        var take := Best(weights, values, i - 1, j - weights[i - 1]) + values[i - 1];
        if take > skip then take else skip
  }

  predicate Takes(weights: seq<int>, values: seq<real>, i: nat, j: nat)
    requires Items(weights, values) && 1 <= i <= |weights|
  {
    weights[i - 1] <= j
    && Best(weights, values, i - 1, j - weights[i - 1]) + values[i - 1] > Best(weights, values, i - 1, j)
  }

  // No selection within the capacity is worth more.
  lemma {:induction false} BestIsUpperBound(weights: seq<int>, values: seq<real>, pick: seq<bool>, j: nat)
    requires Items(weights, values) && |pick| <= |weights| && WeightOf(weights, pick) <= j
    ensures ValueOf(values, pick) <= Best(weights, values, |pick|, j)
    decreases |pick|
  {
    if pick != [] {
      var n := |pick| - 1;
      WeightNonNegative(weights, pick[..n]);
      if pick[n] {
        BestIsUpperBound(weights, values, pick[..n], j - weights[n]);
      } else {
        BestIsUpperBound(weights, values, pick[..n], j);
      }
    }
  }

  lemma {:induction false} WeightNonNegative(weights: seq<int>, pick: seq<bool>)
    requires |pick| <= |weights| && forall i :: 0 <= i < |weights| ==> weights[i] >= 0
    ensures WeightOf(weights, pick) >= 0
    decreases |pick|
  {
    if pick != [] { WeightNonNegative(weights, pick[..|pick| - 1]); }
  }

  // The items read back from row i, column j of the table.
  function Recovered(weights: seq<int>, values: seq<real>, i: nat, j: nat): seq<nat>
    requires Items(weights, values) && i <= |weights|
  {
    if i == 0 then []
    else if Takes(weights, values, i, j) then Recovered(weights, values, i - 1, j - weights[i - 1]) + [i - 1]
    else Recovered(weights, values, i - 1, j)
  }

  ghost predicate Ascending(items: seq<nat>, n: nat)
  {
    (forall k :: 0 <= k < |items| ==> items[k] < n) && forall k, l :: 0 <= k < l < |items| ==> items[k] < items[l]
  }

  // The recovered items fit and are worth exactly the table's entry.
  lemma {:induction false} RecoveredIsBest(weights: seq<int>, values: seq<real>, i: nat, j: nat)
    requires Items(weights, values) && i <= |weights|
    ensures var items := Recovered(weights, values, i, j);
            && Ascending(items, i) && WeightOf(weights, Picks(i, items)) <= j
            && ValueOf(values, Picks(i, items)) == Best(weights, values, i, j)
    decreases i
  {
    if i > 0 {
      var takes := Takes(weights, values, i, j);
      var rest := if takes then j - weights[i - 1] else j;
      RecoveredIsBest(weights, values, i - 1, rest);
      var before, items := Recovered(weights, values, i - 1, rest), Recovered(weights, values, i, j);
      assert Picks(i, items) == Picks(i - 1, before) + [takes];
      assert Picks(i, items)[..i - 1] == Picks(i - 1, before);
    }
  }

  // `knapsack_01_with_items`.
  method Knapsack01WithItems(W: nat, weights: seq<int>, values: seq<real>) returns (best: real, chosen: seq<nat>)
    requires Items(weights, values)
    ensures Ascending(chosen, |weights|)
    ensures WeightOf(weights, Picks(|weights|, chosen)) <= W
    ensures ValueOf(values, Picks(|weights|, chosen)) == best
    ensures forall pick: seq<bool> :: |pick| == |weights| && WeightOf(weights, pick) <= W ==>
      ValueOf(values, pick) <= best
  {
    var n := |weights|;
    var dp := new real[n + 1, W + 1]((i, j) => 0.0);
    var selected := new bool[n + 1, W + 1]((i, j) => false);
    for i := 1 to n + 1
      invariant forall k, l :: 0 <= k < i && 0 <= l <= W ==> dp[k, l] == Best(weights, values, k, l)
      invariant forall k, l :: 1 <= k < i && 0 <= l <= W ==> selected[k, l] == Takes(weights, values, k, l)
      invariant forall k, l :: i <= k <= n && 0 <= l <= W ==> !selected[k, l]
    {
      FillRow(W, weights, values, i, dp, selected);
    }
    best := dp[n, W];
    chosen := ReadBack(W, weights, values, selected);
    RecoveredIsBest(weights, values, n, W);
    forall pick: seq<bool> | |pick| == n && WeightOf(weights, pick) <= W ensures ValueOf(values, pick) <= best {
      BestIsUpperBound(weights, values, pick, W);
    }
  }

  // One row of the two tables.
  method FillRow(W: nat, weights: seq<int>, values: seq<real>, i: nat, dp: array2<real>, selected: array2<bool>)
    requires Items(weights, values) && 1 <= i <= |weights|
    requires dp.Length0 == selected.Length0 == |weights| + 1 && dp.Length1 == selected.Length1 == W + 1
    requires forall k, l :: 0 <= k < i && 0 <= l <= W ==> dp[k, l] == Best(weights, values, k, l)
    requires forall l :: 0 <= l <= W ==> !selected[i, l]
    modifies dp, selected
    ensures forall l :: 0 <= l <= W ==>
      dp[i, l] == Best(weights, values, i, l) && selected[i, l] == Takes(weights, values, i, l)
    ensures forall k, l :: 0 <= k <= |weights| && k != i && 0 <= l <= W ==>
      dp[k, l] == old(dp[k, l]) && selected[k, l] == old(selected[k, l])
  {
    var above := i - 1;
    for j := 0 to W + 1
      invariant forall l :: 0 <= l < j ==>
        dp[i, l] == Best(weights, values, i, l) && selected[i, l] == Takes(weights, values, i, l)
      invariant forall l :: j <= l <= W ==> !selected[i, l]
      invariant forall l :: 0 <= l <= W ==> dp[above, l] == Best(weights, values, above, l)
      invariant forall k, l :: 0 <= k <= |weights| && k != i && 0 <= l <= W ==>
        dp[k, l] == old(dp[k, l]) && selected[k, l] == old(selected[k, l])
    {
      if weights[i - 1] > j {
        dp[i, j] := dp[above, j];
      } else {
        var take := dp[above, j - weights[i - 1]] + values[i - 1];
        if take > dp[above, j] {
          dp[i, j] := take;
          selected[i, j] := true;
        } else {
          dp[i, j] := dp[above, j];
        }
      }
    }
  }

  // The walk back through the rows, and the final reversal.
  method ReadBack(W: nat, weights: seq<int>, values: seq<real>, selected: array2<bool>) returns (chosen: seq<nat>)
    requires Items(weights, values) && selected.Length0 == |weights| + 1 && selected.Length1 == W + 1
    requires forall k, l :: 1 <= k <= |weights| && 0 <= l <= W ==> selected[k, l] == Takes(weights, values, k, l)
    ensures chosen == Recovered(weights, values, |weights|, W)
  {
    var backwards: seq<nat> := [];
    var remaining: nat := W;
    var i := |weights|;
    while i >= 1
      invariant 0 <= i <= |weights| && remaining <= W
      invariant Recovered(weights, values, |weights|, W) == Recovered(weights, values, i, remaining)
        + Reversed(backwards)
    {
      if selected[i, remaining] {
        backwards := backwards + [i - 1];
        remaining := remaining - weights[i - 1];
      }
      i := i - 1;
    }
    chosen := Reversed(backwards);
  }

  function Reversed(s: seq<nat>): (r: seq<nat>)
    ensures |r| == |s| && forall k :: 0 <= k < |s| ==> r[k] == s[|s| - 1 - k]
  {
    if s == [] then [] else [s[|s| - 1]] + Reversed(s[..|s| - 1])
  }
}
