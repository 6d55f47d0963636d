/** Goal allocation (`allocateAutoGoalsToGoals`): the day's automatic goal
    deposit is split over the selected goals in proportion to each goal's
    `auto_savings_percent`. Every share but the last is rounded up to cents;
    the last goal takes whatever is left, so the shares add up to the rounded
    deposit. This module holds the specification of that split; the loop
    that writes the goals is `BudgetEngine.BudgetingService.AllocateAutoGoalsToGoals`. */
module GoalAllocation {
  import opened BudgetArithmetic
  import opened Numbers

  /** A row of the goals table. */
  datatype Goal = Goal(
    id: nat,
    name: string,
    currentAmount: real,
    autoSavingsPercent: real,
    isCurrentlySelected: bool)

  /** The goals query keeps selected goals with a positive percent. */
  predicate TakesPart(g: Goal) {
    g.isCurrentlySelected && g.autoSavingsPercent > 0.0
  }

  predicate Distinct(s: seq<nat>) {
    forall j, k :: 0 <= j < k < |s| ==> s[j] != s[k]
  }

  /** `order` lists distinct row positions of `goals`. */
  predicate IsOrderOf(goals: seq<Goal>, order: seq<nat>) {
    Distinct(order) && forall j :: 0 <= j < |order| ==> order[j] < |goals|
  }

  predicate SortedByPercentDesc(goals: seq<Goal>, order: seq<nat>)
    requires forall j :: 0 <= j < |order| ==> order[j] < |goals|
  {
    forall j, k :: 0 <= j < k < |order| ==>
      goals[order[j]].autoSavingsPercent >= goals[order[k]].autoSavingsPercent
  }

  /** Places row `i` before the first row of `sorted` with a smaller percent
      (so rows with equal percents keep their table order). */
  function InsertByPercent(goals: seq<Goal>, i: nat, sorted: seq<nat>): (r: seq<nat>)
    requires i < |goals|
    requires forall j :: 0 <= j < |sorted| ==> sorted[j] < |goals|
    ensures |r| == |sorted| + 1
    ensures forall x :: x in r <==> x == i || x in sorted
    ensures forall j :: 0 <= j < |r| ==> r[j] < |goals|
  {
    if |sorted| == 0 then [i]
    else if goals[i].autoSavingsPercent > goals[sorted[0]].autoSavingsPercent then [i] + sorted
    else [sorted[0]] + InsertByPercent(goals, i, sorted[1..])
  }

  /** Putting a row with the highest percent in front of a sorted order
      keeps it a sorted order. */
  lemma ConsKeepsOrder(goals: seq<Goal>, h: nat, t: seq<nat>)
    requires h < |goals| && h !in t
    requires IsOrderOf(goals, t) && SortedByPercentDesc(goals, t)
    requires forall x :: x in t ==> goals[h].autoSavingsPercent >= goals[x].autoSavingsPercent
    ensures IsOrderOf(goals, [h] + t) && SortedByPercentDesc(goals, [h] + t)
  {
    var r := [h] + t;
    forall j, k | 0 <= j < k < |r|
      ensures r[j] != r[k]
      ensures goals[r[j]].autoSavingsPercent >= goals[r[k]].autoSavingsPercent
    {
      assert r[k] == t[k - 1];
      if j > 0 {
        assert r[j] == t[j - 1];
      } else {
        assert r[k] in t;
      }
    }
  }

  /** The first row of a sorted order has the highest percent, and the rest
      is again a sorted order. */
  lemma SortedHead(goals: seq<Goal>, sorted: seq<nat>)
    requires |sorted| > 0 && IsOrderOf(goals, sorted) && SortedByPercentDesc(goals, sorted)
    ensures forall x :: x in sorted ==> goals[sorted[0]].autoSavingsPercent >= goals[x].autoSavingsPercent
    ensures IsOrderOf(goals, sorted[1..]) && SortedByPercentDesc(goals, sorted[1..])
    ensures sorted[0] !in sorted[1..]
    ensures forall x :: x in sorted[1..] ==> x in sorted
  {
    var rest := sorted[1..];
    forall x | x in sorted ensures goals[sorted[0]].autoSavingsPercent >= goals[x].autoSavingsPercent {
      var m :| 0 <= m < |sorted| && sorted[m] == x;
    }
    forall j, k | 0 <= j < k < |rest|
      ensures rest[j] != rest[k]
      ensures goals[rest[j]].autoSavingsPercent >= goals[rest[k]].autoSavingsPercent
    {
      assert rest[j] == sorted[j + 1] && rest[k] == sorted[k + 1];
    }
    forall m | 0 <= m < |rest| ensures rest[m] != sorted[0] {
      assert rest[m] == sorted[m + 1];
    }
  }

  lemma {:induction false} InsertKeepsOrder(goals: seq<Goal>, i: nat, sorted: seq<nat>)
    requires i < |goals| && i !in sorted
    requires IsOrderOf(goals, sorted) && SortedByPercentDesc(goals, sorted)
    ensures IsOrderOf(goals, InsertByPercent(goals, i, sorted))
    ensures SortedByPercentDesc(goals, InsertByPercent(goals, i, sorted))
    decreases |sorted|
  {
    if |sorted| > 0 {
      SortedHead(goals, sorted);
      var rest := sorted[1..];
      if goals[i].autoSavingsPercent > goals[sorted[0]].autoSavingsPercent {
        ConsKeepsOrder(goals, i, sorted);
      } else {
        InsertKeepsOrder(goals, i, rest);
        var tail := InsertByPercent(goals, i, rest);
        assert sorted[0] !in tail;
        ConsKeepsOrder(goals, sorted[0], tail);
        assert InsertByPercent(goals, i, sorted) == [sorted[0]] + tail;
      }
    }
  }

  /** The query's result for the first `n` rows: the rows that take part,
      ordered by percent, highest first. */
  function OrderPrefix(goals: seq<Goal>, n: nat): (o: seq<nat>)
    requires n <= |goals|
    ensures forall j :: 0 <= j < |o| ==> o[j] < n
  {
    if n == 0 then []
    else
      var o := OrderPrefix(goals, n - 1);
      if TakesPart(goals[n - 1]) then
        var r := InsertByPercent(goals, n - 1, o);
        assert forall j :: 0 <= j < |r| ==> r[j] in r;
        r
      else o
  }

  /** The rows `allocateAutoGoalsToGoals` fetches, in the order it visits them
      (`.order('auto_savings_percent', { ascending: false })`; ties keep
      table order). */
  function SelectedOrder(goals: seq<Goal>): seq<nat> {
    OrderPrefix(goals, |goals|)
  }

  lemma {:induction false} OrderPrefixSorted(goals: seq<Goal>, n: nat)
    requires n <= |goals|
    ensures IsOrderOf(goals, OrderPrefix(goals, n))
    ensures SortedByPercentDesc(goals, OrderPrefix(goals, n))
  {
    if n > 0 {
      OrderPrefixSorted(goals, n - 1);
      var o := OrderPrefix(goals, n - 1);
      if TakesPart(goals[n - 1]) {
        assert n - 1 !in o by {
          forall j | 0 <= j < |o| ensures o[j] != n - 1 { }
        }
        InsertKeepsOrder(goals, n - 1, o);
        assert OrderPrefix(goals, n) == InsertByPercent(goals, n - 1, o);
      } else {
        assert OrderPrefix(goals, n) == o;
      }
    }
  }

  lemma {:induction false} OrderPrefixMembers(goals: seq<Goal>, n: nat)
    requires n <= |goals|
    ensures forall i :: 0 <= i < n ==> (i in OrderPrefix(goals, n) <==> TakesPart(goals[i]))
  {
    if n > 0 {
      OrderPrefixMembers(goals, n - 1);
      var o := OrderPrefix(goals, n - 1);
      if TakesPart(goals[n - 1]) {
        InsertedMembers(goals, n, o);
      } else {
        SkippedMembers(goals, n, o);
      }
    }
  }

  /** The rows that take part among the first `n` when row `n - 1` does not. */
  lemma SkippedMembers(goals: seq<Goal>, n: nat, o: seq<nat>)
    requires 0 < n <= |goals| && !TakesPart(goals[n - 1])
    requires o == OrderPrefix(goals, n - 1)
    requires forall i :: 0 <= i < n - 1 ==> (i in o <==> TakesPart(goals[i]))
    ensures forall i :: 0 <= i < n ==> (i in OrderPrefix(goals, n) <==> TakesPart(goals[i]))
  {
    assert OrderPrefix(goals, n) == o;
    assert n - 1 !in o by {
      forall j | 0 <= j < |o| ensures o[j] != n - 1 { }
    }
  }

  /** The rows that take part among the first `n`, after row `n - 1` is
      inserted into the order of the first `n - 1`. */
  lemma InsertedMembers(goals: seq<Goal>, n: nat, o: seq<nat>)
    requires 0 < n <= |goals| && TakesPart(goals[n - 1])
    requires o == OrderPrefix(goals, n - 1)
    requires forall i :: 0 <= i < n - 1 ==> (i in o <==> TakesPart(goals[i]))
    ensures forall i :: 0 <= i < n ==> (i in OrderPrefix(goals, n) <==> TakesPart(goals[i]))
  {
    var r := InsertByPercent(goals, n - 1, o);
    assert OrderPrefix(goals, n) == r;
    forall i | 0 <= i < n ensures i in r <==> TakesPart(goals[i]) {
      assert i in r <==> i == n - 1 || i in o;
    }
  }

  /** The visiting order lists every goal that takes part exactly once, no
      other goal, and goes from the highest percent to the lowest. */
  lemma SelectedOrderSpec(goals: seq<Goal>)
    ensures IsOrderOf(goals, SelectedOrder(goals))
    ensures SortedByPercentDesc(goals, SelectedOrder(goals))
    ensures forall i :: 0 <= i < |goals| ==> (i in SelectedOrder(goals) <==> TakesPart(goals[i]))
  {
    OrderPrefixSorted(goals, |goals|);
    OrderPrefixMembers(goals, |goals|);
  }

  lemma SelectedOrderIsOrder(goals: seq<Goal>)
    ensures IsOrderOf(goals, SelectedOrder(goals))
  {
    OrderPrefixSorted(goals, |goals|);
  }

  /** The percents of the visited goals, in visiting order. */
  function Percents(goals: seq<Goal>, order: seq<nat>): (p: seq<real>)
    requires forall j :: 0 <= j < |order| ==> order[j] < |goals|
    ensures |p| == |order|
  {
    seq(|order|, j requires 0 <= j < |order| => goals[order[j]].autoSavingsPercent)
  }

  /** The share of the goal at position `i`: its proportional part rounded up
      to cents, or, for the last goal, what is left to allocate. */
  function ShareAt(amount: real, total: real, pcts: seq<real>, i: nat, remaining: real): real
    requires i < |pcts| && total != 0.0
  {
    if i < |pcts| - 1 then RoundUpToCents(amount * pcts[i] / total)
    else RoundUpToCents(remaining)
  }

  /** `ShareAt` by cases, with the proportional part already computed. */
  lemma ShareAtCases(amount: real, total: real, pcts: seq<real>, i: nat, remaining: real, raw: real)
    requires i < |pcts| && total != 0.0 && raw == amount * pcts[i] / total
    ensures i < |pcts| - 1 ==> ShareAt(amount, total, pcts, i, remaining) == RoundUpToCents(raw)
    ensures i == |pcts| - 1 ==> ShareAt(amount, total, pcts, i, remaining) == RoundUpToCents(remaining)
  {
  }

  /** `remainingToAllocate` after the first `k` goals. */
  function RemainingAfter(amount: real, total: real, pcts: seq<real>, k: nat): real
    requires k <= |pcts| && total != 0.0
  {
    if k == 0 then RoundUpToCents(amount)
    else
      var rem := RemainingAfter(amount, total, pcts, k - 1);
      RoundUpToCents(rem - ShareAt(amount, total, pcts, k - 1, rem))
  }

  function Share(amount: real, total: real, pcts: seq<real>, i: nat): real
    requires i < |pcts| && total != 0.0
  {
    ShareAt(amount, total, pcts, i, RemainingAfter(amount, total, pcts, i))
  }

  /** The sum of the first `k` shares. */
  function SharesSum(amount: real, total: real, pcts: seq<real>, k: nat): real
    requires k <= |pcts| && total != 0.0
  {
    if k == 0 then 0.0 else SharesSum(amount, total, pcts, k - 1) + Share(amount, total, pcts, k - 1)
  }

  lemma {:induction false} RemainingTracksShares(amount: real, total: real, pcts: seq<real>, k: nat)
    requires k <= |pcts| && total != 0.0
    ensures CentAligned(RemainingAfter(amount, total, pcts, k))
    ensures RemainingAfter(amount, total, pcts, k) == RoundUpToCents(amount) - SharesSum(amount, total, pcts, k)
  {
    if k > 0 {
      RemainingTracksShares(amount, total, pcts, k - 1);
      var rem := RemainingAfter(amount, total, pcts, k - 1);
      AlignedSub(rem, ShareAt(amount, total, pcts, k - 1, rem));
    }
  }

  /** The shares add up to the rounded deposit, to the cent, and nothing is
      left to allocate afterwards. */
  lemma SharesSumExactly(amount: real, total: real, pcts: seq<real>)
    requires |pcts| > 0 && total != 0.0
    ensures SharesSum(amount, total, pcts, |pcts|) == RoundUpToCents(amount)
    ensures RemainingAfter(amount, total, pcts, |pcts|) == 0.0
  {
    var n := |pcts|;
    RemainingTracksShares(amount, total, pcts, n - 1);
    RemainingTracksShares(amount, total, pcts, n);
  }

  /** Every share is a whole number of cents. */
  lemma ShareAligned(amount: real, total: real, pcts: seq<real>, i: nat)
    requires i < |pcts| && total != 0.0
    ensures CentAligned(Share(amount, total, pcts, i))
  {
  }

  /** `roundUpToCents(current + share)`, and whether the write is skipped
      because the change is below half a cent. */
  function NewAmount(current: real, share: real): real {
    RoundUpToCents(current + share)
  }

  predicate SkipsWrite(current: real, share: real) {
    Abs(NewAmount(current, share) - current) < 0.005
  }

  /** The amount a visited goal ends with: unchanged when the write is
      skipped, `NewAmount` otherwise. */
  function AmountAfterWrite(current: real, share: real): real {
    if SkipsWrite(current, share) then current else NewAmount(current, share)
  }

  /** One iteration's write to row `idx`. */
  function WriteAt(t: seq<Goal>, idx: nat, current: real, share: real): (r: seq<Goal>)
    requires idx < |t|
    ensures |r| == |t|
  {
    if SkipsWrite(current, share) then t
    else t[idx := t[idx].(currentAmount := NewAmount(current, share))]
  }

  /** The goals table after the first `k` visited goals were written; every
      write uses the amount read before the loop (`snapshot`). */
  function Applied(table: seq<Goal>, snapshot: seq<Goal>, order: seq<nat>, amount: real, total: real, pcts: seq<real>, k: nat): (t: seq<Goal>)
    requires |table| == |snapshot| && IsOrderOf(snapshot, order) && |pcts| == |order|
    requires k <= |order| && total != 0.0
    ensures |t| == |table|
  {
    if k == 0 then table
    else
      var idx := order[k - 1];
      WriteAt(Applied(table, snapshot, order, amount, total, pcts, k - 1), idx,
              snapshot[idx].currentAmount, Share(amount, total, pcts, k - 1))
  }

  /** One iteration of the allocation loop in terms of the values it
      computes: the share, the amount left and the new current amount. */
  lemma LoopStep(snapshot: seq<Goal>, order: seq<nat>, amount: real, total: real, pcts: seq<real>, k: nat,
                 remaining: real, share: real, newAmount: real)
    requires IsOrderOf(snapshot, order) && |pcts| == |order| && k < |order| && total != 0.0
    requires remaining == RemainingAfter(amount, total, pcts, k)
    requires share == ShareAt(amount, total, pcts, k, remaining)
    requires newAmount == NewAmount(snapshot[order[k]].currentAmount, share)
    ensures RemainingAfter(amount, total, pcts, k + 1) == RoundUpToCents(remaining - share)
    ensures var t := Applied(snapshot, snapshot, order, amount, total, pcts, k);
      Applied(snapshot, snapshot, order, amount, total, pcts, k + 1)
      == if Abs(newAmount - snapshot[order[k]].currentAmount) >= 0.005
         then t[order[k] := t[order[k]].(currentAmount := newAmount)] else t
  {
  }

  /** The goals table after `allocateAutoGoalsToGoals(amount)`. */
  function AllocateToGoals(goals: seq<Goal>, amount: real): seq<Goal> {
    var order := SelectedOrder(goals);
    SelectedOrderIsOrder(goals);
    var pcts := Percents(goals, order);
    var total := Sum(pcts);
    if |order| == 0 || total == 0.0 then goals
    else Applied(goals, goals, order, amount, total, pcts, |order|)
  }

  /** Sum of the goals' current amounts. */
  function SumCurrent(goals: seq<Goal>): real {
    if |goals| == 0 then 0.0 else SumCurrent(goals[..|goals| - 1]) + goals[|goals| - 1].currentAmount
  }

  lemma {:induction false} SumCurrentUpdate(goals: seq<Goal>, i: nat, g: Goal)
    requires i < |goals|
    ensures SumCurrent(goals[i := g]) == SumCurrent(goals) - goals[i].currentAmount + g.currentAmount
    decreases |goals|
  {
    var n := |goals|;
    var u := goals[i := g];
    if i < n - 1 {
      assert u[..n - 1] == goals[..n - 1][i := g];
      SumCurrentUpdate(goals[..n - 1], i, g);
    } else {
      assert u[..n - 1] == goals[..n - 1];
    }
  }

  lemma NotEarlier(order: seq<nat>, k: nat)
    requires Distinct(order) && k < |order|
    ensures order[k] !in order[..k]
  {
    forall m | 0 <= m < k ensures order[..k][m] != order[k] { }
  }

  /** A row the first `k` writes did not visit is as it was. */
  lemma {:induction false} AppliedUnvisited(table: seq<Goal>, order: seq<nat>, amount: real, total: real, pcts: seq<real>, k: nat, j: nat)
    requires IsOrderOf(table, order) && |pcts| == |order| && k <= |order| && total != 0.0
    requires j < |table| && j !in order[..k]
    ensures Applied(table, table, order, amount, total, pcts, k)[j] == table[j]
  {
    if k > 0 {
      assert order[..k] == order[..k - 1] + [order[k - 1]];
      AppliedUnvisited(table, order, amount, total, pcts, k - 1, j);
    }
  }

  /** A write changes a row's current amount and nothing else. */
  lemma {:induction false} AppliedShape(table: seq<Goal>, order: seq<nat>, amount: real, total: real, pcts: seq<real>, k: nat, j: nat)
    requires IsOrderOf(table, order) && |pcts| == |order| && k <= |order| && total != 0.0
    requires j < |table|
    ensures Applied(table, table, order, amount, total, pcts, k)[j]
      == table[j].(currentAmount := Applied(table, table, order, amount, total, pcts, k)[j].currentAmount)
  {
    if k > 0 {
      AppliedShape(table, order, amount, total, pcts, k - 1, j);
    }
  }

  /** After `k` writes, the goal at position `p < k` holds the amount the loop
      computed for it from its amount before the loop and its share. */
  lemma {:induction false} AppliedVisited(table: seq<Goal>, order: seq<nat>, amount: real, total: real, pcts: seq<real>, k: nat, p: nat)
    requires IsOrderOf(table, order) && |pcts| == |order| && p < k <= |order| && total != 0.0
    ensures Applied(table, table, order, amount, total, pcts, k)[order[p]].currentAmount
      == AmountAfterWrite(table[order[p]].currentAmount, Share(amount, total, pcts, p))
  {
    if p == k - 1 {
      NotEarlier(order, p);
      AppliedUnvisited(table, order, amount, total, pcts, k - 1, order[p]);
    } else {
      AppliedVisited(table, order, amount, total, pcts, k - 1, p);
      assert order[p] != order[k - 1];
    }
  }

  /** Rows outside the selection keep their values, a visited row changes in
      its current amount only, and the goal visited at position `p` ends with
      `roundUpToCents(current + share)` unless that write is skipped. */
  lemma AllocateFrame(goals: seq<Goal>, amount: real)
    ensures |AllocateToGoals(goals, amount)| == |goals|
    ensures forall i :: 0 <= i < |goals| && !TakesPart(goals[i]) ==>
      AllocateToGoals(goals, amount)[i] == goals[i]
    ensures forall i :: 0 <= i < |goals| ==>
      AllocateToGoals(goals, amount)[i] == goals[i].(currentAmount := AllocateToGoals(goals, amount)[i].currentAmount)
  {
    var order := SelectedOrder(goals);
    SelectedOrderSpec(goals);
    var pcts := Percents(goals, order);
    var total := Sum(pcts);
    if |order| > 0 && total != 0.0 {
      var n := |order|;
      assert order[..n] == order;
      forall i | 0 <= i < |goals|
        ensures !TakesPart(goals[i]) ==> AllocateToGoals(goals, amount)[i] == goals[i]
        ensures AllocateToGoals(goals, amount)[i] == goals[i].(currentAmount := AllocateToGoals(goals, amount)[i].currentAmount)
      {
        AppliedShape(goals, order, amount, total, pcts, n, i);
        if !TakesPart(goals[i]) {
          AppliedUnvisited(goals, order, amount, total, pcts, n, i);
        }
      }
    }
  }

  /** The goal visited at position `p` ends with the amount the loop computed
      for it. */
  lemma AllocateVisited(goals: seq<Goal>, amount: real, p: nat)
    requires p < |SelectedOrder(goals)|
    requires Sum(Percents(goals, SelectedOrder(goals))) != 0.0
    ensures SelectedOrder(goals)[p] < |goals|
    ensures
      var order := SelectedOrder(goals);
      var pcts := Percents(goals, order);
      AllocateToGoals(goals, amount)[order[p]].currentAmount
        == AmountAfterWrite(goals[order[p]].currentAmount, Share(amount, Sum(pcts), pcts, p))
  {
    SelectedOrderSpec(goals);
    var order := SelectedOrder(goals);
    AppliedVisited(goals, order, amount, Sum(Percents(goals, order)), Percents(goals, order), |order|, p);
  }

  lemma {:induction false} NothingSelectedEmptyOrder(goals: seq<Goal>, n: nat)
    requires n <= |goals|
    requires forall i :: 0 <= i < n ==> !TakesPart(goals[i])
    ensures OrderPrefix(goals, n) == []
  {
    if n > 0 {
      NothingSelectedEmptyOrder(goals, n - 1);
    }
  }

  /** With no goal taking part the table is left as it is. */
  lemma NoSelectedGoalsNoChange(goals: seq<Goal>, amount: real)
    requires forall i :: 0 <= i < |goals| ==> !TakesPart(goals[i])
    ensures AllocateToGoals(goals, amount) == goals
  {
    NothingSelectedEmptyOrder(goals, |goals|);
  }

  /** Cent conservation: when every current amount is a whole number of cents
      and some goal takes part, the current amounts grow in total by exactly
      the rounded deposit. */
  lemma AllocationConservesCents(goals: seq<Goal>, amount: real)
    requires forall i :: 0 <= i < |goals| ==> CentAligned(goals[i].currentAmount)
    requires exists i :: 0 <= i < |goals| && TakesPart(goals[i])
    ensures SumCurrent(AllocateToGoals(goals, amount)) == SumCurrent(goals) + RoundUpToCents(amount)
  {
    var order := SelectedOrder(goals);
    SelectedOrderSpec(goals);
    var i :| 0 <= i < |goals| && TakesPart(goals[i]);
    assert i in order;
    var pcts := Percents(goals, order);
    assert forall j :: 0 <= j < |pcts| ==> pcts[j] > 0.0 by {
      forall j | 0 <= j < |pcts| ensures pcts[j] > 0.0 {
        assert order[j] in order;
      }
    }
    SumPositive(pcts);
    var total := Sum(pcts);
    AppliedSum(goals, order, amount, total, pcts, |order|);
    SharesSumExactly(amount, total, pcts);
  }

  lemma {:induction false} AppliedSum(table: seq<Goal>, order: seq<nat>, amount: real, total: real, pcts: seq<real>, k: nat)
    requires IsOrderOf(table, order) && |pcts| == |order| && k <= |order| && total != 0.0
    requires forall i :: 0 <= i < |table| ==> CentAligned(table[i].currentAmount)
    ensures SumCurrent(Applied(table, table, order, amount, total, pcts, k))
      == SumCurrent(table) + SharesSum(amount, total, pcts, k)
  {
    if k > 0 {
      AppliedSum(table, order, amount, total, pcts, k - 1);
      AppliedSumStep(table, order, amount, total, pcts, k);
    }
  }

  /** The `k`-th write adds the `k`-th share to the table's total. */
  lemma AppliedSumStep(table: seq<Goal>, order: seq<nat>, amount: real, total: real, pcts: seq<real>, k: nat)
    requires IsOrderOf(table, order) && |pcts| == |order| && 0 < k <= |order| && total != 0.0
    requires forall i :: 0 <= i < |table| ==> CentAligned(table[i].currentAmount)
    ensures SumCurrent(Applied(table, table, order, amount, total, pcts, k))
      == SumCurrent(Applied(table, table, order, amount, total, pcts, k - 1)) + Share(amount, total, pcts, k - 1)
  {
    var t := Applied(table, table, order, amount, total, pcts, k - 1);
    var idx := order[k - 1];
    var share := Share(amount, total, pcts, k - 1);
    assert Applied(table, table, order, amount, total, pcts, k) == WriteAt(t, idx, table[idx].currentAmount, share);
    NotEarlier(order, k - 1);
    AppliedUnvisited(table, order, amount, total, pcts, k - 1, idx);
    ShareAligned(amount, total, pcts, k - 1);
    WriteAtSum(t, idx, table[idx].currentAmount, share);
  }

  /** A write of a whole-cent share to a whole-cent amount adds exactly the
      share to the table's total. */
  lemma WriteAtSum(t: seq<Goal>, idx: nat, cur: real, share: real)
    requires idx < |t| && t[idx].currentAmount == cur
    requires CentAligned(cur) && CentAligned(share)
    ensures SumCurrent(WriteAt(t, idx, cur, share)) == SumCurrent(t) + share
  {
    AlignedAdd(cur, share);
    assert NewAmount(cur, share) == cur + share;
    if SkipsWrite(cur, share) {
      AlignedNearZero(share);
    } else {
      SumCurrentUpdate(t, idx, t[idx].(currentAmount := NewAmount(cur, share)));
    }
  }

  /** The last goal takes exactly what the earlier shares left of the rounded
      deposit, so once their round-ups reach it, its share is zero or
      negative. */
  lemma LastShareIsRemainder(amount: real, total: real, pcts: seq<real>)
    requires |pcts| > 0 && total != 0.0
    ensures Share(amount, total, pcts, |pcts| - 1)
         == RoundUpToCents(amount) - SharesSum(amount, total, pcts, |pcts| - 1)
    ensures SharesSum(amount, total, pcts, |pcts| - 1) >= RoundUpToCents(amount) ==>
      Share(amount, total, pcts, |pcts| - 1) <= 0.0
  {
    RemainingTracksShares(amount, total, pcts, |pcts| - 1);
  }

  /** The last goal's share can come out negative: a deposit of one cent over
      three goals with equal percents gives the first two goals a cent each
      and takes a cent from the third. */
  lemma LastShareCanBeNegative()
    ensures Share(0.01, 3.0, [1.0, 1.0, 1.0], 0) == 0.01
    ensures Share(0.01, 3.0, [1.0, 1.0, 1.0], 1) == 0.01
    ensures Share(0.01, 3.0, [1.0, 1.0, 1.0], 2) == -0.01
  {
    var p := [1.0, 1.0, 1.0];
    assert RoundUpToCents(0.01) == 0.01;
    assert RoundUpToCents(0.01 * 1.0 / 3.0) == 0.01 by {
      assert Ceil(0.01 * 1.0 / 3.0 * 100.0) == 1;
    }
    assert RemainingAfter(0.01, 3.0, p, 1) == 0.0;
    assert RemainingAfter(0.01, 3.0, p, 2) == -0.01;
  }
}
