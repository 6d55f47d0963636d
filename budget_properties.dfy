/** What the daily budget engine promises: how the base is carried over from
    yesterday, which percents apply, that incomes only ever add to the
    limit, that only the call which inserted the day's row books the
    automatic deposits, that a second calculation changes nothing, and how
    the screen figures relate to the stored row. */
module BudgetProperties {
  import opened Wrappers
  import opened Calendar
  import opened BudgetArithmetic
  import opened GoalAllocation
  import opened BudgetEngine

  /** Appending one transaction adds its contribution. */
  lemma TotalAppend(txs: seq<Tx>, t: Tx, r: Reduction, d: Date)
    ensures Total(txs + [t], r, d) == Total(txs, r, d) + Contribution(r, d, t)
  {
    assert (txs + [t])[..|txs|] == txs;
  }

  /** Transactions that contribute nothing to a sum leave it unchanged. */
  lemma {:induction false} TotalOfExtension(txs: seq<Tx>, ext: seq<Tx>, r: Reduction, d: Date)
    requires |txs| <= |ext| && ext[..|txs|] == txs
    requires forall i :: |txs| <= i < |ext| ==> Contribution(r, d, ext[i]) == 0.0
    ensures Total(ext, r, d) == Total(txs, r, d)
    decreases |ext|
  {
    if |ext| > |txs| {
      var init := ext[..|ext| - 1];
      assert init[..|txs|] == txs;
      TotalOfExtension(txs, init, r, d);
    } else {
      assert ext == txs;
    }
  }

  /** Today's variable incomes are never positive in sum. */
  lemma {:induction false} IncomesNotPositive(txs: seq<Tx>, d: Date)
    ensures Total(txs, IncomesOn, d) <= 0.0
    decreases |txs|
  {
    if |txs| > 0 {
      IncomesNotPositive(txs[..|txs| - 1], d);
    }
  }

  /** Today's expenses are never negative in sum. */
  lemma {:induction false} ExpensesNotNegative(txs: seq<Tx>, d: Date)
    ensures Total(txs, ExpensesOn, d) >= 0.0
    decreases |txs|
  {
    if |txs| > 0 {
      ExpensesNotNegative(txs[..|txs| - 1], d);
    }
  }

  /** With no usable row for yesterday (the first of the month, or no base
      stored yesterday) nothing is carried over and the base is the month's
      net fixed amount spread evenly over its days. */
  lemma FixedBaseWithoutHistory(s: Store, d: Date)
    requires IsValidDate(d)
    requires d.day == 1 || YesterdayBase(s, d).None?
    ensures PlanDay(s, d).leftoverContribution == 0.0
    ensures PlanDay(s, d).baseBeforeAutos * DaysInMonthOf(d) as real == -Sum(s.recurring)
  {
  }

  /** Otherwise yesterday's base carries over, and what was left of it
      (spending on automatic deposits counts as spent) is spread over the
      days that remain, today included. */
  lemma LeftoverSpreadOverRemainingDays(s: Store, d: Date)
    requires IsValidDate(d) && d.day > 1 && YesterdayBase(s, d).Some?
    ensures var p := PlanDay(s, d);
      var yBase := YesterdayBase(s, d).value;
      var spent := Total(s.transactions, SpentOn, Yesterday(d).value);
      p.baseBeforeAutos == yBase + p.leftoverContribution
      && p.leftoverContribution * p.remainingDays as real == yBase - spent
      && (spent < yBase ==> p.baseBeforeAutos > yBase)
      && (spent > yBase ==> p.baseBeforeAutos < yBase)
  {
    var yBase := YesterdayBase(s, d).value;
    var spent := Total(s.transactions, SpentOn, Yesterday(d).value);
    var n := RemainingDaysInclToday(d) as real;
    var q := LeftoverContribution(s, d);
    assert !NoHistory(s, d);
    assert q == (yBase - spent) / n;
    assert BaseBeforeAutos(s, d) == yBase + q;
    SpreadEvenly(yBase - spent, n, q);
    var p := PlanDay(s, d);
    assert p.baseBeforeAutos == BaseBeforeAutos(s, d);
    assert p.leftoverContribution == q;
    assert p.remainingDays as real == n;
  }

  /** A per-day part `q` of `x` over `n` days adds back up to `x`, and has
      the sign of `x`. */
  lemma SpreadEvenly(x: real, n: real, q: real)
    requires n > 0.0 && q == x / n
    ensures q * n == x
    ensures x > 0.0 ==> q > 0.0
    ensures x < 0.0 ==> q < 0.0
    ensures x == 0.0 ==> q == 0.0
  {
  }

  /** Percents stored on today's row are kept; without them the day takes
      yesterday's, each defaulting to 0. */
  lemma PercentsSticky(s: Store, d: Date)
    requires IsValidDate(d)
    ensures var p := PlanDay(s, d);
      HasTodayPercents(s, d) ==>
        p.savingsPercent == s.settings[d].autoSavingsPercent.value
        && p.goalsPercent == s.settings[d].autoGoalsPercent.value
    ensures var p := PlanDay(s, d);
      var y := YesterdaySetting(s, d);
      !HasTodayPercents(s, d) ==>
        p.savingsPercent == (if y.Some? then y.value.autoSavingsPercent.GetOr(0.0) else 0.0)
        && p.goalsPercent == (if y.Some? then y.value.autoGoalsPercent.GetOr(0.0) else 0.0)
  {
  }

  /** A new month starts from the fixed base with no automatic deposits
      unless today's row already holds percents. */
  lemma FirstOfMonthStartsFresh(s: Store, d: Date)
    requires IsValidDate(d) && d.day == 1 && !HasTodayPercents(s, d)
    ensures var p := PlanDay(s, d);
      p.baseBeforeAutos == p.baseFromFixed
      && p.savingsPercent == 0.0 && p.goalsPercent == 0.0
      && p.autoSavingsAmount == 0.0 && p.autoGoalsAmount == 0.0
  {
    var p := PlanDay(s, d);
    assert CentAligned(0.0);
    assert p.baseBeforeAutos * (0.0 / 100.0) == 0.0;
  }

  /** The automatic deposits are taken from the base before incomes, and
      the stored base is never below it: incomes only add. */
  lemma IncomeNeverLowersBase(s: Store, d: Date)
    requires IsValidDate(d)
    ensures var p := PlanDay(s, d);
      p.baseAfterIncomes >= p.baseBeforeAutos
      && p.baseAfterIncomes - p.baseBeforeAutos == -Total(s.transactions, IncomesOn, d) / p.remainingDays as real
  {
    IncomesNotPositive(s.transactions, d);
    var n := RemainingDaysInclToday(d) as real;
    var share := IncomeDistribution(s, d);
    SpreadEvenly(-Total(s.transactions, IncomesOn, d), n, share);
    var p := PlanDay(s, d);
    assert p.baseAfterIncomes == p.baseBeforeAutos + share;
  }

  /** The base before deposits depends only on the recurring transactions,
      yesterday's row and yesterday's spending. */
  lemma BaseFrame(s: Store, s2: Store, d: Date)
    requires IsValidDate(d)
    requires s2.recurring == s.recurring
    requires YesterdaySetting(s2, d) == YesterdaySetting(s, d)
    requires Yesterday(d).Some? ==>
      Total(s2.transactions, SpentOn, Yesterday(d).value) == Total(s.transactions, SpentOn, Yesterday(d).value)
    ensures BaseBeforeAutos(s2, d) == BaseBeforeAutos(s, d)
  {
    assert YesterdayBase(s2, d) == YesterdayBase(s, d);
    assert LeftoverContribution(s2, d) == LeftoverContribution(s, d);
  }

  /** Today's variable incomes spread over the remaining days, before and
      after one more income. */
  lemma IncomeDistributionAppend(s: Store, d: Date, t: Tx)
    requires IsValidDate(d)
    requires t.date == d && t.amount < 0.0 && !t.isSavingsOp
    ensures IncomeDistribution(s.(transactions := s.transactions + [t]), d) - IncomeDistribution(s, d)
            == -t.amount / RemainingDaysInclToday(d) as real
  {
    TotalAppend(s.transactions, t, IncomesOn, d);
    var before := Total(s.transactions, IncomesOn, d);
    QuotientDifference(-(before + t.amount), -before, RemainingDaysInclToday(d) as real);
  }

  /** A variable income booked today raises today's base by its amount
      spread over the remaining days, and changes neither the base the
      automatic deposits are taken from nor the deposits themselves. */
  lemma TodaysIncomeSpreadOverRemainingDays(s: Store, d: Date, t: Tx)
    requires IsValidDate(d)
    requires t.date == d && t.amount < 0.0 && !t.isSavingsOp
    ensures PlanDay(s.(transactions := s.transactions + [t]), d).baseBeforeAutos == PlanDay(s, d).baseBeforeAutos
    ensures PlanDay(s.(transactions := s.transactions + [t]), d).autoSavingsAmount == PlanDay(s, d).autoSavingsAmount
    ensures PlanDay(s.(transactions := s.transactions + [t]), d).autoGoalsAmount == PlanDay(s, d).autoGoalsAmount
    ensures PlanDay(s.(transactions := s.transactions + [t]), d).baseAfterIncomes
            == PlanDay(s, d).baseAfterIncomes + -t.amount / PlanDay(s, d).remainingDays as real
  {
    var s2 := s.(transactions := s.transactions + [t]);
    if Yesterday(d).Some? {
      TotalAppend(s.transactions, t, SpentOn, Yesterday(d).value);
    }
    assert YesterdaySetting(s2, d) == YesterdaySetting(s, d);
    BaseFrame(s, s2, d);
    assert SavingsPercentFor(s2, d) == SavingsPercentFor(s, d);
    assert GoalsPercentFor(s2, d) == GoalsPercentFor(s, d);
    IncomeDistributionAppend(s, d, t);
  }

  lemma QuotientDifference(x: real, y: real, n: real)
    requires n > 0.0
    ensures x / n - y / n == (x - y) / n
  {
  }

  /** The transactions `ensureAutoTransactionsForDay` leaves: the old ones
      first, then at most the two automatic deposits of that day, each
      positive; whether each was created, when nothing failed. */
  lemma EnsureAutoAppendsDeposits(
    txs: seq<Tx>, d: Date, savingsAmount: real, goalsAmount: real,
    savingsInsert: InsertOutcome, goalsInsert: InsertOutcome)
    ensures var o := EnsureAutoTransactions(txs, d, savingsAmount, goalsAmount, savingsInsert, goalsInsert);
      |txs| <= |o.transactions| <= |txs| + 2
      && o.transactions[..|txs|] == txs
      && (forall i :: |txs| <= i < |o.transactions| ==>
            o.transactions[i].isSavingsOp && o.transactions[i].date == d && o.transactions[i].amount > 0.0)
    ensures var o := EnsureAutoTransactions(txs, d, savingsAmount, goalsAmount, savingsInsert, goalsInsert);
      o.result.Success? ==>
        o.result.value.createdSavings == (savingsAmount > 0.0 && savingsInsert == Inserted)
        && o.result.value.createdGoals == (goalsAmount > 0.0 && goalsInsert == Inserted)
    ensures var o := EnsureAutoTransactions(txs, d, savingsAmount, goalsAmount, savingsInsert, goalsInsert);
      o.result.Failure? <==>
        (savingsAmount > 0.0 && savingsInsert == InsertFailed) || (goalsAmount > 0.0 && goalsInsert == InsertFailed)
  {
    var o := EnsureAutoTransactions(txs, d, savingsAmount, goalsAmount, savingsInsert, goalsInsert);
    var sTx := Tx(AutoSavingsName, savingsAmount, d, true);
    var gTx := Tx(AutoGoalsName, goalsAmount, d, true);
    assert (txs + [sTx])[..|txs|] == txs;
    assert (txs + [gTx])[..|txs|] == txs;
    assert (txs + [sTx] + [gTx])[..|txs|] == txs;
  }

  /** A call that did not insert the day's row -- the row already existed,
      or another caller inserted it first -- only writes the planned row: no
      automatic deposit, no goal change. */
  lemma OnlyInsertingCallBooksDeposits(
    s: Store, d: Date,
    settingsInsert: InsertOutcome, savingsInsert: InsertOutcome, goalsInsert: InsertOutcome)
    requires IsValidDate(d)
    requires d in s.settings || settingsInsert == DuplicateKey
    ensures var row := PlannedRow(PlanDay(s, d));
      CalculateDay(s, d, settingsInsert, savingsInsert, goalsInsert)
        == Outcome(s.(settings := s.settings[d := row]), Success(row))
  {
  }

  /** A failed insert of a new day's row (other than a duplicate) changes
      nothing and is raised. */
  lemma SettingsInsertFailureChangesNothing(s: Store, d: Date, savingsInsert: InsertOutcome, goalsInsert: InsertOutcome)
    requires IsValidDate(d) && d !in s.settings
    ensures CalculateDay(s, d, InsertFailed, savingsInsert, goalsInsert) == Outcome(s, Failure(SettingsInsertFailed))
  {
  }

  /** A text that is not a `YYYY-MM-DD` day changes nothing. */
  lemma InvalidDateChangesNothing(
    s: Store, date: string,
    settingsInsert: InsertOutcome, savingsInsert: InsertOutcome, goalsInsert: InsertOutcome)
    requires ParseLocalDate(date).None?
    ensures Calculate(s, date, settingsInsert, savingsInsert, goalsInsert) == Outcome(s, Failure(InvalidDate))
  {
  }

  /** What any call on a day leaves behind: the recurring transactions
      untouched, the old transactions followed only by automatic deposits of
      that day, and, on success, the planned row stored for the day. */
  lemma CalculateShape(
    s: Store, d: Date,
    settingsInsert: InsertOutcome, savingsInsert: InsertOutcome, goalsInsert: InsertOutcome)
    requires IsValidDate(d)
    ensures var out := CalculateDay(s, d, settingsInsert, savingsInsert, goalsInsert);
      out.store.recurring == s.recurring
      && |s.transactions| <= |out.store.transactions|
      && out.store.transactions[..|s.transactions|] == s.transactions
      && forall i :: |s.transactions| <= i < |out.store.transactions| ==>
           out.store.transactions[i].isSavingsOp && out.store.transactions[i].date == d
    ensures var out := CalculateDay(s, d, settingsInsert, savingsInsert, goalsInsert);
      out.result.Success? ==>
        out.result.value == PlannedRow(PlanDay(s, d))
        && out.store.settings == s.settings[d := out.result.value]
  {
    if d in s.settings || settingsInsert == DuplicateKey {
      OnlyInsertingCallBooksDeposits(s, d, settingsInsert, savingsInsert, goalsInsert);
    } else if settingsInsert == InsertFailed {
      SettingsInsertFailureChangesNothing(s, d, savingsInsert, goalsInsert);
    } else {
      InsertingCallShape(s, d, savingsInsert, goalsInsert);
      var p := PlanDay(s, d);
      EnsureAutoAppendsDeposits(s.transactions, d, p.autoSavingsAmount, p.autoGoalsAmount, savingsInsert, goalsInsert);
    }
  }

  /** The call that inserted a new day's row keeps the recurring
      transactions, leaves the transactions `ensureAutoTransactionsForDay`
      leaves and, on success, has stored the planned row. */
  lemma InsertingCallShape(s: Store, d: Date, savingsInsert: InsertOutcome, goalsInsert: InsertOutcome)
    requires IsValidDate(d) && d !in s.settings
    ensures var p := PlanDay(s, d);
      var out := CalculateDay(s, d, Inserted, savingsInsert, goalsInsert);
      out.store.recurring == s.recurring
      && out.store.transactions
         == EnsureAutoTransactions(s.transactions, d, p.autoSavingsAmount, p.autoGoalsAmount, savingsInsert, goalsInsert).transactions
      && (out.result.Success? ==> out.result.value == PlannedRow(p) && out.store.settings == s.settings[d := PlannedRow(p)])
  {
    var p := PlanDay(s, d);
    var row := PlannedRow(p);
    var autos := EnsureAutoTransactions(s.transactions, d, p.autoSavingsAmount, p.autoGoalsAmount, savingsInsert, goalsInsert);
    var booked := s.(settings := s.settings[d := row], transactions := autos.transactions);
    var out := CalculateDay(s, d, Inserted, savingsInsert, goalsInsert);
    assert p.isNew;
    if autos.result.Failure? {
      assert out == Outcome(booked, Failure(autos.result.error));
    } else {
      var amount := ReReadAutoGoalsAmount(booked.transactions, d);
      assert out.result == Success(row);
      assert out.store == if amount > 0.0 then booked.(goals := AllocateToGoals(booked.goals, amount)) else booked;
    }
  }

  /** Appended automatic deposits of day `d` count neither as income of `d`
      nor as spending of the day before. */
  lemma DepositsLeaveSumsAlone(txs: seq<Tx>, ext: seq<Tx>, d: Date)
    requires IsValidDate(d)
    requires |txs| <= |ext| && ext[..|txs|] == txs
    requires forall i :: |txs| <= i < |ext| ==> ext[i].isSavingsOp && ext[i].date == d
    ensures Total(ext, IncomesOn, d) == Total(txs, IncomesOn, d)
    ensures Yesterday(d).Some? ==> Total(ext, SpentOn, Yesterday(d).value) == Total(txs, SpentOn, Yesterday(d).value)
  {
    forall i | |txs| <= i < |ext|
      ensures Contribution(IncomesOn, d, ext[i]) == 0.0
    {
    }
    TotalOfExtension(txs, ext, IncomesOn, d);
    if Yesterday(d).Some? {
      var y := Yesterday(d).value;
      forall i | |txs| <= i < |ext|
        ensures Contribution(SpentOn, y, ext[i]) == 0.0
      {
        assert ext[i].date != y;
      }
      TotalOfExtension(txs, ext, SpentOn, y);
    }
  }

  /** Planning a day again once its row holds the planned percents, with
      yesterday and the sums the base depends on unchanged, gives the same
      row. */
  lemma ReplanSameRow(s: Store, s1: Store, d: Date)
    requires IsValidDate(d)
    requires s1.recurring == s.recurring
    requires YesterdaySetting(s1, d) == YesterdaySetting(s, d)
    requires Yesterday(d).Some? ==>
      Total(s1.transactions, SpentOn, Yesterday(d).value) == Total(s.transactions, SpentOn, Yesterday(d).value)
    requires Total(s1.transactions, IncomesOn, d) == Total(s.transactions, IncomesOn, d)
    requires d in s1.settings && s1.settings[d] == PlannedRow(PlanDay(s, d))
    ensures PlannedRow(PlanDay(s1, d)) == PlannedRow(PlanDay(s, d))
  {
    BaseFrame(s, s1, d);
    assert HasTodayPercents(s1, d);
    assert SavingsPercentFor(s1, d) == SavingsPercentFor(s, d);
    assert GoalsPercentFor(s1, d) == GoalsPercentFor(s, d);
    assert IncomeDistribution(s1, d) == IncomeDistribution(s, d);
  }

  /** Calculating the same day again right after a successful calculation
      changes nothing and gives the same row, whatever the inserts would
      answer: the stored percents are kept, yesterday is untouched and the
      automatic deposits count neither as yesterday's spending nor as
      today's income. */
  lemma CalculateIdempotent(
    s: Store, d: Date,
    settingsInsert: InsertOutcome, savingsInsert: InsertOutcome, goalsInsert: InsertOutcome,
    settingsInsert2: InsertOutcome, savingsInsert2: InsertOutcome, goalsInsert2: InsertOutcome)
    requires IsValidDate(d)
    requires CalculateDay(s, d, settingsInsert, savingsInsert, goalsInsert).result.Success?
    ensures var out := CalculateDay(s, d, settingsInsert, savingsInsert, goalsInsert);
      CalculateDay(out.store, d, settingsInsert2, savingsInsert2, goalsInsert2) == out
  {
    var out := CalculateDay(s, d, settingsInsert, savingsInsert, goalsInsert);
    CalculateShape(s, d, settingsInsert, savingsInsert, goalsInsert);
    var s1 := out.store;
    var row := out.result.value;
    DepositsLeaveSumsAlone(s.transactions, s1.transactions, d);
    assert YesterdaySetting(s1, d) == YesterdaySetting(s, d);
    ReplanSameRow(s, s1, d);
    OnlyInsertingCallBooksDeposits(s1, d, settingsInsert2, savingsInsert2, goalsInsert2);
    assert s1.(settings := s1.settings[d := row]) == s1;
    assert out == Outcome(s1, Success(row));
  }

  lemma AutoNamesDiffer()
    ensures AutoSavingsName != AutoGoalsName
  {
    assert AutoSavingsName[13] != AutoGoalsName[13];
  }

  /** The call that inserted a new day's row, when no deposit insert failed:
      it books the deposits, then spreads the re-read goal deposit, if
      positive, over the goals. */
  lemma InsertingCallSteps(s: Store, d: Date, savingsInsert: InsertOutcome, goalsInsert: InsertOutcome)
    requires IsValidDate(d) && d !in s.settings
    requires savingsInsert != InsertFailed && goalsInsert != InsertFailed
    ensures var p := PlanDay(s, d);
      var out := CalculateDay(s, d, Inserted, savingsInsert, goalsInsert);
      var booked := EnsureAutoTransactions(s.transactions, d, p.autoSavingsAmount, p.autoGoalsAmount, savingsInsert, goalsInsert).transactions;
      var reread := ReReadAutoGoalsAmount(booked, d);
      out.result == Success(PlannedRow(p))
      && out.store.transactions == booked
      && out.store.goals == (if reread > 0.0 then AllocateToGoals(s.goals, reread) else s.goals)
  {
    var p := PlanDay(s, d);
    var autos := EnsureAutoTransactions(s.transactions, d, p.autoSavingsAmount, p.autoGoalsAmount, savingsInsert, goalsInsert);
    assert autos.result.Success?;
  }

  /** The day's automatic sums after `ensureAutoTransactionsForDay`, when no
      insert failed: each grows by its amount when that amount is positive
      and its insert went through. */
  lemma EnsureAutoSums(txs: seq<Tx>, d: Date, savingsAmount: real, goalsAmount: real,
                       savingsInsert: InsertOutcome, goalsInsert: InsertOutcome)
    requires savingsInsert != InsertFailed && goalsInsert != InsertFailed
    ensures var o := EnsureAutoTransactions(txs, d, savingsAmount, goalsAmount, savingsInsert, goalsInsert).transactions;
      Total(o, AutoOn(AutoSavingsName), d)
        == Total(txs, AutoOn(AutoSavingsName), d)
           + (if savingsAmount > 0.0 && savingsInsert == Inserted then savingsAmount else 0.0)
      && Total(o, AutoOn(AutoGoalsName), d)
        == Total(txs, AutoOn(AutoGoalsName), d)
           + (if goalsAmount > 0.0 && goalsInsert == Inserted then goalsAmount else 0.0)
  {
    var sTx := Tx(AutoSavingsName, savingsAmount, d, true);
    var gTx := Tx(AutoGoalsName, goalsAmount, d, true);
    var mid := if savingsAmount > 0.0 && savingsInsert == Inserted then txs + [sTx] else txs;
    var booked := if goalsAmount > 0.0 && goalsInsert == Inserted then mid + [gTx] else mid;
    assert EnsureAutoTransactions(txs, d, savingsAmount, goalsAmount, savingsInsert, goalsInsert).transactions == booked;
    AutoNamesDiffer();
    assert Contribution(AutoOn(AutoSavingsName), d, sTx) == savingsAmount;
    assert Contribution(AutoOn(AutoGoalsName), d, sTx) == 0.0;
    assert Contribution(AutoOn(AutoSavingsName), d, gTx) == 0.0;
    assert Contribution(AutoOn(AutoGoalsName), d, gTx) == goalsAmount;
    TotalAppend(txs, sTx, AutoOn(AutoSavingsName), d);
    TotalAppend(txs, sTx, AutoOn(AutoGoalsName), d);
    TotalAppend(mid, gTx, AutoOn(AutoSavingsName), d);
    TotalAppend(mid, gTx, AutoOn(AutoGoalsName), d);
  }

  /** The deposits the inserting call books, seen through the day's sums:
      each automatic sum of the day grows by its amount when that amount is
      positive and its insert went through. */
  lemma InsertingCallBooksDeposits(s: Store, d: Date, savingsInsert: InsertOutcome, goalsInsert: InsertOutcome)
    requires IsValidDate(d) && d !in s.settings
    requires savingsInsert != InsertFailed && goalsInsert != InsertFailed
    ensures var p := PlanDay(s, d);
      var out := CalculateDay(s, d, Inserted, savingsInsert, goalsInsert);
      out.result == Success(PlannedRow(p))
      && Total(out.store.transactions, AutoOn(AutoSavingsName), d)
         == Total(s.transactions, AutoOn(AutoSavingsName), d)
            + (if p.autoSavingsAmount > 0.0 && savingsInsert == Inserted then p.autoSavingsAmount else 0.0)
      && Total(out.store.transactions, AutoOn(AutoGoalsName), d)
         == Total(s.transactions, AutoOn(AutoGoalsName), d)
            + (if p.autoGoalsAmount > 0.0 && goalsInsert == Inserted then p.autoGoalsAmount else 0.0)
  {
    var p := PlanDay(s, d);
    InsertingCallSteps(s, d, savingsInsert, goalsInsert);
    EnsureAutoSums(s.transactions, d, p.autoSavingsAmount, p.autoGoalsAmount, savingsInsert, goalsInsert);
  }

  /** With no goal deposit booked on the day before, the re-read after
      `ensureAutoTransactionsForDay` finds the one just inserted. */
  lemma EnsureAutoReRead(txs: seq<Tx>, d: Date, savingsAmount: real, goalsAmount: real, savingsInsert: InsertOutcome)
    requires savingsInsert != InsertFailed && goalsAmount > 0.0
    requires AutoGoalsRows(txs, d) == []
    ensures ReReadAutoGoalsAmount(
      EnsureAutoTransactions(txs, d, savingsAmount, goalsAmount, savingsInsert, Inserted).transactions, d) == goalsAmount
  {
    var sTx := Tx(AutoSavingsName, savingsAmount, d, true);
    var gTx := Tx(AutoGoalsName, goalsAmount, d, true);
    var mid := if savingsAmount > 0.0 && savingsInsert == Inserted then txs + [sTx] else txs;
    assert EnsureAutoTransactions(txs, d, savingsAmount, goalsAmount, savingsInsert, Inserted).transactions == mid + [gTx];
    AutoNamesDiffer();
    assert (txs + [sTx])[..|txs|] == txs;
    assert AutoGoalsRows(mid, d) == [];
    assert (mid + [gTx])[..|mid|] == mid;
    assert AutoGoalsRows(mid + [gTx], d) == [gTx];
  }

  /** The goal deposit the inserting call books is spread over the goals,
      when it is the day's only goal deposit. */
  lemma InsertingCallAllocatesGoalDeposit(s: Store, d: Date, savingsInsert: InsertOutcome)
    requires IsValidDate(d) && d !in s.settings
    requires savingsInsert != InsertFailed
    requires AutoGoalsRows(s.transactions, d) == []
    requires PlanDay(s, d).autoGoalsAmount > 0.0
    ensures CalculateDay(s, d, Inserted, savingsInsert, Inserted).store.goals
      == AllocateToGoals(s.goals, PlanDay(s, d).autoGoalsAmount)
  {
    var p := PlanDay(s, d);
    InsertingCallSteps(s, d, savingsInsert, Inserted);
    EnsureAutoReRead(s.transactions, d, p.autoSavingsAmount, p.autoGoalsAmount, savingsInsert);
  }

  /** The screen figures: the limit is the stored base less the day's
      automatic deposits, what is left is the limit less the day's
      expenses, and there is always at least one day left. */
  lemma BuildInfoFigures(s: Store, date: string)
    ensures BuildInfo(s, date).Success? <==> ParseLocalDate(date).Some? && ParseLocalDate(date).value in s.settings
    ensures BuildInfo(s, date).Failure? && ParseLocalDate(date).None? ==> BuildInfo(s, date).error == InvalidDate
    ensures var r := BuildInfo(s, date);
      r.Success? ==>
        var d := ParseLocalDate(date).value;
        r.value.dailyBudgetLimit
          == s.settings[d].dailyBudgetLimit.GetOr(0.0)
             - Total(s.transactions, AutoOn(AutoSavingsName), d) - Total(s.transactions, AutoOn(AutoGoalsName), d)
        && r.value.dailyBudgetLeft == r.value.dailyBudgetLimit - r.value.todaysExpenses
        && r.value.todaysExpenses >= 0.0
        && 1 <= r.value.daysRemaining <= DaysInMonthOf(d)
        && r.value.totalAvailableIncome == -Sum(s.recurring) + Total(s.transactions, IncomesMonthToDate, d)
  {
    if ParseLocalDate(date).Some? {
      ExpensesNotNegative(s.transactions, ParseLocalDate(date).value);
    }
  }

  /** After a successful calculation the day's figures can be shown, with
      the percents that were stored, and limit plus the day's automatic
      deposits is the stored base. */
  lemma CalculatedDayCanBeShown(
    s: Store, date: string,
    settingsInsert: InsertOutcome, savingsInsert: InsertOutcome, goalsInsert: InsertOutcome)
    requires Calculate(s, date, settingsInsert, savingsInsert, goalsInsert).result.Success?
    ensures var out := Calculate(s, date, settingsInsert, savingsInsert, goalsInsert);
      var d := ParseLocalDate(date).value;
      var p := PlanDay(s, d);
      var r := BuildInfo(out.store, date);
      r.Success?
      && r.value.autoSavingsPercent == p.savingsPercent
      && r.value.autoGoalsPercent == p.goalsPercent
      && r.value.dailyBudgetLimit + r.value.autoSavingsAmount + r.value.autoGoalsAmount == p.baseAfterIncomes
  {
    CalculateShape(s, ParseLocalDate(date).value, settingsInsert, savingsInsert, goalsInsert);
  }

  /** `getCurrentDayBudget` on any day of a four-digit year never reports
      an invalid date, and what it shows is labelled with that day. */
  lemma CurrentDayBudgetOnValidDay(
    s: Store, today: Date,
    settingsInsert: InsertOutcome, savingsInsert: InsertOutcome, goalsInsert: InsertOutcome)
    requires IsValidDate(today) && 1000 <= today.year <= 9999
    ensures var out := CurrentDayBudget(s, today, settingsInsert, savingsInsert, goalsInsert);
      out.result != Failure(InvalidDate)
      && (out.result.Success? ==> out.result.value.date == FormatLocalDate(today))
      && (settingsInsert != InsertFailed && savingsInsert != InsertFailed && goalsInsert != InsertFailed
          ==> out.result.Success?)
  {
    ParseFormatRoundTrip(today);
    CalculateShape(s, today, settingsInsert, savingsInsert, goalsInsert);
  }

  /** A worked carry-over: yesterday's base was 50 and 30 was spent, ten
      days remain (21 November 2024), so today's base is 52, and with 10 %
      and 15 % the deposits are 5.20 and 7.80. */
  lemma CarryOverExample()
    ensures var yesterday := Date(2024, 11, 20);
      var today := Date(2024, 11, 21);
      var s := Store(
        map[yesterday := Setting(Some(50.0), Some(10.0), Some(15.0))],
        [Tx("Zakupy", 30.0, yesterday, false)],
        [],
        []);
      var p := PlanDay(s, today);
      p.remainingDays == 10
      && p.baseBeforeAutos == 52.0
      && p.autoSavingsAmount == 5.2
      && p.autoGoalsAmount == 7.8
      && p.baseAfterIncomes == 52.0
  {
    var yesterday := Date(2024, 11, 20);
    var today := Date(2024, 11, 21);
    var row := Setting(Some(50.0), Some(10.0), Some(15.0));
    var txs := [Tx("Zakupy", 30.0, yesterday, false)];
    var s := Store(map[yesterday := row], txs, [], []);
    assert Yesterday(today) == Some(yesterday);
    assert YesterdaySetting(s, today) == Some(row);
    assert !HasTodayPercents(s, today);
    assert RemainingDaysInclToday(today) == 10;
    assert txs[..0] == [];
    assert Total(txs, SpentOn, yesterday) == 30.0;
    assert Total(txs, IncomesOn, today) == 0.0;
    assert LeftoverContribution(s, today) == 2.0;
    assert BaseBeforeAutos(s, today) == 52.0;
    assert IncomeDistribution(s, today) == 0.0;
    assert AutoAmount(52.0, 10.0) == 5.2 by {
      assert (5.2 * 100.0).Floor == 520;
      assert RoundUpToCents(5.2) == 5.2;
    }
    assert AutoAmount(52.0, 15.0) == 7.8 by {
      assert (7.8 * 100.0).Floor == 780;
      assert RoundUpToCents(7.8) == 7.8;
    }
  }
}
