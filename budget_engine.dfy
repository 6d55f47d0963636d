/** The daily budget engine (`BudgetingService`). For one user and one
    calendar day it derives a base daily allowance from the recurring
    transactions, yesterday's leftover and today's variable incomes, stores it
    once per day in the budget settings table, and -- only in the call that
    actually inserted the day's row -- books the automatic savings and goal
    deposits and spreads the goal deposit over the selected goals.

    The specification is given by functions over a `Store` value holding the
    four tables of the signed-in user; `BudgetingService` keeps the same
    tables as fields and its methods are proved to move them as those
    functions say. */
module BudgetEngine {
  import opened Wrappers
  import opened Numbers
  import opened Calendar
  import opened BudgetArithmetic
  import opened GoalAllocation

  /** Names of the two automatic transactions. */
  const AutoSavingsName: string := "Automatyczne oszcz\U{119}dzanie"
  const AutoGoalsName: string := "Automatyczne cele"

  /** A row of the transactions table. Expenses are positive, incomes
      negative; `isSavingsOp` marks the automatic deposits. */
  datatype Tx = Tx(name: string, amount: real, date: Date, isSavingsOp: bool)

  /** A row of the budget settings table; a field may be null. */
  datatype Setting = Setting(
    dailyBudgetLimit: Option<real>,
    autoSavingsPercent: Option<real>,
    autoGoalsPercent: Option<real>)

  /** The user's four tables: budget settings by day, transactions, goals and
      the amounts of the recurring transactions. */
  datatype Store = Store(
    settings: map<Date, Setting>,
    transactions: seq<Tx>,
    goals: seq<Goal>,
    recurring: seq<real>)

  /** What the storage layer answers to an insert. */
  datatype InsertOutcome = Inserted | DuplicateKey | InsertFailed

  datatype BudgetError =
    | InvalidDate
    | SettingsInsertFailed
    | AutoSavingsInsertFailed
    | AutoGoalsInsertFailed
    | SettingsNotFound

  /** The sums the service takes over transactions (each one of its `reduce`
      calls), relative to a day `d`. */
  datatype Reduction =
    | SpentOn            // amounts > 0 on d, automatic deposits included
    | IncomesOn          // amounts < 0 on d, automatic deposits excluded
    | ExpensesOn         // amounts > 0 on d, automatic deposits excluded
    | AutoOn(name: string)          // automatic deposits called `name` on d
    | IncomesMonthToDate            // -amount of incomes from the 1st to d
    | AutoMonthToDate(name: string) // automatic deposits called `name` from the 1st to d

  function Contribution(r: Reduction, d: Date, t: Tx): real {
    match r
    case SpentOn => if t.date == d && t.amount > 0.0 then t.amount else 0.0
    case IncomesOn => if t.date == d && t.amount < 0.0 && !t.isSavingsOp then t.amount else 0.0
    case ExpensesOn => if t.date == d && t.amount > 0.0 && !t.isSavingsOp then t.amount else 0.0
    case AutoOn(name) => if t.date == d && t.isSavingsOp && t.name == name then t.amount else 0.0
    case IncomesMonthToDate =>
      if InMonthToDate(t.date, d) && t.amount < 0.0 && !t.isSavingsOp then -t.amount else 0.0
    case AutoMonthToDate(name) =>
      if InMonthToDate(t.date, d) && t.isSavingsOp && t.name == name then t.amount else 0.0
  }

  function Total(txs: seq<Tx>, r: Reduction, d: Date): real {
    if |txs| == 0 then 0.0 else Total(txs[..|txs| - 1], r, d) + Contribution(r, d, txs[|txs| - 1])
  }

  /** The automatic goal deposits booked on `d`. */
  function AutoGoalsRows(txs: seq<Tx>, d: Date): (rows: seq<Tx>)
    ensures forall i :: 0 <= i < |rows| ==> rows[i] in txs
  {
    if |txs| == 0 then []
    else
      var t := txs[|txs| - 1];
      var earlier := AutoGoalsRows(txs[..|txs| - 1], d);
      if t.date == d && t.isSavingsOp && t.name == AutoGoalsName then earlier + [t] else earlier
  }

  /** The re-read of today's automatic goal deposit (`maybeSingle`): its
      amount when there is exactly one such row, 0 otherwise. */
  function ReReadAutoGoalsAmount(txs: seq<Tx>, d: Date): real {
    var rows := AutoGoalsRows(txs, d);
    if |rows| == 1 then rows[0].amount else 0.0
  }

  /** Yesterday's settings row, when there is a yesterday in this month and a
      row for it. */
  function YesterdaySetting(s: Store, d: Date): Option<Setting>
    requires IsValidDate(d)
  {
    match Yesterday(d)
    case None => None
    case Some(y) => if y in s.settings then Some(s.settings[y]) else None
  }

  function YesterdayBase(s: Store, d: Date): Option<real>
    requires IsValidDate(d)
  {
    match YesterdaySetting(s, d)
    case None => None
    case Some(row) => row.dailyBudgetLimit
  }

  /** Every figure `calculateDailyBudget` derives for day `d`. */
  datatype DayPlan = DayPlan(
    isNew: bool,
    remainingDays: int,
    baseFromFixed: real,
    leftoverContribution: real,
    baseBeforeAutos: real,
    savingsPercent: real,
    goalsPercent: real,
    autoSavingsAmount: real,
    autoGoalsAmount: real,
    incomeDistribution: real,
    baseAfterIncomes: real)

  /** True when today's row exists and holds both percents. */
  predicate HasTodayPercents(s: Store, d: Date) {
    d in s.settings
    && s.settings[d].autoSavingsPercent.Some?
    && s.settings[d].autoGoalsPercent.Some?
  }

  /** The month's net fixed amount spread evenly over its days. */
  function BaseFromFixed(s: Store, d: Date): real
    requires IsValidDate(d)
  {
    -Sum(s.recurring) / DaysInMonthOf(d) as real
  }

  /** Nothing to carry over: the first of the month, or no base yesterday. */
  predicate NoHistory(s: Store, d: Date)
    requires IsValidDate(d)
  {
    d.day == 1 || YesterdayBase(s, d).None?
  }

  /** Yesterday's unspent base (spent = every positive amount of yesterday)
      spread over the days that remain. */
  function LeftoverContribution(s: Store, d: Date): real
    requires IsValidDate(d)
  {
    if NoHistory(s, d) then 0.0
    else (YesterdayBase(s, d).value - Total(s.transactions, SpentOn, Yesterday(d).value))
         / RemainingDaysInclToday(d) as real
  }

  /** The base the automatic deposits are taken from. */
  function BaseBeforeAutos(s: Store, d: Date): real
    requires IsValidDate(d)
  {
    if NoHistory(s, d) then BaseFromFixed(s, d)
    else YesterdayBase(s, d).value + LeftoverContribution(s, d)
  }

  function SavingsPercentFor(s: Store, d: Date): real
    requires IsValidDate(d)
  {
    if HasTodayPercents(s, d) then s.settings[d].autoSavingsPercent.value
    else match YesterdaySetting(s, d)
      case Some(y) => y.autoSavingsPercent.GetOr(0.0)
      case None => 0.0
  }

  function GoalsPercentFor(s: Store, d: Date): real
    requires IsValidDate(d)
  {
    if HasTodayPercents(s, d) then s.settings[d].autoGoalsPercent.value
    else match YesterdaySetting(s, d)
      case Some(y) => y.autoGoalsPercent.GetOr(0.0)
      case None => 0.0
  }

  /** Today's variable incomes spread over the days that remain. */
  function IncomeDistribution(s: Store, d: Date): real
    requires IsValidDate(d)
  {
    -Total(s.transactions, IncomesOn, d) / RemainingDaysInclToday(d) as real
  }

  function PlanDay(s: Store, d: Date): DayPlan
    requires IsValidDate(d)
  {
    var base := BaseBeforeAutos(s, d);
    var savingsPercent := SavingsPercentFor(s, d);
    var goalsPercent := GoalsPercentFor(s, d);
    DayPlan(
      d !in s.settings,
      RemainingDaysInclToday(d),
      BaseFromFixed(s, d),
      LeftoverContribution(s, d),
      base,
      savingsPercent,
      goalsPercent,
      AutoAmount(base, savingsPercent),
      AutoAmount(base, goalsPercent),
      IncomeDistribution(s, d),
      base + IncomeDistribution(s, d))
  }

  /** An automatic deposit: `percent` percent of `base`, rounded up to cents. */
  function AutoAmount(base: real, percent: real): real {
    RoundUpToCents(base * (percent / 100.0))
  }

  /** The row `calculateDailyBudget` inserts or updates. */
  function PlannedRow(p: DayPlan): Setting {
    Setting(Some(p.baseAfterIncomes), Some(p.savingsPercent), Some(p.goalsPercent))
  }

  datatype AutoCreated = AutoCreated(createdSavings: bool, createdGoals: bool)

  datatype AutoOutcome = AutoOutcome(transactions: seq<Tx>, result: Result<AutoCreated, BudgetError>)

  /** `ensureAutoTransactionsForDay`: each automatic deposit with a positive
      amount is inserted; a duplicate is ignored, any other insert error
      stops there and is raised. */
  function EnsureAutoTransactions(
    txs: seq<Tx>, d: Date, savingsAmount: real, goalsAmount: real,
    savingsInsert: InsertOutcome, goalsInsert: InsertOutcome): AutoOutcome
  {
    if savingsAmount > 0.0 && savingsInsert == InsertFailed then
      AutoOutcome(txs, Failure(AutoSavingsInsertFailed))
    else
      var createdSavings := savingsAmount > 0.0 && savingsInsert == Inserted;
      var afterSavings := if createdSavings then txs + [Tx(AutoSavingsName, savingsAmount, d, true)] else txs;
      if goalsAmount > 0.0 && goalsInsert == InsertFailed then
        AutoOutcome(afterSavings, Failure(AutoGoalsInsertFailed))
      else
        var createdGoals := goalsAmount > 0.0 && goalsInsert == Inserted;
        var afterGoals := if createdGoals then afterSavings + [Tx(AutoGoalsName, goalsAmount, d, true)] else afterSavings;
        AutoOutcome(afterGoals, Success(AutoCreated(createdSavings, createdGoals)))
  }

  /** The tables after a call, and what the call returned or raised. Writes
      made before an error stay in the tables. */
  datatype Outcome<T> = Outcome(store: Store, result: Result<T, BudgetError>)

  /** `calculateDailyBudget(user, date)`. `settingsInsert` is the answer to
      the insert of a new day's row, `savingsInsert` and `goalsInsert` the
      answers to the inserts of the automatic deposits. A text that is not a
      day is an error and changes nothing. */
  function Calculate(
    s: Store, date: string,
    settingsInsert: InsertOutcome, savingsInsert: InsertOutcome, goalsInsert: InsertOutcome): Outcome<Setting>
  {
    match ParseLocalDate(date)
    case None => Outcome(s, Failure(InvalidDate))
    case Some(d) => CalculateDay(s, d, settingsInsert, savingsInsert, goalsInsert)
  }

  /** `calculateDailyBudget` on the valid day `d`. */
  function CalculateDay(
    s: Store, d: Date,
    settingsInsert: InsertOutcome, savingsInsert: InsertOutcome, goalsInsert: InsertOutcome): Outcome<Setting>
    requires IsValidDate(d)
  {
    var p := PlanDay(s, d);
    var row := PlannedRow(p);
    var written := s.(settings := s.settings[d := row]);
    if !p.isNew || settingsInsert == DuplicateKey then Outcome(written, Success(row))
    else if settingsInsert == InsertFailed then Outcome(s, Failure(SettingsInsertFailed))
    else
      var autos := EnsureAutoTransactions(
        s.transactions, d, p.autoSavingsAmount, p.autoGoalsAmount, savingsInsert, goalsInsert);
      var booked := written.(transactions := autos.transactions);
      if autos.result.Failure? then Outcome(booked, Failure(autos.result.error))
      else
        var goalsAmount := ReReadAutoGoalsAmount(booked.transactions, d);
        if goalsAmount > 0.0 then Outcome(booked.(goals := AllocateToGoals(booked.goals, goalsAmount)), Success(row))
        else Outcome(booked, Success(row))
  }

  /** The figures the budget screen shows (`DailyBudgetInfo`). */
  datatype DailyBudgetInfo = DailyBudgetInfo(
    dailyBudgetLimit: real,
    dailyBudgetLeft: real,
    todaysExpenses: real,
    daysRemaining: int,
    totalAvailableIncome: real,
    date: string,
    autoGoalsAmount: real,
    autoSavingsAmount: real,
    autoSavingsPercent: real,
    autoGoalsPercent: real,
    autoSavingsMonthSum: real,
    autoGoalsMonthSum: real)

  /** `buildDailyBudgetInfo(user, date)`. */
  function BuildInfo(s: Store, date: string): Result<DailyBudgetInfo, BudgetError> {
    match ParseLocalDate(date)
    case None => Failure(InvalidDate)
    case Some(d) =>
      if d !in s.settings then Failure(SettingsNotFound)
      else
        var row := s.settings[d];
        var autoSavings := Total(s.transactions, AutoOn(AutoSavingsName), d);
        var autoGoals := Total(s.transactions, AutoOn(AutoGoalsName), d);
        var limit := row.dailyBudgetLimit.GetOr(0.0) - autoSavings - autoGoals;
        var expenses := Total(s.transactions, ExpensesOn, d);
        Success(DailyBudgetInfo(
          limit,
          limit - expenses,
          expenses,
          RemainingDaysInclToday(d),
          -Sum(s.recurring) + Total(s.transactions, IncomesMonthToDate, d),
          date,
          autoGoals,
          autoSavings,
          row.autoSavingsPercent.GetOr(0.0),
          row.autoGoalsPercent.GetOr(0.0),
          Total(s.transactions, AutoMonthToDate(AutoSavingsName), d),
          Total(s.transactions, AutoMonthToDate(AutoGoalsName), d)))
  }

  /** `getCurrentDayBudget()` on the local day `today`. */
  function CurrentDayBudget(
    s: Store, today: Date,
    settingsInsert: InsertOutcome, savingsInsert: InsertOutcome, goalsInsert: InsertOutcome): Outcome<DailyBudgetInfo>
  {
    var date := FormatLocalDate(today);
    var out := Calculate(s, date, settingsInsert, savingsInsert, goalsInsert);
    match out.result
    case Failure(e) => Outcome(out.store, Failure(e))
    case Success(_) => Outcome(out.store, BuildInfo(out.store, date))
  }

  /** The engine over the user's tables. */
  class BudgetingService {
    var settings: map<Date, Setting>
    var transactions: seq<Tx>
    var goals: seq<Goal>
    var recurring: seq<real>

    function Tables(): Store
      reads this
    {
      Store(settings, transactions, goals, recurring)
    }

    constructor (s: Store)
      ensures Tables() == s
    {
      settings := s.settings;
      transactions := s.transactions;
      goals := s.goals;
      recurring := s.recurring;
    }

    /** The reading half of `calculateDailyBudget`: every figure of the day,
        computed from the tables without changing them. */
    method PlanForDay(d: Date) returns (p: DayPlan)
      requires IsValidDate(d)
      ensures p == PlanDay(Tables(), d)
      ensures p.remainingDays >= 1
      ensures CentAligned(p.autoSavingsAmount) && CentAligned(p.autoGoalsAmount)
    {
      var daysInMonth := DaysInMonthOf(d);
      var yesterday := Yesterday(d);

      var isNewDailyBudget := d !in settings;

      var sumRecurring := Sum(recurring);
      var baseFromFixed := -sumRecurring / daysInMonth as real;

      var yesterdayBase: Option<real> := None;
      var yesterdayAutoSavingsPercent: Option<real> := None;
      var yesterdayAutoGoalsPercent: Option<real> := None;
      if yesterday.Some? && yesterday.value in settings {
        var ySetting := settings[yesterday.value];
        yesterdayBase := ySetting.dailyBudgetLimit;
        yesterdayAutoSavingsPercent := ySetting.autoSavingsPercent;
        yesterdayAutoGoalsPercent := ySetting.autoGoalsPercent;
      }
      assert yesterdayBase == YesterdayBase(Tables(), d);

      var remainingDaysInclToday := daysInMonth - d.day + 1;
      var leftoverContributionToday := 0.0;
      var newBaseBeforeAutos := baseFromFixed;
      if d.day != 1 && yesterdayBase.Some? {
        var spentYesterday := Total(transactions, SpentOn, yesterday.value);
        var leftover := yesterdayBase.value - spentYesterday;
        leftoverContributionToday := leftover / remainingDaysInclToday as real;
        newBaseBeforeAutos := yesterdayBase.value + leftoverContributionToday;
      }

      var autoSavingsPercent: real;
      var autoGoalsPercent: real;
      if !isNewDailyBudget && settings[d].autoSavingsPercent.Some? && settings[d].autoGoalsPercent.Some? {
        autoSavingsPercent := settings[d].autoSavingsPercent.value;
        autoGoalsPercent := settings[d].autoGoalsPercent.value;
      } else {
        autoSavingsPercent := yesterdayAutoSavingsPercent.GetOr(0.0);
        autoGoalsPercent := yesterdayAutoGoalsPercent.GetOr(0.0);
      }

      var autoSavingsAmount := AutoAmount(newBaseBeforeAutos, autoSavingsPercent);
      var autoGoalsAmount := AutoAmount(newBaseBeforeAutos, autoGoalsPercent);

      var sumIncomesToday := Total(transactions, IncomesOn, d);
      var incomeDistributionToday := -sumIncomesToday / remainingDaysInclToday as real;
      var baseAfterIncomes := newBaseBeforeAutos + incomeDistributionToday;

      p := DayPlan(
        isNewDailyBudget, remainingDaysInclToday, baseFromFixed, leftoverContributionToday,
        newBaseBeforeAutos, autoSavingsPercent, autoGoalsPercent,
        autoSavingsAmount, autoGoalsAmount, incomeDistributionToday, baseAfterIncomes);
    }

    /** `calculateDailyBudget`. */
    method CalculateDailyBudget(
      date: string, settingsInsert: InsertOutcome, savingsInsert: InsertOutcome, goalsInsert: InsertOutcome)
      returns (r: Result<Setting, BudgetError>)
      modifies this
      ensures Tables() == Calculate(old(Tables()), date, settingsInsert, savingsInsert, goalsInsert).store
      ensures r == Calculate(old(Tables()), date, settingsInsert, savingsInsert, goalsInsert).result
    {
      var targetDate := ParseLocalDate(date);
      if targetDate.None? {
        return Failure(InvalidDate);
      }
      r := CalculateForDay(targetDate.value, settingsInsert, savingsInsert, goalsInsert);
    }

    /** `calculateDailyBudget` once the day is known: plan it, write the row,
        and, only when this call inserted the row, book the automatic
        deposits and spread the goal deposit over the goals. */
    method CalculateForDay(
      d: Date, settingsInsert: InsertOutcome, savingsInsert: InsertOutcome, goalsInsert: InsertOutcome)
      returns (r: Result<Setting, BudgetError>)
      requires IsValidDate(d)
      modifies this
      ensures Tables() == CalculateDay(old(Tables()), d, settingsInsert, savingsInsert, goalsInsert).store
      ensures r == CalculateDay(old(Tables()), d, settingsInsert, savingsInsert, goalsInsert).result
    {
      var p := PlanForDay(d);
      var row := Setting(Some(p.baseAfterIncomes), Some(p.savingsPercent), Some(p.goalsPercent));

      var createdNewBudget := false;
      if p.isNew {
        match settingsInsert
        case InsertFailed =>
          return Failure(SettingsInsertFailed);
        case DuplicateKey =>
          settings := settings[d := row];
          createdNewBudget := false;
        case Inserted =>
          settings := settings[d := row];
          createdNewBudget := true;
      } else {
        settings := settings[d := row];
      }

      if createdNewBudget {
        var created := EnsureAutoTransactionsForDay(d, p.autoSavingsAmount, p.autoGoalsAmount, savingsInsert, goalsInsert);
        if created.Failure? {
          return Failure(created.error);
        }
        var todaysAutoGoalsAmount := ReReadAutoGoalsAmount(transactions, d);
        if todaysAutoGoalsAmount > 0.0 {
          AllocateAutoGoalsToGoals(todaysAutoGoalsAmount);
        }
      }
      return Success(row);
    }

    /** `ensureAutoTransactionsForDay`. */
    method EnsureAutoTransactionsForDay(
      d: Date, autoSavingsAmount: real, autoGoalsAmount: real,
      savingsInsert: InsertOutcome, goalsInsert: InsertOutcome)
      returns (r: Result<AutoCreated, BudgetError>)
      modifies this`transactions
      ensures AutoOutcome(transactions, r)
        == EnsureAutoTransactions(old(transactions), d, autoSavingsAmount, autoGoalsAmount, savingsInsert, goalsInsert)
    {
      var createdSavings := false;
      var createdGoals := false;
      if autoSavingsAmount > 0.0 {
        match savingsInsert
        case InsertFailed =>
          return Failure(AutoSavingsInsertFailed);
        case DuplicateKey =>
        case Inserted =>
          transactions := transactions + [Tx(AutoSavingsName, autoSavingsAmount, d, true)];
          createdSavings := true;
      }
      if autoGoalsAmount > 0.0 {
        match goalsInsert
        case InsertFailed =>
          return Failure(AutoGoalsInsertFailed);
        case DuplicateKey =>
        case Inserted =>
          transactions := transactions + [Tx(AutoGoalsName, autoGoalsAmount, d, true)];
          createdGoals := true;
      }
      return Success(AutoCreated(createdSavings, createdGoals));
    }

    /** The share of the `i`-th visited goal inside `allocateAutoGoalsToGoals`:
        its proportional part of the deposit rounded up to cents, or, for the
        last goal, whatever is still left to allocate. */
    static method GoalShare(autoGoalsAmount: real, totalGoalPercentage: real, pcts: seq<real>, i: nat, remainingToAllocate: real)
      returns (goalShare: real)
      requires i < |pcts| && totalGoalPercentage != 0.0
      ensures goalShare == ShareAt(autoGoalsAmount, totalGoalPercentage, pcts, i, remainingToAllocate)
      ensures CentAligned(goalShare)
    {
      var goalPercentage := pcts[i];
      var goalShareRaw := (autoGoalsAmount * goalPercentage) / totalGoalPercentage;
      ShareAtCases(autoGoalsAmount, totalGoalPercentage, pcts, i, remainingToAllocate, goalShareRaw);
      if i < |pcts| - 1 {
        goalShare := RoundUpToCents(goalShareRaw);
      } else {
        goalShare := RoundUpToCents(remainingToAllocate);
      }
    }

    /** `allocateAutoGoalsToGoals`: reads the goals, keeps the selected ones
        with a positive percent, highest percent first, and spreads the
        deposit over them. */
    method AllocateAutoGoalsToGoals(autoGoalsAmount: real)
      modifies this`goals
      ensures goals == AllocateToGoals(old(goals), autoGoalsAmount)
    {
      var fetched := goals;
      var order := SelectedOrder(fetched);
      SelectedOrderIsOrder(fetched);
      if |order| == 0 {
        return;
      }
      var pcts := Percents(fetched, order);
      var totalGoalPercentage := Sum(pcts);
      if totalGoalPercentage == 0.0 {
        return;
      }
      WriteGoalShares(fetched, order, pcts, totalGoalPercentage, autoGoalsAmount);
    }

    /** The loop of `allocateAutoGoalsToGoals`: visits the goals in `order`
        and writes each one's new current amount in place; every share and
        every new amount is computed from the goals as read before the loop. */
    method WriteGoalShares(fetched: seq<Goal>, order: seq<nat>, pcts: seq<real>, totalGoalPercentage: real, autoGoalsAmount: real)
      requires goals == fetched && IsOrderOf(fetched, order)
      requires pcts == Percents(fetched, order) && totalGoalPercentage != 0.0
      modifies this`goals
      ensures goals == Applied(fetched, fetched, order, autoGoalsAmount, totalGoalPercentage, pcts, |order|)
    {
      var remainingToAllocate := RoundUpToCents(autoGoalsAmount);
      var i := 0;
      while i < |order|
        invariant i <= |order|
        invariant goals == Applied(fetched, fetched, order, autoGoalsAmount, totalGoalPercentage, pcts, i)
        invariant remainingToAllocate == RemainingAfter(autoGoalsAmount, totalGoalPercentage, pcts, i)
      {
        remainingToAllocate := WriteGoalShare(fetched, order, pcts, totalGoalPercentage, autoGoalsAmount, i, remainingToAllocate);
        i := i + 1;
      }
    }

    /** One iteration of that loop: the share of the `i`-th visited goal, the
        amount still to allocate after it, and the write of the goal's new
        current amount unless it changes by less than half a cent. */
    method WriteGoalShare(
      fetched: seq<Goal>, order: seq<nat>, pcts: seq<real>, totalGoalPercentage: real, autoGoalsAmount: real,
      i: nat, remainingToAllocate: real)
      returns (remainingAfter: real)
      requires IsOrderOf(fetched, order) && |pcts| == |order| && i < |order| && totalGoalPercentage != 0.0
      requires goals == Applied(fetched, fetched, order, autoGoalsAmount, totalGoalPercentage, pcts, i)
      requires remainingToAllocate == RemainingAfter(autoGoalsAmount, totalGoalPercentage, pcts, i)
      modifies this`goals
      ensures goals == Applied(fetched, fetched, order, autoGoalsAmount, totalGoalPercentage, pcts, i + 1)
      ensures remainingAfter == RemainingAfter(autoGoalsAmount, totalGoalPercentage, pcts, i + 1)
    {
      var goal := fetched[order[i]];
      var goalShare := GoalShare(autoGoalsAmount, totalGoalPercentage, pcts, i, remainingToAllocate);
      remainingAfter := RoundUpToCents(remainingToAllocate - goalShare);

      var currentAmount := goal.currentAmount;
      var newAmount := RoundUpToCents(currentAmount + goalShare);
      LoopStep(fetched, order, autoGoalsAmount, totalGoalPercentage, pcts, i, remainingToAllocate, goalShare, newAmount);
      // a change below half a cent is not written
      if Abs(newAmount - currentAmount) >= 0.005 {
        goals := goals[order[i] := goals[order[i]].(currentAmount := newAmount)];
      }
    }

    /** `buildDailyBudgetInfo`: reads the tables only. */
    method BuildDailyBudgetInfo(date: string) returns (r: Result<DailyBudgetInfo, BudgetError>)
      ensures r == BuildInfo(Tables(), date)
      ensures r.Success? ==> r.value.dailyBudgetLeft == r.value.dailyBudgetLimit - r.value.todaysExpenses
      ensures r.Success? ==> r.value.daysRemaining >= 1 && r.value.date == date
    {
      var targetDate := ParseLocalDate(date);
      if targetDate.None? {
        return Failure(InvalidDate);
      }
      var d := targetDate.value;
      if d !in settings {
        return Failure(SettingsNotFound);
      }
      var todaySetting := settings[d];
      var baseDailyLimit := todaySetting.dailyBudgetLimit.GetOr(0.0);
      var autoSavingsAmount := Total(transactions, AutoOn(AutoSavingsName), d);
      var autoGoalsAmount := Total(transactions, AutoOn(AutoGoalsName), d);
      var dailyBudgetLimit := baseDailyLimit - autoSavingsAmount - autoGoalsAmount;
      var todaysExpenses := Total(transactions, ExpensesOn, d);
      var monthlyNetAvailable := -Sum(recurring);
      var variableIncomesMTD := Total(transactions, IncomesMonthToDate, d);
      var totalAvailableIncome := monthlyNetAvailable + variableIncomesMTD;
      var daysRemaining := DaysInMonthOf(d) - d.day + 1;
      var dailyBudgetLeft := dailyBudgetLimit - todaysExpenses;
      r := Success(DailyBudgetInfo(
        dailyBudgetLimit,
        dailyBudgetLeft,
        todaysExpenses,
        daysRemaining,
        totalAvailableIncome,
        date,
        autoGoalsAmount,
        autoSavingsAmount,
        todaySetting.autoSavingsPercent.GetOr(0.0),
        todaySetting.autoGoalsPercent.GetOr(0.0),
        Total(transactions, AutoMonthToDate(AutoSavingsName), d),
        Total(transactions, AutoMonthToDate(AutoGoalsName), d)));
    }

    /** `getCurrentDayBudget` on the local day `today`. */
    method GetCurrentDayBudget(
      today: Date, settingsInsert: InsertOutcome, savingsInsert: InsertOutcome, goalsInsert: InsertOutcome)
      returns (r: Result<DailyBudgetInfo, BudgetError>)
      modifies this
      ensures Tables() == CurrentDayBudget(old(Tables()), today, settingsInsert, savingsInsert, goalsInsert).store
      ensures r == CurrentDayBudget(old(Tables()), today, settingsInsert, savingsInsert, goalsInsert).result
    {
      var date := FormatLocalDate(today);
      var calculated := CalculateDailyBudget(date, settingsInsert, savingsInsert, goalsInsert);
      if calculated.Failure? {
        return Failure(calculated.error);
      }
      r := BuildDailyBudgetInfo(date);
    }

    /** `refreshCurrentDayBudget`: the same steps as `getCurrentDayBudget`. */
    method RefreshCurrentDayBudget(
      today: Date, settingsInsert: InsertOutcome, savingsInsert: InsertOutcome, goalsInsert: InsertOutcome)
      returns (r: Result<DailyBudgetInfo, BudgetError>)
      modifies this
      ensures Tables() == CurrentDayBudget(old(Tables()), today, settingsInsert, savingsInsert, goalsInsert).store
      ensures r == CurrentDayBudget(old(Tables()), today, settingsInsert, savingsInsert, goalsInsert).result
    {
      r := GetCurrentDayBudget(today, settingsInsert, savingsInsert, goalsInsert);
    }

    /** `refreshCurrentDayBudgetData`: the same steps again. */
    method RefreshCurrentDayBudgetData(
      today: Date, settingsInsert: InsertOutcome, savingsInsert: InsertOutcome, goalsInsert: InsertOutcome)
      returns (r: Result<DailyBudgetInfo, BudgetError>)
      modifies this
      ensures Tables() == CurrentDayBudget(old(Tables()), today, settingsInsert, savingsInsert, goalsInsert).store
      ensures r == CurrentDayBudget(old(Tables()), today, settingsInsert, savingsInsert, goalsInsert).result
    {
      r := GetCurrentDayBudget(today, settingsInsert, savingsInsert, goalsInsert);
    }

    /** `recalculateBudgetForVariableIncome(incomeAmount)`: re-runs today's
        calculation; `incomeAmount` takes no part in it. */
    method RecalculateBudgetForVariableIncome(
      incomeAmount: real, today: Date,
      settingsInsert: InsertOutcome, savingsInsert: InsertOutcome, goalsInsert: InsertOutcome)
      returns (err: Option<BudgetError>)
      modifies this
      ensures Tables() == Calculate(old(Tables()), FormatLocalDate(today), settingsInsert, savingsInsert, goalsInsert).store
      ensures err.Some? <==> Calculate(old(Tables()), FormatLocalDate(today), settingsInsert, savingsInsert, goalsInsert).result.Failure?
    {
      var calculated := CalculateDailyBudget(FormatLocalDate(today), settingsInsert, savingsInsert, goalsInsert);
      err := if calculated.Failure? then Some(calculated.error) else None;
    }
  }
}
