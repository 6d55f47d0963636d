# Daily budget engine and helpers — a Dafny model

This project models the core of a personal-budget app. The app keeps its data
in a Supabase database (budget settings per day, transactions, goals,
recurring transactions) and in an Airtable base (accounts and transactions).

**The daily budget engine (`BudgetingService`).** For the signed-in user and
one local calendar day, `calculateDailyBudget` derives a base daily allowance
from four things:

- the net of the recurring transactions, spread over the days of the month;
- yesterday's base and what was left of it, spread over the days that remain;
- the automatic savings and goal percents: kept when today's row already
  holds them, otherwise copied from yesterday, each defaulting to 0;
- today's variable incomes, spread over the days that remain.

It stores the result once per day. Only the call that actually inserted the
day's row books the two automatic deposits ("Automatyczne oszczędzanie",
"Automatyczne cele"). That call then re-reads the goal deposit and spreads it
over the selected goals (`allocateAutoGoalsToGoals`). Each goal gets a share
in proportion to its percent, rounded up to cents, and the last goal takes
whatever is left. `buildDailyBudgetInfo` then derives the figures the screen
shows.

**The helpers.**

- The account-ID cache (`utils/accountHelpers.ts`): the IDs are kept for five
  minutes, refreshed on demand, and served stale when a refresh fails.
- The transaction converters, validators and classifiers
  (`utils/transactionHelpers.ts`).
- The display formatters, with their placeholders (`utils/formatters.ts`).
- Truncation, capitalisation and the sign of a transaction value
  (`src/utils/formatting.ts`).
- The relative-time label and the "is today" test (`utils/dateHelpers.ts`).

**How it is modelled.**

- Money is an exact `real`. `roundUpToCents` is a ceiling on whole cents.
- Days are Gregorian calendar days, keyed by their `YYYY-MM-DD` text.
- Every storage call, the clock and the network are inputs of the
  operation:
  - each insert answers `Inserted`, `DuplicateKey` or `InsertFailed`;
  - the account fetch answers the two IDs or an error;
  - `Date.now()` is a number;
  - the `Date` constructor's parse is the resulting day or time.
- The engine and the cache are classes whose fields are the tables, or the
  cache variables. Each method is proved to change those fields exactly as
  a specification function says, and the properties are proved as lemmas
  about those functions.
- The other helpers are pure functions.

Modules, one per file:

| Module | What it holds |
|---|---|
| `Wrappers` | Option and Result. |
| `JsStrings` | `trim`. |
| `Numbers` | NaN, `Math.round`, `toString` of integers, and the decimal part of `parseFloat`. |
| `Calendar` | Days, months and `formatLocalDate`. |
| `BudgetArithmetic` | `roundUpToCents` and sums. |
| `GoalAllocation` | The specification of the goal split. |
| `BudgetEngine` | The tables, the specification functions and the `BudgetingService` class. |
| `BudgetProperties` | The engine's properties. |
| `AccountHelpers`, `TransactionHelpers`, `Formatters`, `TextFormatting`, `DateHelpers` | The helpers. |

## Model

| member | source | states |
|---|---|---|
| BudgetArithmetic.RoundUpToCents | services/budgetingService.ts:407-409 | the result is a whole number of cents, at least the value and less than a cent above it; a value already in whole cents is unchanged |
| BudgetArithmetic.RoundUpIsLeast | services/budgetingService.ts:407-409 | no whole-cent amount that covers the value lies below the rounded value (it is the ceiling) |
| Calendar.DaysInMonth | services/budgetingService.ts:42 | a month has 28 to 31 days, and February has 29 exactly in a leap year |
| Calendar.RemainingDaysInclToday | services/budgetingService.ts:120 | the days left in the month, counting today, are between 1 and the month's length, and equal 1 exactly on the last day |
| Calendar.Yesterday | services/budgetingService.ts:44 | there is no yesterday exactly on the first of the month; otherwise it is the previous, valid day of the same month |
| Calendar.ParseLocalDate | services/budgetingService.ts:34-37 | a text the service accepts always stands for a valid calendar day |
| Calendar.ParseFormatRoundTrip | services/budgetingService.ts:400-405 | reading back the `YYYY-MM-DD` text of any valid day of a four-digit year gives that day |
| Calendar.FormatInjective | services/budgetingService.ts:400-405 | two different days never get the same row key |
| GoalAllocation.SelectedOrderSpec | services/budgetingService.ts:309-315 | the goals visited are exactly the selected goals with a positive percent, each once, from the highest percent to the lowest |
| GoalAllocation.SharesSumExactly | services/budgetingService.ts:339-352 | the shares add up to the rounded deposit, to the cent, and nothing is left to allocate after the last goal |
| GoalAllocation.ShareAligned | services/budgetingService.ts:347-349 | every share is a whole number of cents |
| GoalAllocation.AllocateFrame | services/budgetingService.ts:309-391 | goals that do not take part are unchanged, and a visited goal changes in its current amount only |
| GoalAllocation.AllocateVisited | services/budgetingService.ts:354-361 | the goal visited at each position ends with its amount rounded up after adding its share, or unchanged when that changes it by less than half a cent |
| GoalAllocation.NoSelectedGoalsNoChange | services/budgetingService.ts:322-325 | with no selected goal with a positive percent, the goals are left as they are |
| GoalAllocation.AllocationConservesCents | services/budgetingService.ts:339-391 | when all current amounts are whole cents and some goal takes part, the goals' total grows by exactly the rounded deposit |
| GoalAllocation.LastShareIsRemainder | services/budgetingService.ts:347-352 | the last goal's share is the rounded deposit less the earlier shares, so it is zero or negative once their round-ups reach the deposit |
| GoalAllocation.LastShareCanBeNegative | services/budgetingService.ts:347-352 | one cent over three equal goals gives 0.01, 0.01 and -0.01: the last goal's share can be negative |
| BudgetEngine.BudgetingService.PlanForDay | services/budgetingService.ts:39-163 | the figures of the day, computed from the tables without changing them, are those of the day's plan; at least one day remains, and both deposits are whole cents |
| BudgetEngine.BudgetingService.CalculateDailyBudget | services/budgetingService.ts:32-252 | the tables afterwards and the result (the stored row or the error) are those of the calculation of the given date text |
| BudgetEngine.BudgetingService.CalculateForDay | services/budgetingService.ts:165-251 | the write of the planned row, then, only for the inserting call, the deposits and the goal allocation, as the calculation of the day says |
| BudgetEngine.BudgetingService.EnsureAutoTransactionsForDay | services/budgetingService.ts:411-458 | the transactions afterwards and the result are those of booking the two automatic deposits with the given insert outcomes |
| BudgetEngine.BudgetingService.GoalShare | services/budgetingService.ts:346-349 | the share is the proportional part rounded up to cents, or, for the last goal, the remainder rounded up, and is a whole number of cents |
| BudgetEngine.BudgetingService.AllocateAutoGoalsToGoals | services/budgetingService.ts:298-394 | the goals afterwards are those of the allocation of the deposit |
| BudgetEngine.BudgetingService.WriteGoalShares | services/budgetingService.ts:339-391 | after the loop, every visited goal holds the amount computed for it from its amount before the loop |
| BudgetEngine.BudgetingService.WriteGoalShare | services/budgetingService.ts:341-379 | one iteration writes the next goal's new amount, unless it changes by less than half a cent, and advances the amount still to allocate |
| BudgetEngine.BudgetingService.BuildDailyBudgetInfo | services/budgetingService.ts:462-580 | the figures are those the tables give for the day; what is left is the limit less today's expenses, and at least one day remains |
| BudgetEngine.BudgetingService.GetCurrentDayBudget | services/budgetingService.ts:13-26 | calculates today, then builds today's figures from the updated tables; a failed calculation is raised |
| BudgetEngine.BudgetingService.RefreshCurrentDayBudget | services/budgetingService.ts:272-280 | the same tables and result as `getCurrentDayBudget` |
| BudgetEngine.BudgetingService.RefreshCurrentDayBudgetData | services/budgetingService.ts:285-293 | the same tables and result as `getCurrentDayBudget` |
| BudgetEngine.BudgetingService.RecalculateBudgetForVariableIncome | services/budgetingService.ts:258-266 | re-runs today's calculation, whatever the income amount; it reports an error exactly when the calculation fails |
| BudgetProperties.IncomesNotPositive | services/budgetingService.ts:153-159 | the sum of today's variable incomes is never positive |
| BudgetProperties.ExpensesNotNegative | services/budgetingService.ts:506-512 | the sum of today's expenses is never negative |
| BudgetProperties.FixedBaseWithoutHistory | services/budgetingService.ts:69-73 | on the first of the month, or without yesterday's base, nothing is carried over and the base spread over the month's days is the net of the recurring transactions |
| BudgetProperties.LeftoverSpreadOverRemainingDays | services/budgetingService.ts:102-127 | otherwise the base is yesterday's plus a per-day part that, over the remaining days, adds up to yesterday's base less yesterday's spending (deposits included); underspending raises the base and overspending lowers it |
| BudgetProperties.PercentsSticky | services/budgetingService.ts:130-136 | percents stored on today's row are kept; otherwise yesterday's are taken, each defaulting to 0 |
| BudgetProperties.FirstOfMonthStartsFresh | services/budgetingService.ts:125-141 | on the first of the month, without stored percents, the base is the fixed one and both deposits are 0 |
| BudgetProperties.IncomeNeverLowersBase | services/budgetingService.ts:140-163 | the stored base is never below the base the deposits are taken from; the difference is today's incomes spread over the remaining days |
| BudgetProperties.BaseFrame | services/budgetingService.ts:69-127 | the base before deposits depends only on the recurring transactions, yesterday's row and yesterday's spending |
| BudgetProperties.IncomeDistributionAppend | services/budgetingService.ts:152-160 | one more income today adds its size spread over the remaining days to today's income share |
| BudgetProperties.TodaysIncomeSpreadOverRemainingDays | services/budgetingService.ts:140-163 | a new income today raises the stored base by its size over the remaining days, and changes neither the base before deposits nor the deposits |
| BudgetProperties.EnsureAutoAppendsDeposits | services/budgetingService.ts:411-458 | the old transactions are kept, followed by at most two positive automatic deposits of the day; each is created exactly when its amount is positive and its insert succeeded; the call fails exactly when an insert for a positive amount failed for a reason other than a duplicate |
| BudgetProperties.OnlyInsertingCallBooksDeposits | services/budgetingService.ts:169-231 | when the row existed or another caller inserted it first, only the planned row is written: no deposit and no goal change |
| BudgetProperties.SettingsInsertFailureChangesNothing | services/budgetingService.ts:185-190 | an insert error other than a duplicate changes nothing and is raised |
| BudgetProperties.InvalidDateChangesNothing | services/budgetingService.ts:34-37 | a text that is not a valid day changes nothing and is raised |
| BudgetProperties.CalculateShape | services/budgetingService.ts:165-251 | any calculation keeps the recurring transactions and the old transactions, adds only automatic deposits of that day and, on success, stores and returns the planned row |
| BudgetProperties.InsertingCallShape | services/budgetingService.ts:169-249 | the inserting call leaves the transactions the deposit booking leaves and, on success, stores the planned row |
| BudgetProperties.DepositsLeaveSumsAlone | services/budgetingService.ts:115-118 | the day's automatic deposits count neither as the day's income nor as the spending of the day before |
| BudgetProperties.ReplanSameRow | services/budgetingService.ts:39-163 | once the row holds the planned percents and yesterday is unchanged, planning again gives the same row |
| BudgetProperties.CalculateIdempotent | services/budgetingService.ts:32-252 | calculating the same day again right after a success changes nothing and gives the same row, whatever the inserts answer |
| BudgetProperties.InsertingCallSteps | services/budgetingService.ts:234-249 | the inserting call books the deposits, then spreads the re-read goal deposit, when positive, over the goals |
| BudgetProperties.EnsureAutoSums | services/budgetingService.ts:420-456 | each of the day's automatic sums grows by its amount exactly when that amount is positive and its insert went through |
| BudgetProperties.InsertingCallBooksDeposits | services/budgetingService.ts:234-235 | the same, seen through the tables the inserting call leaves |
| BudgetProperties.EnsureAutoReRead | services/budgetingService.ts:237-245 | with no earlier goal deposit that day, the re-read finds the one just inserted |
| BudgetProperties.InsertingCallAllocatesGoalDeposit | services/budgetingService.ts:234-249 | the planned goal deposit, when positive and the day's only one, is what gets spread over the goals |
| BudgetProperties.BuildInfoFigures | services/budgetingService.ts:481-546 | the figures exist exactly for a valid day with a stored row; the limit is the stored base less the day's deposits; what is left is the limit less the expenses; expenses are not negative; the days remaining are from 1 to the month's length; the available income is the recurring net plus the month's incomes |
| BudgetProperties.CalculatedDayCanBeShown | services/budgetingService.ts:481-550 | after a successful calculation the figures exist, show the stored percents, and the limit plus the day's deposits is the stored base |
| BudgetProperties.CurrentDayBudgetOnValidDay | services/budgetingService.ts:13-26 | `getCurrentDayBudget` never reports an invalid date, labels its figures with today's text, and succeeds when no insert fails |
| BudgetProperties.CarryOverExample | services/budgetingService.ts:102-141 | base 50 with 30 spent and 10 days left gives a base of 52, and 10 % and 15 % give deposits of 5.20 and 7.80 |
| AccountHelpers.FreshCacheIsServed | utils/accountHelpers.ts:54-61 | a fresh cache is returned as it is, without fetching |
| AccountHelpers.FetchesUnlessFresh | utils/accountHelpers.ts:54-61 | a call fetches exactly when the refresh is forced or the cache is not fresh |
| AccountHelpers.SuccessfulFetchIsStored | utils/accountHelpers.ts:70-76 | a successful fetch stores both IDs, stamped with the time of the call, and returns them |
| AccountHelpers.FailedFetchFallsBack | utils/accountHelpers.ts:77-84 | a failed fetch leaves the cache alone, and returns the cached IDs if there are any and the error otherwise |
| AccountHelpers.ClearedCacheFetches | utils/accountHelpers.ts:98-101 | after clearing, the next call fetches, and a failure reaches the caller |
| AccountHelpers.FetchedIdsServedForFiveMinutes | utils/accountHelpers.ts:26 | IDs fetched at a time are served without fetching by every unforced call in the next five minutes |
| AccountHelpers.WarmCacheStaysWarm | utils/accountHelpers.ts:77-84 | once IDs are cached, no call short of clearing empties the cache, so every later lookup succeeds |
| AccountHelpers.ValidAccountIdShape | utils/accountHelpers.ts:117-119 | an ID is valid exactly when it is "rec" followed by at least one more character |
| AccountHelpers.AccountCache.constructor | utils/accountHelpers.ts:24-25 | the cache starts empty |
| AccountHelpers.AccountCache.GetAccountIds | utils/accountHelpers.ts:50-85 | the cache afterwards and the IDs returned (or the error) are those of one lookup |
| AccountHelpers.AccountCache.GetAccountId | utils/accountHelpers.ts:90-93 | an unforced lookup, then the named ID; an error passes through |
| AccountHelpers.AccountCache.ClearAccountCache | utils/accountHelpers.ts:98-101 | both the IDs and the timestamp are reset |
| AccountHelpers.AccountCache.PrefetchAccountIds | utils/accountHelpers.ts:106-112 | a forced lookup: on success the fetched IDs are stored with the time of the call |
| JsStrings.TrimNonEmptyIff | utils/transactionHelpers.ts:93 | a name trims to something non-empty exactly when it holds a character that is not white space |
| TransactionHelpers.ParseOrZero | utils/transactionHelpers.ts:17 | the value is never NaN, and it is the parsed value when that is a number |
| TransactionHelpers.TransactionToNewTransaction | utils/transactionHelpers.ts:14-21 | the name, date and category are carried over, no account is set, and the value is a number |
| TransactionHelpers.TransactionValueReadBack | utils/transactionHelpers.ts:17 | a value holding an integer's text becomes that integer, and one without any digit becomes 0 |
| TransactionHelpers.NewTransactionToAirtableFields | utils/transactionHelpers.ts:26-35 | name and value are copied; the date is the given one when set and non-empty, else now; the category and each account are present exactly when set and non-empty, the accounts as one-element lists |
| TransactionHelpers.AirtableFieldsRoundTrip | utils/transactionHelpers.ts:26-35 | a transaction whose optional fields are absent or non-empty is recovered from its record, with the date filled in when absent |
| TransactionHelpers.NormalizeTransactionInput | utils/transactionHelpers.ts:40-49 | all fields are copied, a number value is kept, and a text value becomes a number |
| TransactionHelpers.NormalizedTextValue | utils/transactionHelpers.ts:43 | a text value holding an integer becomes that integer, and one without any digit becomes 0 |
| TransactionHelpers.CreateTransferTransaction | utils/transactionHelpers.ts:54-68 | name, amount and both accounts are kept, no category is set, and the date is the given one when non-empty, else now |
| TransactionHelpers.ValidateTransaction | utils/transactionHelpers.ts:90-97 | valid exactly when the name holds a non-white-space character and the value is a number that is not NaN |
| TransactionHelpers.NormalizedTextValidates | utils/transactionHelpers.ts:40-49 | a normalized transaction typed as text is valid exactly when its name is not blank |
| TransactionHelpers.CreatedTransferIsTransfer | utils/transactionHelpers.ts:102-104 | a built transfer is a transfer exactly when both account IDs are non-empty, and an expense exactly when its amount is positive |
| TransactionHelpers.TransferFields | utils/transactionHelpers.ts:26-35 | a transfer's record names both accounts and has no category |
| TransactionHelpers.ExpenseIncomeSplit | utils/transactionHelpers.ts:109-118 | expense and income exclude each other; zero and NaN are neither; every other number is one of them |
| Formatters.WholeTextReadsBack | utils/formatters.ts:24 | the rounded text reads back as the nearest whole number, within half of the value, and is never the placeholder |
| Formatters.FormatCurrencyCases | utils/formatters.ts:13-25 | the placeholder appears exactly for a missing or NaN value; otherwise the result is the rounded value's text |
| Formatters.PercentTextReadsBack | utils/formatters.ts:41 | a fraction's text ends in "%" and reads back as its rounded whole percent |
| Formatters.MissingPercentageIsZero | utils/formatters.ts:30-39 | a missing or NaN percentage shows as "0%", the percentage of 0 |
| Formatters.FormatWithCurrencyCases | utils/formatters.ts:47-49 | with the currency suffix, "-- PLN" still shows exactly for a missing or NaN value, and any other value shows its rounded amount followed by " PLN" |
| Formatters.UnreadableTransactionDisplay | utils/formatters.ts:62-64 | a NaN amount shows the placeholder and is not an expense |
| Formatters.TransactionDisplayReadsBack | utils/formatters.ts:66-74 | an amount is an expense, and shown with a minus, exactly when it is positive; its display reads back as its rounded size with the sign flipped |
| TextFormatting.SliceEnd | src/utils/formatting.ts:71 | where `slice(0, end)` stops: at `end` within the text, counted back from the end when negative |
| TextFormatting.TruncateText | src/utils/formatting.ts:66-72 | a text that fits is unchanged; otherwise its first `maxLength` characters followed by "..." (for a negative `maxLength`, the text less its last characters) |
| TextFormatting.TruncateIdempotent | src/utils/formatting.ts:66-72 | truncating twice to the same length gives the same as truncating once |
| TextFormatting.TruncatedPrefix | src/utils/formatting.ts:66-72 | the result is at most `maxLength` plus three long and starts with the text's first characters |
| TextFormatting.CapitalizeFirst | src/utils/formatting.ts:79-83 | same length; the first character upper-cased and the rest lower-cased; the empty text stays empty |
| TextFormatting.CapitalizedShape | src/utils/formatting.ts:82 | a capitalised text has no lower-case first letter and no upper-case letter after it |
| TextFormatting.CapitalizeIdempotent | src/utils/formatting.ts:79-83 | capitalising twice gives the same as capitalising once |
| TextFormatting.FormatTransactionValue | src/utils/formatting.ts:92-101 | starts with "+" exactly for a positive transaction and "-" otherwise, followed by the formatting of the value's size |
| TextFormatting.SignComesFromFlag | src/utils/formatting.ts:97-98 | the sign comes from the flag alone: a value and its negation show the same |
| DateHelpers.DayDifference | utils/dateHelpers.ts:59-60 | the whole days between the two times, rounded down |
| DateHelpers.RelativeTimeBuckets | utils/dateHelpers.ts:62-68 | 0 days is "dzisiaj", 1 is "wczoraj", fewer than 7 shows the days, fewer than 30 the whole weeks (1 to 4), fewer than 365 the whole 30-day months (1 to 12), and the date from a year on; the count reads back from the label |
| DateHelpers.RelativeTimeWithoutDate | utils/dateHelpers.ts:53-57 | an empty text has no label, and a text that is not a date shows the formatted date |
| DateHelpers.IsToday | utils/dateHelpers.ts:77-90 | true exactly when the text is non-empty and parses to today's local day |

## Left out

- Network, database and Airtable calls are not modelled. Their outcomes are
  inputs: the three insert outcomes of a calculation, and the result of
  fetching both accounts.
- Read and update errors of the budget tables are left out (the `throw`s after
  each select and update). Only insert outcomes can fail in the model.
- The user lookup (`supabase.auth.getUser()`) and its "not authenticated" error
  are left out. The tables are those of the signed-in user.
- Concurrency is left out: the cross-device insert race and `Promise.all`.
  Only the branch taken on each insert outcome is modelled.
- IEEE-754 doubles are not modelled. Amounts are exact reals, so
  binary rounding error and the exact meaning of the 0.005 tolerance under
  floating point are not reproduced.
- `parseFloat` is modelled only on optional white space, an optional
  sign, digits and an optional fraction. The exponent, "Infinity" and
  Infinity as a value are left out.
- The `Date` constructor is not modelled. Its parse is an input: the day for
  the engine and `isToday`, the time in milliseconds for `getRelativeTime`.
  The lenient roll-over of out-of-range days (such as 30 February) is not
  modelled, and such a text is an invalid date. Time zones are left out.
- Calendar.ParseFormatRoundTrip, BudgetProperties.CurrentDayBudgetOnValidDay:
  proved for four-digit years only, the ones `formatLocalDate` writes as
  `YYYY`; the text of any other year is not a `YYYY-MM-DD` key.
- `Intl.NumberFormat`, `toLocaleDateString` and `formatDatePL` are not
  modelled. The locale's currency text is a parameter of
  `FormatTransactionValue`, and the formatted date is an input of
  `GetRelativeTime`.
- The `catch` branches of `getRelativeTime` and `isToday` are left out,
  because the `Date` constructor does not throw.
- TextFormatting.UpperChar, TextFormatting.LowerChar: upper- and lower-casing
  cover the ASCII letters only. Unicode case mapping is left out.
- TextFormatting.TruncateText, TextFormatting.CapitalizeFirst: lengths and
  positions count code points, not UTF-16 code units, so a text holding
  characters outside the Basic Multilingual Plane (such as emoji) is measured
  and cut differently: JavaScript counts each such character twice and can
  cut it in half.
- TextFormatting.TruncateText: `maxLength` is an integer. A fractional
  `maxLength` is left out.
- Logging (`console.log`/`warn`/`error`) is left out, and so are the select
  after each goal update that only verifies it. Neither changes state.
- Null amounts are not modelled: transaction and recurring amounts and a
  goal's `current_amount` are plain numbers (`types/index.ts:48` declares
  `current_amount: number`), so the `|| 0` defaults the service applies to
  them are left out. The settings row's base and percents, which the
  service tests with `typeof`, are modelled as possibly null.
- `updated_at` timestamps, `user_id` columns and record IDs of inserted rows
  are not modelled. No figure depends on them.
- `createSimpleTransaction`, `getToday`, `getNow`, `formatDateForAPI`,
  `getMonthStart`, `getMonthEnd`, both `formatDate`s, `formatNumber` and the
  `formatCurrency` of `src/utils/formatting.ts` are not part of this model.
  They lie outside the budget engine and the helpers modelled here, or only
  wrap the locale formatting left out above.
- `fetchAccount` is not modelled. Its outcome (the two IDs, an account not
  found, or a failed request) is the input `fetch`.
- BudgetEngine.BuildInfo: a date text that is not a valid day fails with
  `InvalidDate`. The service would instead look up the row by the raw text.
  The service only calls it after `calculateDailyBudget` accepted the same
  text.
- The goals query's order among goals with equal percents is not fixed by
  the database. The model keeps table order for ties.
- The re-read of the goal deposit (`maybeSingle`) reads as 0 when there is
  more than one such row that day, as the query then errors and yields no data.

## Notes on the code

- `recalculateBudgetForVariableIncome` ignores its `incomeAmount` argument. It
  re-runs today's calculation, and so does the model.
- A new row on the first of the month copies its percents from a yesterday
  that does not exist, so they start at 0. The automatic deposits of the first
  day are then 0 unless percents were stored on that day's row beforehand
  (`BudgetProperties.FirstOfMonthStartsFresh`). The model follows the code.
- Once earlier shares have been rounded up, the last goal's share can be zero
  or negative (`GoalAllocation.LastShareCanBeNegative`). The model keeps this.
- `accountsCacheTimestamp` equal to 0 counts as unset, because the
  code tests it for truthiness.
- `getRelativeTime` of a date in the future labels it with a negative number
  of days ("-3 dni temu"), because every negative difference is below 7.
