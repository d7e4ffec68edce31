# Cash flow planner: the ledger engine

This project models the month ledger of the cash flow planner and proves properties about it. Given a starting balance and the month's income and expense entries, the engine does five things:

- It builds one event per item: the starting balance, dated the first of the month, then every income, then every expense.
- It sorts the events by date, stably.
- It walks the sorted events once to produce the timeline. Each row carries the event, its signed change, the balance after it and a negative flag. The same walk produces the income and expense totals, the end balance and the lowest balance.
- It walks the events a second time to produce itemised transfer recommendations, keeping a running balance of its own that includes the deposits already recommended. When that running balance is negative after an event, it recommends a deposit, the shortfall rounded up to a multiple of 100, dated on that event's day. If that day already has a recommendation, the day's amount is replaced by the new rounded shortfall only when the new one is larger, and otherwise left as it is.
- It computes one aggregate figure: the deposit, rounded up to 100, that would lift the lowest balance to zero.

The four handlers that add an entry to, or delete one from, the income and expense lists are modelled as well.

The engine's own code is imperative, and so is the model. The events are built by two loops (`Events.BuildEvents`). They are sorted in place in an `array` by an insertion sort with adjacent swaps (`DateSort.SortInPlace`). The running-balance walk is a loop that updates the balance, the totals and the minimum (`RunningBalance.RunningBalancePass`). The transfer walk is a loop that appends to the recommendation list or raises an entry of it in place (`Transfers.TransferPass`). `Ledger.ComputeLedger` chains the four.

Each method is proved equal to a specification function: `PushedEvents`, `SortByDate`, `Timeline`/`BalanceAfter`/`TotalOf`/`MinBalance` and `Plan`. `Ledger.LedgerOf` composes them. The lemmas state what those functions promise. The add and delete handlers are pure list operations (append, filter by id) and are modelled as functions.

Modelling choices:

- Dates are integers (day ordinals). The source compares `yyyy-MM-dd` strings by parsing them for the sort and by string equality when it groups recommendations by day. Integer order and integer equality give the same results.
- Amounts are whole numbers. `Math.ceil(|x| / 100) * 100` becomes `RoundUpToHundred`, the least multiple of 100 not below `|x|`.
- `minBalance` starts at positive infinity. It is modelled as `Extended = PosInfinity | Finite(value)`.
- The starting-balance event sets the balance rather than adding to it. An entry dated before the first of the month therefore sorts ahead of it and is lost from the balance, though not from the totals (`Scenarios.EarlyEntryOverwritten`). The lemmas that relate the balance to the totals require that no entry is dated before the first of the month (`Ledger.NoEarlyEntries`).

## Model

| member | source | states |
|---|---|---|
| Entries.Append | src/App.jsx:167 | the list grows by one; the new entry is last and every earlier entry is unchanged |
| Entries.RemoveId | src/App.jsx:171 | an entry survives exactly when it was in the list and its id differs; the list never grows |
| Entries.RemoveIdConcat | src/App.jsx:171 | removal works piecewise on a concatenation, so the surviving entries keep their original order |
| Entries.RemoveAbsentId | src/App.jsx:171 | removing an id that no entry carries leaves the list unchanged |
| Entries.RemoveIdIdempotent | src/App.jsx:171 | removing the same id twice equals removing it once |
| Entries.RemoveAfterAppend | src/App.jsx:166-172 | appending an entry with a fresh id and then removing that id restores the list |
| Entries.AppendSum | src/App.jsx:167 | appending adds the entry's amount to the list's total |
| Entries.AddIncome | src/App.jsx:166-168 | the income is appended at the end, the other incomes are unchanged, the expenses are untouched |
| Entries.DeleteIncome | src/App.jsx:170-172 | exactly the incomes with another id remain; the expenses are untouched |
| Entries.AddExpense | src/App.jsx:174-176 | the expense is appended at the end, the other expenses are unchanged, the incomes are untouched |
| Entries.DeleteExpense | src/App.jsx:178-180 | exactly the expenses with another id remain; the incomes are untouched |
| Entries.DeleteUndoesAddIncome | src/App.jsx:166-172 | deleting a freshly added income by its id gives back the original book |
| Entries.DeleteUndoesAddExpense | src/App.jsx:174-180 | deleting a freshly added expense by its id gives back the original book |
| Events.PushedEvents | src/App.jsx:44-73 | the event list before sorting: the starting balance dated the first of the month, then one event per income, then one per expense |
| Events.AsEventsAt | src/App.jsx:56-73 | one event per entry, in list order, carrying the entry's date, name and amount |
| Events.PushedEventsLayout | src/App.jsx:44-73 | the event list has 1 + incomes + expenses events: the starting balance first, then every income in order, then every expense in order; only the first is an opening event |
| Events.BuildEvents | src/App.jsx:44-73 | the two push loops produce exactly the specified event list |
| DateSort.Insert | src/App.jsx:76 | places an event in front of the first event not earlier than it, so it follows every earlier-dated event |
| DateSort.SortByDate | src/App.jsx:76 | the stable date sort, as repeated insertion; its properties are the lemmas below |
| DateSort.InsertCount | src/App.jsx:76 | inserting adds exactly the one event |
| DateSort.InsertOnDate | src/App.jsx:76 | inserting keeps the inserted event ahead of its own day's events, day by day |
| DateSort.InsertSorted | src/App.jsx:76 | inserting into a date-ordered list keeps it date-ordered |
| DateSort.SortByDateProperties | src/App.jsx:76 | the sorted list is in date order, is a permutation of the input, and keeps the input's order within each day (stability) |
| DateSort.SortedUnique | src/App.jsx:76 | two date-ordered lists with the same events in the same order on every day are equal, so a stable sort has one possible result |
| DateSort.InsertLast | src/App.jsx:76 | one pass of the inner loop: the first i + 1 events become date-ordered and hold the same events as before, everything after them is unchanged, and each day keeps its order |
| DateSort.SortInPlace | src/App.jsx:76 | the array ends date-ordered, a permutation of what it held, each day's events in their original order, and equal to the stable sort of its old contents |
| RunningBalance.BalanceAfter | src/App.jsx:84-97 | the balance after a list of events, starting from 0: the starting balance event sets it, an income adds, an expense subtracts |
| RunningBalance.Timeline | src/App.jsx:84-109 | one row per event with its change, the balance after it and the negative flag |
| RunningBalance.TotalOf | src/App.jsx:89-96 | the sum of the amounts of the events of one kind |
| RunningBalance.MinBalance | src/App.jsx:99-101 | the lowest balance after any event, positive infinity for no events |
| RunningBalance.TimelineAt | src/App.jsx:84-109 | one row per event; row k holds event k, its signed change and the balance after the first k + 1 events, flagged negative exactly when that balance is below zero |
| RunningBalance.TimelineEvents | src/App.jsx:103-108 | the rows list the events in the order they were given |
| RunningBalance.BalanceAtStep | src/App.jsx:87-97 | after the opening event the balance is its amount; after any other event it is the previous balance plus the event's change |
| RunningBalance.MinBalanceIsMinimum | src/App.jsx:99-101 | the lowest balance is infinite only with no events; otherwise it is the balance after some event and no balance is lower |
| RunningBalance.TotalOfConcat | src/App.jsx:89-96 | the per-kind total of a concatenation is the sum of the totals |
| RunningBalance.BalanceFromOpening | src/App.jsx:87-96 | when the opening event comes first and only once, the balance is its amount plus all income minus all expenses |
| RunningBalance.RunningBalancePass | src/App.jsx:79-109 | the loop's rows, balance, both totals and minimum equal the timeline, the end balance, the per-kind totals and the lowest balance of the events |
| Transfers.RoundUpToHundred | src/App.jsx:124 | the result is a multiple of 100 at least n and less than n + 100 |
| Transfers.FindByDate | src/App.jsx:123 | the first index holding that date, or -1 when no recommendation has it |
| Transfers.Step | src/App.jsx:116-140 | one visit of the pass: apply the change; if the running balance is negative, append a rounded-up recommendation for a new date, or for a date already recommended replace its amount and add back the difference only when the new need is larger |
| Transfers.Plan | src/App.jsx:112-141 | the pass over all events, starting from the starting balance with no recommendations |
| Transfers.StepEffect | src/App.jsx:115-140 | one step keeps every recommendation in place with an amount no smaller, changes none dated on another day, and appends at most one, for a date not yet recommended, which lifts the running balance into [0, 100) |
| Transfers.StepKeepsShape | src/App.jsx:115-140 | one step keeps dates distinct and amounts positive multiples of 100, and only recommends for the event's date |
| Transfers.PlanShape | src/App.jsx:112-141 | after the pass no two recommendations share a date and every amount is a positive multiple of 100 |
| Transfers.PlanDates | src/App.jsx:112-141 | every recommendation is dated on the day of a visited event |
| Transfers.PlanInDateOrder | src/App.jsx:112-141 | over date-sorted events the recommendations come out in date order |
| Transfers.PlanOnlyGrows | src/App.jsx:126-131 | a recommendation, once made, stays at its position with its date and event, and its amount never decreases |
| Transfers.PlanNewRecommendation | src/App.jsx:132-139 | when an event appends a recommendation, it is for that event's date and leaves the pass's running balance in [0, 100) |
| Transfers.RecommendedUpdate | src/App.jsx:129 | overwriting one amount changes the recommended total by the difference |
| Transfers.StepAccounts | src/App.jsx:116-139 | a step moves the running balance by the event's change plus what it adds to the recommended total |
| Transfers.PlanAccounts | src/App.jsx:112-141 | the pass's running balance is the starting balance plus the events' changes plus the total recommended |
| Transfers.CoveringStep | src/App.jsx:126-131 | the corrected visit: a further shortfall on an already recommended date raises that recommendation by the new rounded need |
| Transfers.CoveringPlan | src/App.jsx:112-141 | the corrected pass over all events |
| Transfers.CoveringStepAccounts | src/App.jsx:126-131 | the corrected step accounts the same way and always leaves the running balance non-negative |
| Transfers.CoveringStepShape | src/App.jsx:126-131 | the corrected step keeps dates distinct and amounts positive multiples of 100 |
| Transfers.CoveringPlanCovers | src/App.jsx:112-141 | the corrected pass accounts like the original, never ends below zero after an event, and keeps distinct dates and positive multiples of 100 |
| Transfers.TransferPass | src/App.jsx:112-141 | the loop yields the pass's recommendations: distinct dates, positive multiples of 100, in date order when the events are sorted |
| Ledger.LedgerOf | src/App.jsx:43-157 | the engine's result as a function of its inputs: the timeline, the recommendations and the statistics of the sorted events |
| Ledger.TransferNeeded | src/App.jsx:143-145 | a non-negative multiple of 100; 0 exactly when the lowest balance is not negative; otherwise at least the shortfall and less than 100 above it |
| Ledger.ComputeLedger | src/App.jsx:43-157 | the engine's result equals the specified ledger; it has 1 + incomes + expenses rows and its totals are the sums of the entry amounts |
| Ledger.TotalOfInsert | src/App.jsx:89-96 | inserting an event anywhere does not change the per-kind totals |
| Ledger.TotalOfSorted | src/App.jsx:89-96 | sorting does not change the per-kind totals |
| Ledger.TotalOfEntries | src/App.jsx:56-73 | the income events total the income amounts and contribute nothing to expenses, and the reverse for expenses |
| Ledger.LedgerRowCount | src/App.jsx:44-84 | the timeline has exactly 1 + incomes + expenses rows |
| Ledger.PushedOnDate | src/App.jsx:48-73 | on each day the pushed events are the starting balance (on the first of the month), then that day's incomes, then that day's expenses |
| Ledger.LedgerRowOrder | src/App.jsx:48-76 | the rows are in date order, hold exactly the pushed events, and on each day list the starting balance, then incomes in list order, then expenses in list order |
| Ledger.LedgerRowSigns | src/App.jsx:85-107 | each row's change is +amount for an income, -amount for an expense and 0 for the starting balance; a row is negative exactly when its balance is |
| Ledger.LedgerTotals | src/App.jsx:89-96 | total income and total expenses are the sums of the entry amounts, whatever the dates |
| Ledger.EarliestSortsFirst | src/App.jsx:76 | an event no later than all the others sorts in front of them |
| Ledger.PushedNotEarly | src/App.jsx:45-73 | with no early entries every pushed event falls on or after the first of the month |
| Ledger.OpeningSortsFirst | src/App.jsx:45-76 | with no early entries the starting balance sorts first and is the only opening event |
| Ledger.LedgerFromOpening | src/App.jsx:79-108 | with no early entries the first row is the starting balance with change 0, each later balance is the previous one plus the row's change, and the end balance is starting balance + income - expenses |
| Ledger.NetChangeTotals | src/App.jsx:116-120 | the events' net change is their income minus their expenses |
| Ledger.CoveringPlanCoversRows | src/App.jsx:112-141 | with no early entries, under the corrected pass every row's balance plus the deposits recommended up to that row is non-negative |
| Ledger.LowestRow | src/App.jsx:99-101 | the lowest balance is some row's balance and no row is lower |
| Ledger.CoverFromLowest | src/App.jsx:143-145 | for a lowest row, the figure is 0 exactly when no row is negative, covers every row, and is the least multiple of 100 covering the lowest balance |
| Ledger.AggregateTransfer | src/App.jsx:143-145 | the aggregate figure is 0 exactly when no row is negative; it covers every row; otherwise it is the least multiple of 100 not below the lowest row's shortfall |
| Ledger.LedgerTransferNeeded | src/App.jsx:143-145 | the same statement for the engine's timeline and its transferNeeded statistic |
| Ledger.LedgerTransfers | src/App.jsx:112-141 | the engine's recommendations have distinct dates, positive multiples of 100, come in date order, and each is dated on a timeline row |
| Scenarios.OpeningOnly | src/App.jsx:43-157 | no entries and a zero start give one row, no recommendations and all statistics zero |
| Scenarios.RentSalarySorted | src/App.jsx:76 | an expense on day 5 sorts ahead of an income on day 10, after the starting balance |
| Scenarios.RentSalaryTimeline | src/App.jsx:84-109 | balances 1000, -1000, -500, the last two flagged negative; lowest balance -1000 |
| Scenarios.RentSalaryPlan | src/App.jsx:112-141 | one recommendation of 1000 before the day-5 expense, not reduced by the later income |
| Scenarios.ExpenseBeforeIncome | src/App.jsx:43-157 | start 1000, expense 2000 on day 5, income 500 on day 10: the full timeline, one recommendation of 1000, and statistics 500 / 2000 / -500 / 1000 |
| Scenarios.EarlyEntryOverwritten | src/App.jsx:87-88 | an income dated before the first of the month counts in total income but is overwritten in the balance |
| Scenarios.SameDaySorted | src/App.jsx:76 | two expenses of the same day keep their list order after the starting balance |
| Scenarios.SameDayTimeline | src/App.jsx:84-109 | balances 100, -50, -170 on the same-day input |
| Scenarios.SameDayPlan | src/App.jsx:126-131 | the source's pass keeps the day's recommendation at 100 and its running balance ends at -70 |
| Scenarios.SameDayCoveringPlan | src/App.jsx:126-131 | the corrected pass raises the day's recommendation to 200 and ends at 30 |
| Scenarios.SameDayShortfallUndersized | src/App.jsx:126-131 | on an input with no early entries, the source recommends 100 for a day whose balance ends at -170, so that row stays negative after the deposit; the corrected pass recommends 200 |

## Left out

- React state, hooks and memoisation. The engine is modelled as a function of its inputs, and the handlers as functions from the old lists to the new ones.
- Loading from and saving to localStorage, and JSON encoding: I/O.
- Currency formatting and date formatting for display: presentation via library calls.
- Building the first-of-month date from the year and month, and formatting it as a string. Both are library calls. The model takes the first of the month as a day ordinal.
- Floating-point amounts and `parseFloat`. Amounts are whole numbers, so rounding error and NaN amounts are not modelled.
- Invalid or unparsable dates. `new Date` would give NaN and make the sort comparator inconsistent. Dates are always valid ordinals here.
- Entry id generation, the entry form and its guard, the display sort and the rendering components. These are outside the engine.
- The sort is specified as stable, as the language standard requires of `Array.prototype.sort` since 2019. It is implemented as an insertion sort. The comparator's exact call sequence is not modelled.
- Transfers.TransferPass: it raises a recommendation by replacing the list element. Nothing else in the engine holds a reference to the transfer objects, so aliasing is not modelled.
- The same-day sizing of recommendations follows the code. The timeline view tells the user to transfer the recommended amounts before the listed dates "to avoid negative balance" (src/components/Timeline.jsx:37). On a second shortfall on the same day, the code compares the new rounded shortfall with the existing amount instead of adding it, so the recommendation can fall short of that promise. The engine models the code. A pass that keeps the promise is modelled beside it (see Findings).

## Findings

| source | as written | input that shows it | evidently intended | confidence | as-written member | corrected member |
|---|---|---|---|---|---|---|
| src/App.jsx:126-131 | on a further shortfall on a date that already has a recommendation, the new need (computed after that recommendation was applied) is compared with the existing amount and replaces it only if larger, so the deposit for the day is not increased by the new need | starting balance 100, expenses of 150 and 120 both on day 3, first of the month day 1: one recommendation of 100 for day 3, while that day's balance ends at -170, so it stays at -70 after the deposit | raise the day's recommendation by the new need (to 200 here), so that after every event the balance plus the deposits recommended so far is non-negative, as the timeline view promises (src/components/Timeline.jsx:37) | not executed | Scenarios.SameDayShortfallUndersized | Ledger.CoveringPlanCoversRows |

The ledger engine (`Ledger.LedgerOf`, `Ledger.ComputeLedger`) keeps the recommendation pass as written in the source. The corrected pass is `Transfers.CoveringPlan`. Its step raises an existing recommendation by the extra amount needed. `Transfers.CoveringPlanCovers` and `Ledger.CoveringPlanCoversRows` prove the intended coverage property for it, over the same sorted events and timeline.
