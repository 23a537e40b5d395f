# FinanceOS household tracker — a verified model

FinanceOS is a desktop app for tracking a household's money. It is built on
Electron and React. Two people, John and Hannah, record income and expense
transactions and their loans. The app shows dashboards over those records and
sits behind a four-digit PIN lock screen.

This project models, in Dafny, the logic of that app:

- `Finance` is the finance engine: runway, savings rate, outlier statistics
  and the trend slope.
- `LockScreen` is the PIN pad, the three-strike lockout with its countdown,
  and the inactivity relock. It is written as transition functions over a
  `LockState` plus a `PinPad` class whose methods perform those transitions
  in place.
- `App` is the main screen:
  - the search and owner filter that produce the visible transactions;
  - the trend-chart data;
  - `closeModal`, `openNew`, `openEdit`, `handleSave` and `handleDelete` on
    the transaction list and the form. These are functions of a `Screen`
    value, plus a `Dashboard` class with those fields whose methods update
    it.
- `CoreOverview` holds the four headline cards.
- `ExpenseIntelligence` is the spending breakdown: category sums sorted
  largest first, the needs/wants split and the top expense.
- `IncomeAnalytics` is the income panel: per-source sums, monthly totals,
  average, coefficient of variation and the stability score.
- `LoanTracker` covers:
  - the debt totals and payoff progress;
  - the per-loan labels;
  - the loan form: `closeModal`, `openEdit`, the "Add Loan" button and the
    request `handleSave` sends.
- Three support modules:
  - `Records` holds the transaction record and the kind and category sums.
  - `Aggregation` holds the insertion-ordered dictionary that
    `bySource[k] = (bySource[k] || 0) + amt` builds, and the
    descending-value sort applied to it.
  - `Decimal` holds decimal digit strings, used for the countdown and the
    loan labels.

Amounts are `real`. A result that JavaScript would make `NaN` or `Infinity`
is the `Num.NonFinite` value wherever the source can produce one. Values
that come from outside the logic are parameters:

- the clock (`now`, `monthIndex`);
- `parseFloat`;
- the date-fns helpers (`monthKey`, `dateLabel`, `monthsUntil`,
  `daysUntil`);
- `Math.sqrt` (`sqrt`, constrained by `IsRoot` where a property needs it);
- the answers of the server and of the confirmation dialog (`inserted`,
  `confirmed`).

## Model

| member | source | states |
|---|---|---|
| Finance.CalcRunway | src/renderer/lib/finance.ts:4-7 | Infinite exactly when the burn is 0; otherwise balance/burn rounded to the nearest tenth, ties away from zero, and never positive when balance and burn have opposite signs |
| Finance.CalcSavingsRate | src/renderer/lib/finance.ts:10-13 | 0 when income is 0; otherwise rate × income = (income − expenses) × 100; at most 100 for non-negative expenses; non-negative exactly when expenses ≤ income |
| Finance.SavingsRateExample | src/renderer/lib/finance.ts:10-13 | 1000 income and 800 expenses give a 20% savings rate |
| Finance.DetectOutliers | src/renderer/lib/finance.ts:16-21 | no statistics exactly when fewer than 5 amounts; otherwise mean × n = sum, stdDev = sqrt(sum of squared deviations / n), threshold = mean + 2·stdDev |
| Finance.ThresholdAtLeastMean | src/renderer/lib/finance.ts:19-20 | with a true square root, the standard deviation is non-negative and the threshold is at least the mean |
| Finance.OutlierExample | src/renderer/lib/finance.ts:16-21 | [10,10,10,10,100] gives mean 28, standard deviation 36 and threshold 100 |
| Finance.TrendSlopeFormula | src/renderer/lib/finance.ts:24-36 | for two or more points the result is the least-squares quotient over the sums the code builds, and its denominator is positive |
| Finance.TrendSlopeAsWritten | src/renderer/lib/finance.ts:31 | the code's sumXY equals sumY, so the slope is computed with sumY in place of the sum of index × point |
| Finance.TrendSlopeOfThreePoints | src/renderer/lib/finance.ts:28-34 | as written, every three-point series has slope 0 |
| Finance.TrendSlopeOfOneToFour | src/renderer/lib/finance.ts:31 | as written, the rising series [1,2,3,4] gets slope −1 |
| Finance.TrendSlopeOfOnePoint | src/renderer/lib/finance.ts:26-34 | as written, one point makes the denominator 0, so the result is not finite: y/0 (Infinity) for y ≠ 0 and 0/0 (NaN) for y = 0 |
| Finance.TrendSlopeOfNoPoints | src/renderer/lib/finance.ts:27 | no points give 0 |
| Finance.SlopeDenominatorClosed | src/renderer/lib/finance.ts:29-34 | n·Σi² − (Σi)² = n²(n²−1)/12, which is 0 for one point and positive from two points |
| Finance.LeastSquaresSlopeOfLine | src/renderer/lib/finance.ts:23-35 | the corrected slope of any series a + b·i with two or more points is exactly b |
| Finance.LeastSquaresSlopeOfLineSums | src/renderer/lib/finance.ts:28-35 | from two points on, whenever sumY = n·a + b·sumX and the index-weighted sum = a·sumX + b·sumXX, the corrected slope is b |
| Finance.LeastSquaresExamples | src/renderer/lib/finance.ts:23-35 | the corrected slope is 1 for [1,2,3,4], 0 for a constant series and 0 for one point or none |
| Finance.RootIsUnique | src/renderer/lib/finance.ts:19 | a function meeting IsRoot returns the unique non-negative root |
| Finance.SquaredDeviationsNonNegative | src/renderer/lib/finance.ts:19 | the sum of squared deviations is never negative |
| Finance.Round | src/renderer/components/dashboard/CoreOverview.tsx:59 | Math.round is within half a unit of its argument |
| Finance.RoundToTenths | src/renderer/lib/finance.ts:6 | toFixed(1) rounds to the nearest tenth, a tie going to the larger magnitude, and keeps the sign |
| Finance.NearestTenthsUnique | src/renderer/lib/finance.ts:6 | the nearest-tenth rule picks exactly one number of tenths |
| Finance.RoundToTenthsExamples | src/renderer/lib/finance.ts:6 | 0.25 gives 0.3, −0.25 gives −0.3, 0.24 gives 0.2 and −0.26 gives −0.3 |
| LockScreen.Validate | src/renderer/components/LockScreen.tsx:50-66 | the PIN is cleared; the correct PIN resets attempts and unlocks; a wrong one adds an attempt and, on reaching 3, sets the lockout to now + 300000 ms |
| LockScreen.Press | src/renderer/components/LockScreen.tsx:37-48 | ignored during a lockout or once unlocked; the digit is appended below 4 digits, and the fourth digit submits the PIN |
| LockScreen.Backspace | src/renderer/components/LockScreen.tsx:68-70 | drops the last digit, does nothing on an empty PIN, and changes no other field |
| LockScreen.CeilSeconds | src/renderer/components/LockScreen.tsx:25 | Math.ceil(ms / 1000) is the least whole number of seconds covering ms |
| LockScreen.Tick | src/renderer/components/LockScreen.tsx:21-35 | no effect without a lockout; never changes the PIN or the lock |
| LockScreen.Relock | src/renderer/App.tsx:45 | the inactivity timeout locks the app; since the lock screen is rendered only while locked (App.tsx line 105), an unlocked app gets a freshly mounted lock screen, and a locked one is unchanged |
| LockScreen.InitialState | src/renderer/components/LockScreen.tsx:15-18 | the screen starts locked, with an empty PIN, no attempts and no lockout, and satisfies the invariant |
| LockScreen.StepKeepsInv | src/renderer/components/LockScreen.tsx:21-70 | every event keeps the invariant: PIN under 4 digits, attempts within 0..3, and a lockout only at 3 attempts while locked |
| LockScreen.RunKeepsInv | src/renderer/components/LockScreen.tsx:21-70 | any sequence of events keeps the invariant |
| LockScreen.PressIgnoredWhenLockedOut | src/renderer/components/LockScreen.tsx:38 | a key press during a lockout, or once unlocked, changes nothing |
| LockScreen.PressAppendsOrSubmits | src/renderer/components/LockScreen.tsx:39-46 | below three digits a press appends; at three it submits; the PIN never reaches 4 digits |
| LockScreen.TypingFourDigits | src/renderer/components/LockScreen.tsx:37-48 | typing four digits on an empty PIN validates exactly those digits |
| LockScreen.CorrectPinUnlocks | src/renderer/components/LockScreen.tsx:10-55 | typing 1022 unlocks and resets the attempts |
| LockScreen.WrongPinCounts | src/renderer/components/LockScreen.tsx:56-65 | typing a wrong PIN adds an attempt and keeps the lock |
| LockScreen.ThreeWrongPinsLockOut | src/renderer/components/LockScreen.tsx:11-63 | three wrong PINs from the start lock out until the third entry's time + 300000 |
| LockScreen.BackspaceDropsLast | src/renderer/components/LockScreen.tsx:69 | backspace is slice(0, -1) |
| LockScreen.BackspaceIdleWhenLockedOut | src/renderer/components/LockScreen.tsx:68-70 | during a lockout backspace changes nothing, although the code does not check for one |
| LockScreen.RelockIdempotent | src/renderer/App.tsx:45 | relocking twice is relocking once; relocking an unlocked app gives the initial lock state |
| LockScreen.TickBeforeDeadline | src/renderer/components/LockScreen.tsx:25-30 | before the deadline a tick only updates timeLeft, to the seconds remaining rounded up (at most 300) |
| LockScreen.TickAfterDeadline | src/renderer/components/LockScreen.tsx:26-28 | at or after the deadline a tick clears the lockout and the attempts |
| LockScreen.LockoutExpires | src/renderer/components/LockScreen.tsx:26-28 | once the lockout expires the pad accepts input again with 0 attempts |
| LockScreen.CountdownText | src/renderer/components/LockScreen.tsx:88 | minutes in decimal, a colon, then seconds padded to two digits |
| LockScreen.CountdownRoundTrip | src/renderer/components/LockScreen.tsx:88 | reading the countdown text back gives the seconds left |
| LockScreen.CountdownTextInjective | src/renderer/components/LockScreen.tsx:88 | different times never show the same countdown |
| LockScreen.CountdownExamples | src/renderer/components/LockScreen.tsx:12-88 | 300 s shows 5:00 and 65 s shows 1:05 |
| LockScreen.StatusText | src/renderer/components/LockScreen.tsx:87-89 | the countdown message during a lockout, the product tagline otherwise |
| LockScreen.AttemptErrorBelowLimit | src/renderer/components/LockScreen.tsx:106-110 | the "Incorrect PIN (n/3)" message only ever shows 1 or 2 attempts |
| LockScreen.PinPad.constructor | src/renderer/components/LockScreen.tsx:15-18 | a new pad is in the initial state |
| LockScreen.PinPad.ValidatePin | src/renderer/components/LockScreen.tsx:50-66 | the fields become Validate of the old state |
| LockScreen.PinPad.HandlePress | src/renderer/components/LockScreen.tsx:37-48 | the fields become Press of the old state, and the invariant is kept |
| LockScreen.PinPad.HandleBackspace | src/renderer/components/LockScreen.tsx:68-70 | the fields become Backspace of the old state, and the invariant is kept |
| LockScreen.PinPad.OnTick | src/renderer/components/LockScreen.tsx:24-32 | the fields become Tick of the old state, and the invariant is kept |
| LockScreen.PinPad.OnInactivity | src/renderer/App.tsx:43-46 | the fields become Relock of the old state, and the invariant is kept |
| Records.TotalSplitsByKind | src/renderer/components/dashboard/CoreOverview.tsx:9-13 | the income total plus the expense total is the total of all transactions |
| Records.OfKindMembers | src/renderer/components/dashboard/CoreOverview.tsx:9-10 | the filter by type keeps exactly the transactions of that type |
| Records.SortedGroups | src/renderer/components/dashboard/ExpenseIntelligence.tsx:17-25 | the sorted category list has distinct names, is sorted descending, sums to the total, names exactly the categories present, and keeps groups of equal value in first-occurrence order |
| Aggregation.GroupedLookup | src/renderer/components/dashboard/ExpenseIntelligence.tsx:19 | the dictionary holds, for each key, the sum of that key's amounts, and holds exactly the keys present |
| Aggregation.GroupedNames | src/renderer/components/dashboard/IncomeAnalytics.tsx:18-20 | Object.keys lists each key once, in first-insertion order |
| Aggregation.GroupedSum | src/renderer/components/dashboard/IncomeAnalytics.tsx:18 | the grouped values add up to the sum of all amounts |
| Aggregation.Tally | src/renderer/components/dashboard/IncomeAnalytics.tsx:18 | the forEach loop builds the grouped dictionary |
| Aggregation.SortDescPermutes | src/renderer/components/dashboard/ExpenseIntelligence.tsx:24 | the sort is a permutation of the entries |
| Aggregation.SortDescSorted | src/renderer/components/dashboard/ExpenseIntelligence.tsx:24 | the sort orders the entries by value, largest first |
| Aggregation.InsertOfValue | src/renderer/components/dashboard/ExpenseIntelligence.tsx:24 | an inserted entry goes before every entry of equal value, and the others keep their order |
| Aggregation.SortDescStable | src/renderer/components/dashboard/ExpenseIntelligence.tsx:24 | the sort is stable: the entries of each value come out in their original order |
| Aggregation.SortDescHead | src/renderer/components/dashboard/IncomeAnalytics.tsx:36 | the first entry after sorting carries the largest value |
| CoreOverview.BurnDivisor | src/renderer/components/dashboard/CoreOverview.tsx:16 | Math.max(1, month + 1) is at least 1 and is the month number for January..December |
| CoreOverview.MonthlyBurn | src/renderer/components/dashboard/CoreOverview.tsx:16 | monthly burn × months elapsed = total expense; burn is 0 exactly when nothing was spent |
| CoreOverview.DailyBurn | src/renderer/components/dashboard/CoreOverview.tsx:19 | daily burn × 30 = monthly burn |
| CoreOverview.TotalsAndNetWorth | src/renderer/components/dashboard/CoreOverview.tsx:9-14 | income and expense totals partition the transactions, and net worth is their difference |
| CoreOverview.AddingOneTransaction | src/renderer/components/dashboard/CoreOverview.tsx:9-13 | a new expense moves only the expense total, and a new income only the income total |
| CoreOverview.BurnRates | src/renderer/components/dashboard/CoreOverview.tsx:16-19 | the card's monthly and daily burn satisfy those two equations |
| CoreOverview.RunwayOfOverview | src/renderer/components/dashboard/CoreOverview.tsx:17 | the runway is infinite exactly when the expense total is 0; otherwise it is net worth over monthly burn |
| CoreOverview.SavingsRateBounds | src/renderer/components/dashboard/CoreOverview.tsx:18-52 | with non-negative amounts and some income: rate ≤ 100, the bar is as wide as the rate, and the figure is green exactly when expenses stay under 80% of income |
| CoreOverview.BurnShown | src/renderer/components/dashboard/CoreOverview.tsx:59-62 | the card's burn figures are within half a unit of the monthly and daily burn |
| CoreOverview.SavingsShown | src/renderer/components/dashboard/CoreOverview.tsx:49 | the shown savings rate is the rate rounded to the nearest tenth, ties away from zero |
| CoreOverview.SavingsBarWidth | src/renderer/components/dashboard/CoreOverview.tsx:52 | Math.min(rate, 100): at most 100, at most the rate, and one of the two |
| ExpenseIntelligence.Summarize | src/renderer/components/dashboard/ExpenseIntelligence.tsx:10-26 | the forEach loop computes the breakdown: sorted category sums, total, needs, wants and top expense |
| ExpenseIntelligence.IncomeDoesNotCount | src/renderer/components/dashboard/ExpenseIntelligence.tsx:11 | adding an income transaction at either end changes no figure of the breakdown |
| ExpenseIntelligence.NeedsPlusWants | src/renderer/components/dashboard/ExpenseIntelligence.tsx:7-25 | wants are the expenses outside the needs list, and needs + wants = total |
| ExpenseIntelligence.CategoriesAddUp | src/renderer/components/dashboard/ExpenseIntelligence.tsx:12-24 | the category sums add up to the expense total |
| ExpenseIntelligence.CategoriesDistinctAndSorted | src/renderer/components/dashboard/ExpenseIntelligence.tsx:19-24 | one entry per category, sorted largest first; a category is listed exactly when some expense has it |
| ExpenseIntelligence.CategoryTiesInFirstOrder | src/renderer/components/dashboard/ExpenseIntelligence.tsx:19-24 | categories with equal sums are listed in the order they first occur among the expenses |
| ExpenseIntelligence.CategoryValue | src/renderer/components/dashboard/ExpenseIntelligence.tsx:19 | each listed value is the sum of that category's expenses |
| ExpenseIntelligence.TopDominates | src/renderer/components/dashboard/ExpenseIntelligence.tsx:21 | the top expense is at least every expense and at least 0 |
| ExpenseIntelligence.TopIsNoneUnlessPositive | src/renderer/components/dashboard/ExpenseIntelligence.tsx:14-21 | the top expense stays 'None'/0 exactly when no expense is positive |
| ExpenseIntelligence.TopIsEarliestLargest | src/renderer/components/dashboard/ExpenseIntelligence.tsx:21 | the top expense is an actual expense, and every earlier one is strictly smaller |
| ExpenseIntelligence.HiddenWithoutExpenses | src/renderer/components/dashboard/ExpenseIntelligence.tsx:28 | with no expenses the panel renders nothing |
| ExpenseIntelligence.BarIsFull | src/renderer/components/dashboard/ExpenseIntelligence.tsx:72-73 | when shown, the needs and wants segments add up to 100% |
| ExpenseIntelligence.BarWidths | src/renderer/components/dashboard/ExpenseIntelligence.tsx:72-73 | the two widths add up to 100 when needs + wants = total |
| IncomeAnalytics.Summarize | src/renderer/components/dashboard/IncomeAnalytics.tsx:13-38 | the loops compute the income summary |
| IncomeAnalytics.Mean | src/renderer/components/dashboard/IncomeAnalytics.tsx:28 | 0 for no values; otherwise mean × count = sum |
| IncomeAnalytics.CoefficientOfVariation | src/renderer/components/dashboard/IncomeAnalytics.tsx:29-30 | 0 when the mean is 0 |
| IncomeAnalytics.Clamp | src/renderer/components/dashboard/IncomeAnalytics.tsx:34 | Math.max(0, Math.min(100, x)) lies in 0..100 and is x inside that range |
| IncomeAnalytics.Stability | src/renderer/components/dashboard/IncomeAnalytics.tsx:34 | the score lies in 0..100; it is 100 for no variation and 0 once the variation reaches 1 |
| IncomeAnalytics.HiddenWithoutIncome | src/renderer/components/dashboard/IncomeAnalytics.tsx:15-40 | with no income the empty summary is returned and the panel renders nothing |
| IncomeAnalytics.SourcesAddUp | src/renderer/components/dashboard/IncomeAnalytics.tsx:17-40 | with income the panel shows; the sources are distinct, sorted descending, add up to the income total, and name exactly the categories present |
| IncomeAnalytics.SourceTiesInFirstOrder | src/renderer/components/dashboard/IncomeAnalytics.tsx:17-20 | sources with equal sums are listed in the order they first occur among the incomes |
| IncomeAnalytics.TopSourceIsLargest | src/renderer/components/dashboard/IncomeAnalytics.tsx:36 | the top source's value is the largest source sum |
| IncomeAnalytics.MonthlyTotalsFacts | src/renderer/components/dashboard/IncomeAnalytics.tsx:22-27 | one total per distinct month, at least one, summing to the income total |
| IncomeAnalytics.AverageTimesMonths | src/renderer/components/dashboard/IncomeAnalytics.tsx:28-35 | average monthly income × the number of months = the income total |
| IncomeAnalytics.SteadyIncomeIsFullyStable | src/renderer/components/dashboard/IncomeAnalytics.tsx:29-34 | equal monthly totals give variation 0 and stability 100 |
| IncomeAnalytics.VariationNonNegative | src/renderer/components/dashboard/IncomeAnalytics.tsx:29-30 | non-negative totals give a non-negative coefficient of variation |
| IncomeAnalytics.SteadyMonthsScoreFull | src/renderer/components/dashboard/IncomeAnalytics.tsx:22-34 | when every month has the same total, the panel's stability is 100 |
| LoanTracker.Progress | src/renderer/components/dashboard/LoanTracker.tsx:38-40 | 0 when nothing was borrowed; otherwise progress × original = (original − debt) × 100 |
| LoanTracker.DebtWithinOriginal | src/renderer/components/dashboard/LoanTracker.tsx:38-39 | balances within 0..amount give a debt total within 0..original total |
| LoanTracker.ProgressInRange | src/renderer/components/dashboard/LoanTracker.tsx:40 | progress lies in 0..100, and is 100 exactly when the debt is paid off |
| LoanTracker.LoanProgress | src/renderer/components/dashboard/LoanTracker.tsx:67 | non-finite exactly when the loan amount is 0; otherwise progress × amount = paid × 100 |
| LoanTracker.LoanProgressInRange | src/renderer/components/dashboard/LoanTracker.tsx:67 | a positive amount and a balance within it give a finite progress in 0..100 |
| LoanTracker.MonthsLeft | src/renderer/components/dashboard/LoanTracker.tsx:68 | 0 without a due date, otherwise the months until it |
| LoanTracker.DaysToNext | src/renderer/components/dashboard/LoanTracker.tsx:69 | none exactly when there is no next payment date, otherwise the days until it |
| LoanTracker.PayoffLabelMeaning | src/renderer/components/dashboard/LoanTracker.tsx:96 | "Due soon!" exactly when no months are left; otherwise the label reads back as the month count |
| LoanTracker.NextPaymentLabelMeaning | src/renderer/components/dashboard/LoanTracker.tsx:101 | "Overdue!" exactly for negative days, "Today!" exactly for 0, otherwise the label reads back as the day count |
| LoanTracker.Closed | src/renderer/components/dashboard/LoanTracker.tsx:36 | closeModal closes the form, clears the edit id and every text field, and keeps the owner |
| LoanTracker.Opened | src/renderer/components/dashboard/LoanTracker.tsx:62 | "Add Loan" only opens the modal |
| LoanTracker.RequestOf | src/renderer/components/dashboard/LoanTracker.tsx:28-31 | an update exactly when editingId is truthy, for that id; the payload carries the name, owner and both dates from the form, and parseFloat of the total and balance texts |
| LoanTracker.EditThenSave | src/renderer/components/dashboard/LoanTracker.tsx:30-35 | editing a loan and saving unchanged sends an update of that loan with its own values |
| LoanTracker.AddAfterClose | src/renderer/components/dashboard/LoanTracker.tsx:31-133 | after closing, "Add Loan" opens an empty form that the `required` inputs keep from being submitted; handleSave on that form would insert an empty loan that keeps the owner |
| LoanTracker.EditingSubmittable | src/renderer/components/dashboard/LoanTracker.tsx:118-133 | an opened edit can be submitted exactly when the loan's name, both amount texts and the target date are non-empty |
| LoanTracker.LoanForm.constructor | src/renderer/components/dashboard/LoanTracker.tsx:13-25 | a new form is in the initial state |
| LoanTracker.LoanForm.CloseModal | src/renderer/components/dashboard/LoanTracker.tsx:36 | the fields become Closed of the old state |
| LoanTracker.LoanForm.OpenEdit | src/renderer/components/dashboard/LoanTracker.tsx:35 | the fields are loaded from the loan and the modal opens |
| LoanTracker.LoanForm.OpenNew | src/renderer/components/dashboard/LoanTracker.tsx:62 | the fields become Opened of the old state |
| LoanTracker.LoanForm.HandleSave | src/renderer/components/dashboard/LoanTracker.tsx:28-33 | returns the request for the old form and then closes the form |
| App.FilterMembers | src/renderer/App.tsx:67 | Array.filter keeps exactly the elements the predicate accepts |
| App.FilterInOrder | src/renderer/App.tsx:67 | Array.filter keeps the elements' order |
| App.FilterCounts | src/renderer/App.tsx:67 | Array.filter keeps every copy of an accepted element and no copy of a rejected one |
| App.VisibleMembers | src/renderer/App.tsx:66-72 | 'All' keeps every search match; a name keeps only that name's matches, so shared and owner-less items drop out; the order is kept |
| App.EmptySearchShowsAll | src/renderer/App.tsx:68-69 | an empty search with 'All' shows the whole list |
| App.Lower | src/renderer/App.tsx:68 | toLowerCase keeps the length, maps each capital letter to its own lower-case letter (code + 32) and keeps every other character |
| App.ChartData | src/renderer/App.tsx:74-78 | one chart point per visible transaction |
| App.ChartDataReversed | src/renderer/App.tsx:74-78 | the chart lists the visible transactions in reverse order |
| App.EditChangesOnlyThatItem | src/renderer/App.tsx:87 | the edit keeps the length and every other item; the edited item keeps its id, type and date and takes the form's fields |
| App.WithoutIdMembers | src/renderer/App.tsx:95 | the delete keeps exactly the items with another id, every copy of them, in order |
| App.RequestOf | src/renderer/App.tsx:82-90 | nothing is sent exactly when the description or the amount is empty; an update exactly when editing with a truthy id, for that id; an insert carries the active modal as its type; every request sent carries the description, parseFloat of the amount text, the category and the owner from the form |
| App.CloseResets | src/renderer/App.tsx:97 | closeModal resets every form field, keeps the list, search and filter, and is idempotent |
| App.OpenNewStartsClean | src/renderer/App.tsx:100-103 | openNew ignores the previous form and opens the chosen kind on clean fields |
| App.OpenEditDefaults | src/renderer/App.tsx:96 | openEdit saves as an edit exactly for a non-empty id, defaults the category to Uncategorized and the owner to Both |
| App.SaveNeedsInputs | src/renderer/App.tsx:82 | with an empty description or amount, save changes nothing |
| App.SaveEdit | src/renderer/App.tsx:85-92 | an edit changes only the items with that id, then closes the form |
| App.SaveInsert | src/renderer/App.tsx:88-92 | an insert sends the modal's type; the returned record is prepended, or the list is kept when none comes back; the form closes |
| App.EditUnchangedKeepsList | src/renderer/App.tsx:82-96 | with unique ids, opening an item and saving it unchanged leaves the list as it was, including when an empty description or amount text makes the save do nothing |
| App.DeleteRemoves | src/renderer/App.tsx:95 | a cancelled delete changes nothing; a confirmed one removes exactly the items with that id and keeps every copy of the others, in order |
| App.Dashboard.constructor | src/renderer/App.tsx:33-41 | a new screen has the initial state |
| App.Dashboard.FilteredTransactions | src/renderer/App.tsx:66-72 | the search-and-owner filter of the list (Visible), so VisibleMembers and EmptySearchShowsAll describe it |
| App.Dashboard.Load | src/renderer/App.tsx:58 | only the list is replaced |
| App.Dashboard.SetSearch | src/renderer/App.tsx:40 | only the search query changes |
| App.Dashboard.SetFilter | src/renderer/App.tsx:33 | only the owner filter changes |
| App.Dashboard.CloseModal | src/renderer/App.tsx:97 | the fields become Closed of the old state |
| App.Dashboard.OpenNew | src/renderer/App.tsx:100-103 | the fields become OpenedNew of the old state |
| App.Dashboard.OpenEdit | src/renderer/App.tsx:96 | the fields become OpenedEdit of the old state |
| App.Dashboard.HandleSave | src/renderer/App.tsx:80-93 | returns the request for the old state; the fields become Saved of the old state |
| App.Dashboard.HandleDelete | src/renderer/App.tsx:95 | the fields become Deleted of the old state |
| Decimal.ValueOfDigits | src/renderer/components/LockScreen.tsx:88 | the decimal digits of n read back as n |

## Left out

- The Supabase client is left out: the network, the realtime subscription,
  `fetchTransactions` and `fetchLoans`. Transactions arrive through
  `Dashboard.Load`. The loan list is a plain sequence in server order.
  Requests are returned as `SaveRequest` values instead of being sent.
- LoanTracker's `handleDelete` is left out. It only asks the server to
  delete the loan and then fetches again, so it changes no local state.
- `setTimeout`, `setInterval` and the DOM event listeners are left out.
  They become events and method calls: `Tick` with the time `now`, and
  `Relock` for the inactivity timeout. The reset of the inactivity timer
  on each DOM event is not modelled, because its only effect is to delay
  `Relock`.
- The clock (`Date.now()`, `new Date()`) and the date-fns helpers
  (`parseISO`, `format`, `differenceInMonths`, `differenceInDays`) are
  function or value parameters.
- `parseFloat` is a parameter. App's `parseFloat` returns a `real`, so a
  NaN amount typed into the transaction form is not modelled. LoanTracker's
  returns a `Num`, so it keeps the NaN case.
- `Number()` is applied only to fields already typed `number` (the
  `amount` of a transaction and the loan amounts), so the model uses the
  amount itself.
- `toString()` of an amount is left out. `OpenedEdit` and `Editing` take
  the text it produces as a parameter (`amountText`, `totalText`,
  `balanceText`). `EditUnchangedKeepsList` and `EditThenSave` require that
  `parseFloat` reads that text back as the amount. JavaScript's
  number-to-string conversion round-trips, so this holds in the app.
- IEEE-754 floating point is not modelled. Amounts are exact reals, so
  rounding error and overflow to Infinity are absent.
- `toFixed`, `Math.round` and `Math.ceil` are modelled as rounding
  functions. Their results are numbers, not strings. Three display
  roundings are not modelled: the overall `progress.toFixed(1)` of the loan
  page, the per-loan `toFixed(0)` on each progress figure, and
  `Math.round(avgMonthly)` in the income panel. The model states the
  unrounded figures they display.
- `Object.keys` is modelled in insertion order. JavaScript lists
  integer-like keys (a category named "42") first; that reordering is not
  modelled.
- LoanTracker.RequestOf: the browser's form validation is not modelled as a guard. `Submittable` states what the `required` inputs demand, but `handleSave` is treated as callable on any form. The `type="number"` check on the two amount inputs is not modelled either; the amounts are whatever the `parseFloat` parameter returns.
- Lower: models ASCII `toLowerCase` only. Full Unicode case mapping is not
  modelled, because Dafny strings carry no case tables.
- DetectOutliers: returns the statistics record. The source returns `[]`
  for short inputs; here that is the `Insufficient` case.
- The rendering is left out: JSX, recharts, colours, icons,
  `toLocaleString` formatting and the `currentView` toggle between the
  dashboard and loans views. Colour thresholds that carry meaning are
  stated as predicates (`SavingsIsGreen`, `PayoffIsUrgent`,
  `NextPaymentIsUrgent`).
- The field setters of the two forms (`setDescInput`, `setName`, …) are
  left out. They are plain assignments, covered by the `Screen` and
  `FormState` records being values.
- The asynchronous interleaving of React's state updates is left out.
  Each handler is modelled as one atomic step, so concurrent saves are not
  modelled.

## Code notes

Where the code's own comment or structure suggests one behaviour and the code
does another, the model follows the code:

- Trend slope: finance.ts line 25 calls `calcTrendSlope` a "Simple Least
  Squares Regression". Its `sumXY` is not the least-squares Σ i·yᵢ, and one
  point divides by zero (see Findings). `CalcTrendSlope` models the code, and
  `LeastSquaresSlope` is the regression the comment names.
- Countdown tick: before the deadline the interval body writes the seconds
  remaining into `timeLeft` and changes nothing else (`TickBeforeDeadline`).
  At or after it, the body clears the lockout and the attempts
  (`TickAfterDeadline`).
- Backspace: `handleBackspace` has no lockout guard, unlike `handlePress`.
  The PIN is always empty during a lockout, so backspace does nothing then
  (`BackspaceIdleWhenLockedOut`).
- Relock: the inactivity timeout only sets `isLocked`. The app renders the
  lock screen only while locked (App.tsx line 105), so a relock mounts it
  afresh, with an empty PIN, no attempts and no lockout (`Relock`,
  `RelockIdempotent`).

## Findings

| source | as written | input that shows it | evidently intended | confidence | as-written member | corrected member |
|---|---|---|---|---|---|---|
| src/renderer/lib/finance.ts:31 | sumXY adds `dataPoints[i]` without multiplying by `i`, so it equals sumY | [1, 2, 3, 4] gives slope −1 (and any three points give 0) | Σ i·yᵢ, the least-squares slope: 1 for [1, 2, 3, 4] | not executed | Finance.TrendSlopeOfOneToFour | Finance.LeastSquaresSlopeOfLine |
| src/renderer/lib/finance.ts:26-34 | only n = 0 is guarded; with one point the denominator n·Σx² − (Σx)² is 0 | [5] gives 5/0, which is Infinity ([0] gives 0/0, NaN) | slope 0 for a single point | not executed | Finance.TrendSlopeOfOnePoint | Finance.LeastSquaresExamples |

No dashboard panel calls `calcTrendSlope`, so neither finding changes what
the app shows today. `LeastSquaresSlope` is the corrected definition.
