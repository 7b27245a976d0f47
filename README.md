# Finance dashboard metrics, modelled in Dafny

This project models the derived metrics of a personal-finance dashboard.
Transactions are expenses or incomes. Each has an amount, a currency, a
category, a description and a date. Budgets are per-category spending limits.

The dashboard turns these into several results:

- currency conversion through a USD-pivot rate table;
- a rule engine that emits at most six "AI" insights;
- a transaction and budget store with its state updates;
- the all-time and selected-month summary;
- a financial health score;
- a budget overview that gives unbudgeted categories a virtual budget;
- a three-entry insight panel;
- an annual overview;
- daily and cumulative spending series;
- a six-month income/expense chart;
- two category charts;
- a searchable transaction list;
- month and year pickers;
- a clamped progress bar;
- a potential-savings card.

Amounts are modelled as `real`.

Dates are `(year, month, day)` triples, with the month counted from 0 as
JavaScript's `getMonth` does.

The current date is a parameter wherever the code reads the clock.

Groupings by category or by month follow the reduce-into-an-object pattern
of the code. They are a map together with the sequence of keys in order of
first appearance, which is the order `Object.keys`/`Object.entries` give for
such keys.

## Modules

The modules follow the source files:

- `Currency`: `lib/currency.ts`.
- `Finance`: the types of `types/finance.ts`, months and their navigation, conversion of a transaction, and IEEE-style division.
- `Folds`: the generic `filter`/`reduce`/group/sort/slice vocabulary the components share.
- `Text`: `toLowerCase` and `includes`.
- `InsightEngine`: `lib/ai-insights.ts`.
- `FinanceStore`: `store/slices/financeSlice.ts`, as class `FinanceState`.
- `PageSummary`: the summary computed in `app/page.tsx`.
- `HealthScore`, `BudgetOverview`, `SmartInsights`, `AnnualOverview`, `IncomeExpenseChart`, `CategoryComparison`, `ExpenseChart`, `TransactionList` and `AIInsightsCard`: the dashboard components of the same names.
- `SpendingTrends` and `DailySpending`: the two computations of `spending-trends-chart.tsx`.
- `Calendar` and `DayTotals`: month lengths and per-day totals, which those two use.
- `DateSelectors`: the two month pickers.
- `Progress`: the progress bar's clamp.

Loops and in-place updates in the source are methods:

- the store's reducers;
- the budget-alert `forEach`;
- the page's monthly-bucket reduce;
- the cumulative `map`;
- `getDailySpendingData`;
- `getMonthlyData`.

Each of these is proved against a function whose properties are lemmas.

## Model

| member | source | states |
|---|---|---|
| Currency.Rate | lib/currency.ts:15-26 | every currency's rate is positive |
| Currency.CodeInjective | lib/currency.ts:1-12 | two currencies have the same code only when they are the same currency |
| Currency.ListedCodesDistinct | lib/currency.ts:1-12 | the ten listed codes are pairwise different |
| Currency.SymbolsNonEmpty | lib/currency.ts:1-12 | every listed currency has a non-empty symbol |
| Currency.ListedInOrder | lib/currency.ts:1-12 | the list has ten entries, one per currency, in declaration order, and every currency is listed |
| Currency.TableCoverage | lib/currency.ts:1-26 | the rate table and the currency list cover the same ten codes, and USD has rate 1 |
| Currency.RateEntry | lib/currency.ts:15-26 | a currency's table entry exists and is its rate |
| Currency.RatesPositive | lib/currency.ts:15-26 | every rate in the table is positive |
| Currency.ConvertCurrency | lib/currency.ts:28-34 | the same code returns the amount unchanged, even for a code not in the table; otherwise a result exists exactly when both codes are in the table |
| Currency.ConvertMatchesTable | lib/currency.ts:28-34 | for table currencies, the string-level conversion gives the typed conversion |
| Currency.ConvertFormula | lib/currency.ts:32-33 | the conversion is amount / rate[from] * rate[to] |
| Currency.ConvertThroughPivot | lib/currency.ts:15-16 | from USD the amount is multiplied by the target rate; to USD it is divided by the source rate |
| Currency.ConvertSameCode | lib/currency.ts:29 | any code converted to itself keeps the amount |
| Currency.ConvertRoundTrip | lib/currency.ts:15-34 | converting c1 to c2 and back returns the original amount |
| Currency.ScaleRoundTrip | lib/currency.ts:32-33 | dividing by one positive rate and multiplying by another, then reversing, gives back the amount |
| Currency.ScaleAdditive | lib/currency.ts:32-33 | the rate expression distributes over a sum |
| Currency.ConvertLinear | lib/currency.ts:15-34 | conversion preserves sums and maps 0 to 0 |
| Currency.ConvertKeepsSign | lib/currency.ts:15-34 | conversion preserves positive, negative and non-negative amounts |
| Currency.ConvertUnknownCode | lib/currency.ts:28-34 | two different codes, one of them missing from the table, give no number (the NaN of the source) |
| Currency.FormatSymbolListed | lib/currency.ts:36-39 | a listed code gets its own symbol |
| Currency.FormatSymbolUnlisted | lib/currency.ts:36-39 | an unlisted code falls back to `$` |
| Currency.SymbolsNotUnique | lib/currency.ts:5-8 | JPY and CNY both format with `¥` |
| Finance.MonthIndexInjective | components/dashboard/global-date-selector.tsx:35-51 | valid months have the same month count exactly when they are equal |
| Finance.PrevMonth | components/dashboard/global-date-selector.tsx:35-42 | the previous month of a valid month is valid and one month count earlier (January goes to December of the year before) |
| Finance.NextMonth | components/dashboard/global-date-selector.tsx:44-51 | the next month of a valid month is valid and one month count later (December goes to January of the year after) |
| Finance.PrevNextInverse | components/dashboard/date-selector.tsx:24-40 | previous and next month undo each other |
| Finance.MonthsBack | components/dashboard/income-expense-chart.tsx:81-86 | going k months back from a valid month lands on a valid month k counts earlier |
| Finance.ConvertAll | app/page.tsx:66-74 | the converted list has the same length, and each entry is the original with its amount converted |
| Finance.ConvertedNonNegative | app/page.tsx:66-74 | non-negative amounts stay non-negative after conversion |
| Finance.Divide | lib/ai-insights.ts:54 | division is finite exactly when the divisor is non-zero; a zero divisor gives +Infinity, -Infinity or NaN according to the sign of the numerator |
| Finance.Percentage | lib/ai-insights.ts:54 | with a non-zero divisor the percentage is num / den * 100 |
| Finance.RatioAboveBound | lib/ai-insights.ts:54-55 | for a positive divisor, a percentage is above fraction * 100 exactly when the numerator is above that fraction of the divisor |
| Finance.ScaleAgainst | components/dashboard/budget-overview.tsx:69-71 | multiplying by a positive number preserves both strict orders |
| Finance.QuotientCompare | components/dashboard/budget-overview.tsx:69-71 | a quotient compares with a bound as its numerator compares with the bound times the divisor |
| Finance.PercentageAbove | components/dashboard/budget-overview.tsx:69-71 | for a positive limit, a percentage is above (at most) fraction * 100 exactly when spent is above (at most) that fraction of the limit |
| Finance.ComparisonsExclusive | components/dashboard/budget-overview.tsx:69-71 | "greater than" and "at most" never both hold, and one of them holds exactly when the value is not NaN |
| Calendar.DaysInMonth | components/dashboard/spending-trends-chart.tsx:44-45 | a month has 28 to 31 days, and February has 29 exactly in leap years |
| Calendar.DaysInYear | components/dashboard/spending-trends-chart.tsx:44-45 | the months of a year add up to 365 days, or 366 in a leap year |
| Text.LowerChar | lib/ai-insights.ts:93-94 | an upper-case ASCII letter is mapped to its lower-case form, other characters are unchanged, and no result is upper case |
| Text.ToLower | components/dashboard/transaction-list.tsx:24-25 | lowering keeps the length and lowers each character |
| Text.ToLowerIdempotent | components/dashboard/transaction-list.tsx:24-25 | lowering twice is lowering once |
| Text.Contains | components/dashboard/transaction-list.tsx:24-25 | `includes` holds exactly when the term occurs at some position |
| Text.ShiftOccurs | lib/ai-insights.ts:93-94 | when the term is not at the front, it occurs in the string exactly when it occurs in the string without its first character |
| Text.ContainsEmpty | components/dashboard/transaction-list.tsx:24-25 | every string contains the empty term |
| Folds.FilterMembers | app/page.tsx:59-63 | the filter keeps exactly the elements that satisfy the predicate |
| Folds.FilterSubMultiset | components/dashboard/transaction-list.tsx:22-28 | filtering adds nothing and repeats nothing |
| Folds.SumFilterAtMost | app/page.tsx:77-92 | with non-negative values, a filtered sum is at most the whole sum |
| Folds.GroupReduce | lib/ai-insights.ts:31-34 | the reduce into a record has one key per category present, each mapped to that category's total |
| Folds.KeysInOrder | app/page.tsx:108 | the keys of a grouping are distinct and include every element's key |
| Folds.KeysInOrderFirstAppearance | components/dashboard/expense-chart.tsx:45-48 | keys are listed in order of first appearance |
| Folds.GroupEntries | components/dashboard/category-comparison-chart.tsx:52-53 | the entries are the keys in first-appearance order, each with its group total |
| Folds.GroupEntriesSum | components/dashboard/category-comparison-chart.tsx:46-53 | the group totals add up to the total of all elements |
| Folds.GroupEntriesDistinct | components/dashboard/category-comparison-chart.tsx:46-53 | each key has one entry |
| Folds.GroupEntriesMembers | components/dashboard/expense-chart.tsx:37-48 | every entry is a key that occurs, with its total, and every element's key has its entry |
| Folds.SortBy | components/dashboard/category-comparison-chart.tsx:54 | the sort is a permutation, non-increasing in the key |
| Folds.SortBySum | components/dashboard/category-comparison-chart.tsx:54 | sorting keeps the total |
| Folds.SortByDistinct | components/dashboard/category-comparison-chart.tsx:54 | sorting keeps keys distinct |
| Folds.SortByHeadIsMax | lib/ai-insights.ts:37-38 | the first entry after the sort has the largest key |
| Folds.TopGroup | components/dashboard/smart-insights-panel.tsx:68-69 | the first sorted group exists for non-empty input, is a key that occurs, carries its total, and no group total exceeds it |
| Folds.Cycle | components/dashboard/category-comparison-chart.tsx:110 | the colour at any index is a palette entry |
| Folds.CycleRepeats | components/dashboard/expense-chart.tsx:87 | the first indices take the palette in order, and the palette repeats with its length as period |
| Folds.Take | lib/ai-insights.ts:142 | `slice(0, n)` is the prefix of length min(n, length) |
| Folds.TopEntriesSpec | components/dashboard/annual-overview.tsx:58-69 | the top n groups are at most n, sorted non-increasingly and distinct; every group left out totals no more than any shown; with n or fewer groups all are shown |
| Folds.TopEntriesLeftOut | components/dashboard/annual-overview.tsx:67-69 | a group left out of the top n totals no more than every group shown |
| InsightEngine.BudgetAlertsStep | lib/ai-insights.ts:53-65 | one more budget appends its alert exactly when it is over 90% |
| InsightEngine.PushBudgetAlerts | lib/ai-insights.ts:53-65 | the `forEach` appends the alerts of the budgets, in budget order, to the insights so far |
| InsightEngine.GenerateAIInsights | lib/ai-insights.ts:3-142 | the result is the first six insights of the rules in evaluation order, so never more than six |
| InsightEngine.HighSpendingFires | lib/ai-insights.ts:31-50 | at most one high-spending warning, which fires exactly when some category's this-month expenses exceed 500 |
| InsightEngine.HighSpendingNames | lib/ai-insights.ts:36-50 | the warning names a category of this month whose total is at least every other category's, with potential savings 0.2 × that total |
| InsightEngine.BudgetAlertsSpec | lib/ai-insights.ts:53-65 | one alert per budget over 90%, in budget order, each the alert built from that budget (its id tag and category) |
| InsightEngine.OverNinetySpec | lib/ai-insights.ts:54-55 | for a positive limit a budget alerts exactly above 90% of the limit; exactly 90% does not alert; a zero limit alerts exactly when something was spent |
| InsightEngine.TrendSpec | lib/ai-insights.ts:67-88 | the increase warning fires exactly when this month > 1.2 × last, with savings of the difference; otherwise the decrease achievement exactly when < 0.8 × last; never both, and neither for two zero totals |
| InsightEngine.SubscriptionSpec | lib/ai-insights.ts:90-108 | the tip fires exactly when more than 3 expenses match; the matches are expenses, Entertainment expenses always match, and the savings are 0.3 × their total |
| InsightEngine.SavingsSpec | lib/ai-insights.ts:110-126 | the recommendation fires exactly when the rate is below 20; with no income the rate is 0 and it fires; with income it fires exactly when this month's expenses exceed 80% of income |
| InsightEngine.SmallPurchasesSpec | lib/ai-insights.ts:128-140 | the tip fires exactly when more than 15 this-month expenses are below 20, with savings 0.4 × their total |
| InsightEngine.LastMonthOfJanuary | lib/ai-insights.ts:21-28 | the "last month" of January is December of the year before |
| InsightEngine.AllInsightsCount | lib/ai-insights.ts:36-140 | before slicing there are at most five rule insights plus one per budget |
| FinanceStore.ApplyExpense | store/slices/financeSlice.ts:35-40 | the budget list keeps its length |
| FinanceStore.ApplyExpenseFirstMatch | store/slices/financeSlice.ts:35-40 | for an expense, only the first budget of its category has `spent` raised, by exactly the amount |
| FinanceStore.ApplyExpenseNoMatch | store/slices/financeSlice.ts:35-40 | an income, or an expense of a category without a budget, changes no budget |
| FinanceStore.ApplyExpenseTotal | store/slices/financeSlice.ts:35-40 | the total spent grows by the amount exactly when a budget matches the expense |
| FinanceStore.ReplaceBudget | store/slices/financeSlice.ts:54-59 | the budget list keeps its length |
| FinanceStore.ReplaceBudgetFirstMatch | store/slices/financeSlice.ts:54-59 | the first budget with the same id is replaced and nothing else changes |
| FinanceStore.ReplaceBudgetNoMatch | store/slices/financeSlice.ts:54-59 | with no budget of that id nothing changes |
| FinanceStore.ReplaceBudgetKeepsIds | store/slices/financeSlice.ts:54-59 | the ids stay as they were, position by position |
| FinanceStore.FinanceState.constructor | store/slices/financeSlice.ts:14-25 | the initial state holds the sample data, USD with budget alerts and a savings goal of 1000, the current month and year, and the dialog closed |
| FinanceStore.FinanceState.AddTransaction | store/slices/financeSlice.ts:31-41 | the transaction goes first and the old list follows in order; budgets are updated as ApplyExpense says; other fields are kept |
| FinanceStore.FinanceState.UpdateBudget | store/slices/financeSlice.ts:54-59 | the budgets become ReplaceBudget of the old ones; other fields are kept |
| FinanceStore.FinanceState.UpdatePreferences | store/slices/financeSlice.ts:42-44 | only the preferences change |
| FinanceStore.FinanceState.SetSelectedMonth | store/slices/financeSlice.ts:45-47 | only the selected month changes |
| FinanceStore.FinanceState.SetSelectedYear | store/slices/financeSlice.ts:48-50 | only the selected year changes |
| FinanceStore.FinanceState.SetShowAddTransaction | store/slices/financeSlice.ts:51-53 | only the dialog flag changes |
| PageSummary.FilterPeriod | app/page.tsx:59-63 | the filtered set is exactly the transactions of the selected year and month |
| PageSummary.ConvertedTotal | app/page.tsx:66-92 | filtering the converted list and adding amounts equals adding the converted amounts of the filtered originals |
| PageSummary.SavingsRateSpec | app/page.tsx:96-97 | the rate is 0 without income; with income it is at most 100 for non-negative expenses, exactly 100 when nothing was spent, and negative exactly when expenses exceed income |
| PageSummary.RatioFacts | app/page.tsx:96-97 | for a positive divisor, a quotient is above 1, equal to 1 or negative exactly when the numerator is above, equal to or below the divisor (below 0 in the last case) |
| PageSummary.ScaleCompare | app/page.tsx:96-97 | multiplying by a positive number keeps comparisons with 1 and 0 |
| PageSummary.MonthlyData | app/page.tsx:100-106 | one bucket per year-month that occurs, in first-appearance order, holding income and all other amounts of that month |
| PageSummary.SummaryOf | app/page.tsx:94-122 | net = income - expenses; the savings rate follows the rate rule; the average divides expenses by the number of buckets, or is 0 with no transactions; the projection is 12 × the average |
| PageSummary.FilteredSummaryOf | app/page.tsx:95-131 | net = income - expenses; the rate follows the rate rule; the average is the filtered expenses and the projection 12 × them |
| PageSummary.AllTimeSummary | app/page.tsx:76-122 | the summary the method builds from the monthly buckets equals the reference summary |
| PageSummary.SummaryTotals | app/page.tsx:77-92 | all-time and filtered totals are the converted sums of the incomes and of the expenses, of all transactions and of the period |
| PageSummary.FilteredAtMostAll | app/page.tsx:59-92 | with non-negative amounts the period totals never exceed the all-time totals |
| HealthScore.BudgetAdherence | components/dashboard/financial-health-score.tsx:35-37 | 100 with no budgets, and never above 100 |
| HealthScore.SumAtMost | components/dashboard/financial-health-score.tsx:35-37 | terms each at most c add up to at most n × c |
| HealthScore.MeanAtMost | components/dashboard/financial-health-score.tsx:35-37 | a total of at most n × c has mean at most c |
| HealthScore.AdherenceFullWhenUnspent | components/dashboard/financial-health-score.tsx:35-37 | budgets with nothing spent give adherence 100 |
| HealthScore.SumConst | components/dashboard/financial-health-score.tsx:35-37 | n terms all equal to c add up to n × c |
| HealthScore.ExpenseControl | components/dashboard/financial-health-score.tsx:39-46 | the control term is non-negative, at most 100 for non-negative expenses, and 0 without income |
| HealthScore.RatioNonNegative | components/dashboard/financial-health-score.tsx:39 | a non-negative amount over a positive income gives a non-negative ratio |
| HealthScore.DiversificationCounts | components/dashboard/financial-health-score.tsx:40 | diversification is 10 × the number of distinct categories of the period, incomes included |
| HealthScore.Round | components/dashboard/financial-health-score.tsx:43 | rounding lands within half a unit of the value |
| HealthScore.RoundMonotone | components/dashboard/financial-health-score.tsx:43 | rounding is monotone |
| HealthScore.HealthScoreAtMost100 | components/dashboard/financial-health-score.tsx:20-48 | with non-negative amounts the health score never exceeds 100 |
| HealthScore.ScoreAtMost100 | components/dashboard/financial-health-score.tsx:43-48 | sub-scores of at most 100 give a score of at most 100, whatever the diversification, which is capped |
| HealthScore.ScoreMonotone | components/dashboard/financial-health-score.tsx:43-48 | the score never decreases when a sub-score grows |
| HealthScore.BadgeAndColorMonotone | components/dashboard/financial-health-score.tsx:50-61 | a higher score never gets a lower badge or colour |
| HealthScore.ColorMatchesBadge | components/dashboard/financial-health-score.tsx:50-61 | emerald goes with Excellent, yellow with Good, and red with Fair or Needs Improvement |
| BudgetOverview.RowBudget | components/dashboard/budget-overview.tsx:37-56 | a configured row is its budget; a virtual row has id `virtual-` + category, limit 0 and a monthly period; both show the row's category and spent |
| BudgetOverview.SpentOfSpec | components/dashboard/budget-overview.tsx:23-39 | a row's spent is the converted sum of the month's expenses in its category, 0 if there are none |
| BudgetOverview.RowFor | components/dashboard/budget-overview.tsx:37-56 | the row carries the category and its spent |
| BudgetOverview.RowForConfigured | components/dashboard/budget-overview.tsx:38-46 | with a budget of that category, the row is the first such budget with only spent overridden |
| BudgetOverview.RowForVirtual | components/dashboard/budget-overview.tsx:47-55 | with no budget of that category, the row is virtual |
| BudgetOverview.RowsFor | components/dashboard/budget-overview.tsx:37 | one row per category, in the same order |
| BudgetOverview.ComprehensiveBudgets | components/dashboard/budget-overview.tsx:57 | rows are sorted by spent, non-increasing |
| BudgetOverview.ComprehensiveBudgetsRows | components/dashboard/budget-overview.tsx:20-57 | one row per distinct transaction category, incomes included, each a category that occurs with the row RowFor gives it; every transaction's category has its row |
| BudgetOverview.RowsForFacts | components/dashboard/budget-overview.tsx:37-56 | distinct categories give rows with distinct categories, each the row of a listed category, and every listed category has its row |
| BudgetOverview.BudgetStatusSpec | components/dashboard/budget-overview.tsx:69-71 | over budget and near limit never both hold; for a positive limit they mean above the limit and within (80%, 100%] of it |
| BudgetOverview.Remaining | components/dashboard/budget-overview.tsx:124 | the remaining amount is never negative, is limit - spent while under the limit, and 0 once at or over it |
| SmartInsights.TrendTypeSpec | components/dashboard/smart-insights-panel.tsx:51-74 | with a previous total, the trend is a warning exactly above +10% and a success exactly below -10%; without one it is info |
| SmartInsights.SavingsTypeSpec | components/dashboard/smart-insights-panel.tsx:57-83 | with income, success exactly when expenses are below 80% of income and info between 80% and 90%; without income, a warning |
| SmartInsights.TopCategorySpec | components/dashboard/smart-insights-panel.tsx:60-69 | there is no top category exactly when the month has no expenses; otherwise it is an expense category of the month with the largest converted total |
| SmartInsights.TopCategoryEntry | components/dashboard/smart-insights-panel.tsx:90-98 | the third entry is info with id 3, and names a category exactly when there is a top category |
| SmartInsights.Panel | components/dashboard/smart-insights-panel.tsx:71-99 | from given totals: the trend entry shows this month's expenses with the trend type of their change, the savings entry shows the rate with its savings type, the third is the top-category entry |
| SmartInsights.PanelInsights | components/dashboard/smart-insights-panel.tsx:30-99 | there are always three entries, with ids 1, 2 and 3, and the third is info; the first shows the month's expense total with the trend type of its change against the previous calendar month; the second shows the month's savings rate with its savings type |
| SmartInsights.MonthSavingsRateOf | components/dashboard/smart-insights-panel.tsx:43-57 | the month's savings rate is the share of the month's income not spent by the month's expenses |
| SmartInsights.PanelTrendSpec | components/dashboard/smart-insights-panel.tsx:47-74 | with previous spending, the first entry warns exactly when this month's expenses exceed 110% of the previous month's and is a success exactly when they are under 90%; without previous spending it is info |
| SmartInsights.MonthSavingsKind | components/dashboard/smart-insights-panel.tsx:53-83 | the savings type of the month's rate meets the thresholds on the month's income and expenses |
| SmartInsights.PanelSavingsSpec | components/dashboard/smart-insights-panel.tsx:53-83 | with income, the second entry is a success exactly when expenses are under 80% of income, info between 80% and 90%, and a warning without income |
| AnnualOverview.MonthlyRows | components/dashboard/annual-overview.tsx:18-41 | twelve rows, each with net = income - expenses |
| AnnualOverview.MonthKindTotalSpec | components/dashboard/annual-overview.tsx:22-38 | row m totals the converted amounts of that type in month m of the year only |
| AnnualOverview.RowsPrefixSum | components/dashboard/annual-overview.tsx:44-49 | the first k rows add up to the converted total of that type over months 0..k-1 of the year |
| AnnualOverview.RowsPrefixStep | components/dashboard/annual-overview.tsx:44-49 | one more row adds that month's total |
| AnnualOverview.YearToDateOf | components/dashboard/annual-overview.tsx:44-49 | year-to-date net = income - expenses |
| AnnualOverview.YearToDateSpec | components/dashboard/annual-overview.tsx:44-49 | year-to-date income and expenses are the converted totals over months 0..currentMonth inclusive |
| AnnualOverview.Projection | components/dashboard/annual-overview.tsx:52-55 | the projection spreads the year-to-date figure over currentMonth + 1 months and scales to 12, and in December equals it |
| AnnualOverview.TopCategoriesOrdered | components/dashboard/annual-overview.tsx:58-69 | at most six categories, sorted non-increasing by amount, each once |
| AnnualOverview.TopCategoriesSpec | components/dashboard/annual-overview.tsx:58-69 | each is an expense category of the year with its converted total; a category left out totals no more than any shown; with six or fewer categories all are shown |
| DayTotals.DaysTotalSpec | components/dashboard/spending-trends-chart.tsx:73-80 | adding the totals of days 1..k is summing over the transactions of those days |
| DayTotals.NoDayZero | components/dashboard/spending-trends-chart.tsx:73-80 | there is nothing before day 1 |
| DayTotals.DaySplit | components/dashboard/spending-trends-chart.tsx:73-80 | days 1..k are days 1..k-1 plus day k |
| DayTotals.DaysTotalMonotone | components/dashboard/spending-trends-chart.tsx:73-80 | with non-negative amounts the running total never decreases |
| DayTotals.WholeMonth | components/dashboard/spending-trends-chart.tsx:44-80 | when every date of the month is a real day of it, days 1..last cover the whole month |
| SpendingTrends.DailyRows | components/dashboard/spending-trends-chart.tsx:44-69 | one row per day of the month, day i + 1 at index i, each with net = income - expenses |
| SpendingTrends.DayRowSpec | components/dashboard/spending-trends-chart.tsx:49-62 | a row's expenses and income are the converted totals of that type dated on that year, month and day |
| SpendingTrends.CumulativeData | components/dashboard/spending-trends-chart.tsx:73-80 | each row gets the running total of expenses up to and including it |
| SpendingTrends.DailyRowsPrefix | components/dashboard/spending-trends-chart.tsx:73-80 | the expenses of the first k rows add up to the total of days 1..k |
| SpendingTrends.DailyRowsStep | components/dashboard/spending-trends-chart.tsx:73-80 | one more row adds that day's expenses |
| SpendingTrends.CumulativeSpec | components/dashboard/spending-trends-chart.tsx:49-80 | the cumulative value of day d is the converted sum of the expenses on days 1..d |
| SpendingTrends.CumulativeMonotone | components/dashboard/spending-trends-chart.tsx:73-80 | with non-negative amounts the cumulative series never decreases |
| SpendingTrends.DayExpensesNonNegative | components/dashboard/spending-trends-chart.tsx:56-58 | non-negative amounts give non-negative daily expenses |
| SpendingTrends.CumulativeLast | components/dashboard/spending-trends-chart.tsx:44-80 | the expenses of all rows add up to the month's converted expenses when every date is a real day |
| DailySpending.GetDailySpendingData | components/dashboard/spending-trends-chart.tsx:185-198 | one point per day 1..last of the month, each that day's raw expense total (0 without expenses) with the running total so far |
| DailySpending.DailyTotals | components/dashboard/spending-trends-chart.tsx:173-183 | the day dictionary holds, for each day of the window, the raw total of expenses dated that day in the month, 0 when absent |
| DailySpending.WindowIsDay | components/dashboard/spending-trends-chart.tsx:175-183 | expenses inside the month's first-to-last-day window on day d are exactly the expenses of day d of the month |
| DailySpending.TotalsStep | components/dashboard/spending-trends-chart.tsx:177-182 | one step of the `forEach` keeps every day's entry equal to the window total of the transactions seen |
| DailySpending.SpendingSeriesSpec | components/dashboard/spending-trends-chart.tsx:185-198 | with non-negative amounts the running total never decreases, and on the last day it is the month's raw expense total when every date is a real day |
| IncomeExpenseChart.Window | components/dashboard/income-expense-chart.tsx:81-86 | the window has six months |
| IncomeExpenseChart.GetMonthlyData | components/dashboard/income-expense-chart.tsx:77-116 | six bars, the k-th for the k-th month of the window, with that month's bucket |
| IncomeExpenseChart.MonthsOfWindow | components/dashboard/income-expense-chart.tsx:81-86 | the loop produces the window |
| IncomeExpenseChart.ZeroBuckets | components/dashboard/income-expense-chart.tsx:88-92 | every month of the window starts at zero income and zero expenses, and no other month has a bucket |
| IncomeExpenseChart.AddTransactions | components/dashboard/income-expense-chart.tsx:94-105 | after the `forEach` each bucket holds its month's raw income and raw other amounts, and the keys are unchanged |
| IncomeExpenseChart.BucketStep | components/dashboard/income-expense-chart.tsx:94-105 | one step adds the transaction to its month's bucket if that month is in the window |
| IncomeExpenseChart.WindowChronological | components/dashboard/income-expense-chart.tsx:81-86 | the window runs from five months before the selection up to it, one month apart, all valid |
| IncomeExpenseChart.BucketCoversMonth | components/dashboard/income-expense-chart.tsx:99-103 | a bucket's income plus expenses is the raw total of its month |
| IncomeExpenseChart.OutsideWindowIgnored | components/dashboard/income-expense-chart.tsx:94-105 | a transaction outside the window changes no bar |
| IncomeExpenseChart.OnlyLastBar | components/dashboard/income-expense-chart.tsx:31-35 | with input already limited to the selected month, the first five bars are zero |
| IncomeExpenseChart.SetMonthBack | components/dashboard/income-expense-chart.tsx:83-84 | `setMonth(getMonth() - i)` on a full date gives a valid date: the same day i months back, or, past that month's last day, the overflow into the next month |
| IncomeExpenseChart.SourceWindow | components/dashboard/income-expense-chart.tsx:81-86 | the loop over full dates yields six months |
| IncomeExpenseChart.SourceWindowAgrees | components/dashboard/income-expense-chart.tsx:81-86 | when the selected day is the 28th or earlier, the loop over full dates gives exactly the window of the selected month |
| IncomeExpenseChart.SourceWindowOverflow | components/dashboard/income-expense-chart.tsx:81-86 | selected 31 March 2025, the loop gives October, December, December, January, March, March, which is not the window |
| CategoryComparison.BarColor | components/dashboard/category-comparison-chart.tsx:110 | every bar colour is a palette colour |
| CategoryComparison.ChartDataSpec | components/dashboard/category-comparison-chart.tsx:39-54 | bars are sorted non-increasing by amount, one per category, and add up to the month's converted total |
| CategoryComparison.GroupAmount | components/dashboard/category-comparison-chart.tsx:46-50 | a category's amount is the converted total of the month's transactions in it, incomes included |
| CategoryComparison.ChartDataSound | components/dashboard/category-comparison-chart.tsx:39-54 | every bar is a category of the month, with its converted total |
| CategoryComparison.ChartDataComplete | components/dashboard/category-comparison-chart.tsx:39-54 | every transaction of the month has the bar of its category, with its converted total |
| CategoryComparison.ColorsDistinct | components/dashboard/category-comparison-chart.tsx:18-21 | the ten palette colours are different |
| CategoryComparison.BarColorCycles | components/dashboard/category-comparison-chart.tsx:18-21 | bar i < 10 takes palette entry i, and colours repeat every ten bars |
| ExpenseChart.SliceColor | components/dashboard/expense-chart.tsx:87 | every slice colour is a palette colour |
| ExpenseChart.MonthExpensesSpec | components/dashboard/expense-chart.tsx:31-38 | the two filters keep exactly the month's expenses, in order |
| ExpenseChart.ChartDataSpec | components/dashboard/expense-chart.tsx:37-48 | one slice per category, and the slices add up to the month's raw expense total |
| ExpenseChart.ChartDataSound | components/dashboard/expense-chart.tsx:37-48 | every slice is an expense category of the month, with its raw total |
| ExpenseChart.ChartDataComplete | components/dashboard/expense-chart.tsx:37-48 | every expense of the month has the slice of its category |
| ExpenseChart.SliceAmount | components/dashboard/expense-chart.tsx:39-42 | a slice's value is the raw total of the month's expenses in its category |
| ExpenseChart.SliceOrder | components/dashboard/expense-chart.tsx:45-48 | slices come in order of first appearance |
| ExpenseChart.ColorsDistinct | components/dashboard/expense-chart.tsx:13 | the seven palette colours are different |
| ExpenseChart.SliceColorCycles | components/dashboard/expense-chart.tsx:13 | slice i < 7 takes palette entry i, and colours repeat every seven slices |
| TransactionList.DateKeyOrder | components/dashboard/transaction-list.tsx:29 | on valid dates the sort key orders dates as the calendar does, and is equal exactly for equal dates |
| TransactionList.FilteredSpec | components/dashboard/transaction-list.tsx:22-29 | a transaction is listed exactly when it matches the search and the type filter; the list is a reordering of exactly the matching transactions, every copy kept |
| TransactionList.NewestFirst | components/dashboard/transaction-list.tsx:29 | no transaction is listed after one dated before it |
| TransactionList.EmptySearchShowsAll | components/dashboard/transaction-list.tsx:24-26 | the empty term with the 'all' filter lists every transaction, as often as it occurs |
| TransactionList.TypeFiltersSplit | components/dashboard/transaction-list.tsx:26 | 'all' lists exactly what 'income' and 'expense' list together |
| DateSelectors.NavigationUnique | components/dashboard/global-date-selector.tsx:35-51 | next is the one valid month right after the selection, and previous the one right before |
| DateSelectors.QuickSelect | components/dashboard/global-date-selector.tsx:53-71 | 'current' selects now, 'last' the month before now, 'ytd' January of now's year, and any other period keeps the selection |
| DateSelectors.QuickSelectBounds | components/dashboard/global-date-selector.tsx:53-71 | each quick selection is valid and not after now; 'ytd' is January of now's year; any other period keeps the selection |
| DateSelectors.YearRange | components/dashboard/global-date-selector.tsx:32-33 | count years, one apart |
| DateSelectors.YearRangeMembers | components/dashboard/date-selector.tsx:21-22 | the range holds exactly count consecutive years from its first |
| DateSelectors.GlobalYearsSpec | components/dashboard/global-date-selector.tsx:32-33 | ten years, from five before the current one to four after |
| DateSelectors.SelectorYearsSpec | components/dashboard/date-selector.tsx:21-22 | five years, two on either side of the current one |
| DateSelectors.QuartersPartition | components/dashboard/global-date-selector.tsx:25-30 | four quarters of three consecutive months each; every month lies in exactly one quarter, the (month / 3)-th |
| Progress.SafeValue | components/ui/progress.tsx:36-41 | the shown value always lies in [0, 100] |
| Progress.SafeValueClamps | components/ui/progress.tsx:41 | values in [0, 100] pass unchanged, negatives become 0, values above 100 become 100 |
| Progress.SafeValueNonFinite | components/ui/progress.tsx:36-41 | undefined, null, NaN and ±Infinity show 0 |
| Progress.SafeValueMonotone | components/ui/progress.tsx:41 | the clamp is monotone on finite values |
| Progress.SafeValueIdempotent | components/ui/progress.tsx:41 | clamping a shown value changes nothing |
| AIInsightsCard.TotalIsAllSavings | components/dashboard/ai-insights.tsx:44-46 | the total over insights with non-zero savings is the total of every insight's savings, a missing value counting as 0 |
| AIInsightsCard.NoInsights | components/dashboard/ai-insights.tsx:44-70 | no insights give a total of 0, no badge and the empty state |
| AIInsightsCard.BadgeIffPositiveSaving | components/dashboard/ai-insights.tsx:56 | with non-negative savings the badge shows exactly when some insight has positive savings |
| AIInsightsCard.StylesDistinct | components/dashboard/ai-insights.tsx:14-42 | the four insight types get four different icons and four different colours, none of them the fallback |
| AIInsightsCard.UnknownTypeFallback | components/dashboard/ai-insights.tsx:14-42 | any other type gets the fallback icon and colour |

## Left out

- The rendered output: JSX, the recharts charts, Tailwind classes, icons and animations. This includes the presentational overview cards and the animated chart container.
- Number and date rendering: `toFixed`, `toLocaleDateString`, the digit part of `formatCurrency`, and the insight and description strings. Insight ids are rule tags; the `Date.now()` suffix is not modelled.
- Time: the clock is a `now` parameter (a month, or a year). Date-string parsing and time zones are not modelled. A date is a `(year, month from 0, day)` triple. So the `YYYY-MM` bucket key of `app/page.tsx:101` is a `YearMonth`, and day keys are integers.
- `Date.setMonth` day overflow in the charts' previous/next-month navigation, and the charts' own selected-date state. The selected month is a parameter.
- IncomeExpenseChart.GetMonthlyData: takes only the selected month, so it matches the chart only when the selected day is the 28th or earlier. From the 29th to the 31st, `setMonth` at components/dashboard/income-expense-chart.tsx:83-84 rolls some months over into the next one, so one month repeats and another is skipped (SourceWindowOverflow); SourceWindowAgrees proves the agreement up to the 28th.
- IncomeExpenseChart.MonthsOfWindow: produces the six consecutive months, which the loop at components/dashboard/income-expense-chart.tsx:82-86 does only for a selected day up to the 28th; the day overflow is modelled separately by SourceWindow.
- IncomeExpenseChart.WindowChronological: states one month apart in order, which holds for the source only up to the 28th; from the 29th the rollover at components/dashboard/income-expense-chart.tsx:83-84 repeats a month.
- IncomeExpenseChart.OnlyLastBar: assumes the window of six distinct months; from the 29th the rollover at components/dashboard/income-expense-chart.tsx:83-84 can repeat the selected month, whose bucket then shows in two bars.
- React and Redux plumbing: `useMemo`, selectors, dispatch, the store hooks and Immer. The date pickers' `onMonthChange`/`onYearChange` callbacks are modelled as the `YearMonth` they set.
- IEEE floating point is not modelled. Amounts are reals. NaN and ±Infinity appear only where the source compares a quotient that can divide by zero (budget alerts, over/near-limit status) and in the progress clamp.
- `Object.entries` and `Object.keys` list integer-like keys first in numeric order. This is not modelled. Keys are in first-appearance order, which is right for category names and year-month keys.
- `toLowerCase` lowers ASCII letters only. Unicode case mapping is not modelled.
- A transaction's or preference's currency is one of the ten table currencies. An unknown code reaches the model only through the string-level `ConvertCurrency`, where it gives no result.
- `components/dashboard/currency-converter.tsx`, `components/dashboard/user-preferences.tsx` and `components/dashboard/bill-viewer-dialog.tsx` are UI state, timers and a download. The sample data of `lib/sample-data.ts` is a constructor parameter.
- The unused `filteredTransactions`/`dailyData` of `components/dashboard/spending-trends-chart.tsx:34-41` are not rendered and not modelled.
- HealthScore.BudgetAdherence: requires every budget limit to be non-zero. A zero limit makes the source divide by zero, and the resulting Infinity or NaN flows into the score.
- InsightEngine.GenerateAIInsights: the `preferredCurrency` argument is absent. The source accepts it but never reads it, and it adds raw amounts.
- TransactionList.DateKeyOrder: matches the calendar only for valid dates (month 0..11, day 1..31), as `getTime` would on parsed dates.
- Progress.SafeValue: `-0` is the same as `0`. The default of `value = 0` applies only to an undefined value, which the model keeps distinct from null.
