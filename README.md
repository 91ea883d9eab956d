# Personal ledger core, modelled in Dafny

This project models the computational core of a personal card-spending
ledger written as a Next.js application. The ledger stores card
transactions. A negative amount is an expense and a positive one is income.
Each analytic widget reads the transactions of one billing period, the
half-open interval `[startDate, endDate)`, and derives a figure from them:

- spending per category, compared with the previous period;
- each card's share of its limit and its progress towards performance tiers;
- recurring (fixed) expenses and the bills still expected in the period;
- installment amortisation;
- the pace towards the monthly spending goal;
- the top merchants;
- spending by weekday and by time of day;
- the largest expenses.

Around these sit four stateful pieces:

- the category-rule manager, an ordered list of regular-expression rules,
  first match wins;
- the card form, which collects performance tiers kept sorted;
- the spreadsheet import wizard, which finds the header row, guesses the
  columns and turns rows into expenses;
- the record schemas that validate, coerce and default the stored records.

Each source file is modelled in its own form:

- **Pure** chains of `filter`/`map`/`reduce`/`sort` are functions, with lemmas
  about them.
- **Loops** that fill a map or an array in place are methods, with
  `for`/`while` loops whose invariants tie them to those functions.
- **Component state** that handlers replace (the rule list, `tempTiers`, the
  wizard's step, workbook, rows and mapping) is a class whose methods state
  the complete new state.

Shared modules:

- `Ledger` holds the records (transaction, card, tier, setting, period), the
  expense and in-period tests, and `String.prototype.trim`.
- `Seqs` holds filtering, a stable insertion sort (JavaScript's `sort` is
  stable), top-N selection and sums.
- `Tally` models a JavaScript `Map`/object filled in insertion order, as an
  association list with unique keys.
- `Wrappers` holds `Option` and `Result`.

Numbers:

- Money is `int` and percentages are `real`.
- JavaScript's `Math.floor(a / b)` with `b > 0` is Dafny's `/` on `int`.

Outside services become parameters:

- The regular-expression engine is a `RegexEngine` value: does a pattern
  compile, and does it match case-insensitively.
- date-fns and the local calendar are a `Calendar` value.
- The clock is a `now: Date` argument (`clock` for the upcoming bills).
- The JavaScript conversions used by the wizard are a `Js` value.
- The conversions used by the schema library (`Number(text)`, `new Date(x)`,
  the UUID test) are a `Host` value.

## Model

| member | source | states |
|---|---|---|
| CategoryRules.FirstMatch | app/category-manager/page.tsx:248-253 | the position found holds a rule whose pattern compiles and matches, and no earlier rule matches; `None` only when no rule matches |
| CategoryRules.Simulate | app/category-manager/page.tsx:245-259 | the loop with early return and `continue` yields the first matching rule (which is in the list and matches), and `{matched:false}` exactly when the merchant is non-empty and no rule matches |
| CategoryRules.FirstMatchReadsOnlyPatterns | app/category-manager/page.tsx:248-257 | two rule lists with the same patterns in the same order classify every merchant alike: ids, categories and `active` are never consulted |
| CategoryRules.InvalidRuleIsSkipped | app/category-manager/page.tsx:249-256 | removing a rule whose pattern does not compile changes no classification, so a bad pattern never aborts the scan |
| CategoryRules.PrependedRuleWins | app/category-manager/page.tsx:214 | a matching rule put at the front wins over every older rule |
| CategoryRules.PrependedRuleMisses | app/category-manager/page.tsx:214 | a non-matching rule put at the front leaves every classification unchanged |
| CategoryRules.RemoveIdExact | app/category-manager/page.tsx:226 | deleting by id leaves no rule with that id, and every other rule keeps its multiplicity |
| CategoryRules.RemoveIdKeepsOrder | app/category-manager/page.tsx:226 | deleting works piece by piece over a split list, and keeps a single rule exactly when its id differs, so the survivors keep their relative order |
| CategoryRules.DeletedRuleNeverMatches | app/category-manager/page.tsx:226 | after a delete, no merchant is classified by a rule with the deleted id |
| CategoryRules.FindCategory | app/category-manager/page.tsx:230 | a found category is in the table with that id; `None` means no category has the id |
| CategoryRules.FindSub | app/category-manager/page.tsx:235 | a found subcategory is in the list with that id; `None` means none has it |
| CategoryRules.GetCategoryName | app/category-manager/page.tsx:230 | an unknown id is shown as itself; a known category with a name is shown by its name |
| CategoryRules.GetSubCategoryName | app/category-manager/page.tsx:232-236 | a null or empty id gives `''`; a table subcategory with both ids gives its name (the raw id when that name is empty); an id no subcategory of the category has gives the raw id |
| CategoryRules.TableIdsUnique | app/category-manager/page.tsx:62-101 | no two categories of the table share an id, and no two subcategories of one category do |
| CategoryRules.FindCategoryUnique | app/category-manager/page.tsx:234 | when ids are unique, the lookup by id returns the one category that has it |
| CategoryRules.FindSubUnique | app/category-manager/page.tsx:235 | when ids are unique, the lookup by id returns the one subcategory that has it |
| CategoryRules.AvailableSubCats | app/category-manager/page.tsx:239-242 | a known category offers exactly its own subcategories; an unknown one offers none |
| CategoryRules.NewRule | app/category-manager/page.tsx:205-211 | the new rule is active, carries the pattern, category and id, and has a null subcategory when none is chosen |
| CategoryRules.RuleManager.constructor | app/category-manager/page.tsx:129-138 | no rules, an empty form, the pattern marked valid, and the default test merchant |
| CategoryRules.RuleManager.ChangePattern | app/category-manager/page.tsx:195-199 | stores the text and whether it compiles; nothing else changes |
| CategoryRules.RuleManager.SelectCategory | app/category-manager/page.tsx:330-333 | sets the category and clears the subcategory; nothing else changes |
| CategoryRules.RuleManager.AddRule | app/category-manager/page.tsx:155-221 | adds exactly when pattern and category are non-empty and the pattern is valid; then `[newRule] + old` is shown and saved, and a failed save rolls back to the list fetched again (or keeps the new list when that fetch fails); the form is cleared; otherwise nothing changes; a saved add is one longer with the new rule first |
| CategoryRules.RuleManager.DeleteRule | app/category-manager/page.tsx:155-228 | after confirmation the list keeps exactly the rules with a different id and is saved, a failed save rolling back to the list fetched again; otherwise unchanged; the form is untouched |
| CategoryRules.RuleManager.SimulationResult | app/category-manager/page.tsx:245-259 | the simulator's verdict is the first-match classification of the current test merchant |
| CategoryRules.AddThenClassify | app/category-manager/page.tsx:214-253 | right after a valid rule whose pattern matches `m` is added and saved, classifying `m` returns that new rule |
| CategoryComparison.CategoryIdOf | components/CategoryComparison.tsx:44-49 | a failure means some pattern does not compile; a category other than `uncategorized` is some rule's category |
| CategoryComparison.GetCategoryId | components/CategoryComparison.tsx:44-49 | the loop with early return computes `CategoryIdOf`, throwing on a bad pattern reached before a match |
| CategoryComparison.CategoryIdAgreesWithSimulator | components/CategoryComparison.tsx:44-49 | when every pattern compiles, the result is the first matching rule's category, or `uncategorized` when none matches |
| CategoryComparison.TalliesFailureSticks | components/CategoryComparison.tsx:54-64 | once a bad pattern has thrown, later transactions change nothing |
| CategoryComparison.Accumulate | components/CategoryComparison.tsx:54-64 | the `forEach` filling the two maps computes `Tallies` |
| CategoryComparison.TalliesMeaning | components/CategoryComparison.tsx:54-64 | keys are unique and totals positive; `currentMap` sums to the period's expense total; each category holds the spend of its current-period expenses, and the previous period only counts expenses not also in the current one |
| CategoryComparison.TalliesSucceed | components/CategoryComparison.tsx:44-64 | the accumulation succeeds whenever every pattern compiles |
| CategoryComparison.Distinct | components/CategoryComparison.tsx:67 | `Array.from(new Set(...))` holds the same elements, each once |
| CategoryComparison.AllRowsShape | components/CategoryComparison.tsx:67-84 | no two unranked rows share a category; each is built from its category's two sums and is not zero in both periods |
| CategoryComparison.AllRowsComplete | components/CategoryComparison.tsx:67-84 | every category with spending in either period (a key of either map) has its row among the unranked rows |
| CategoryComparison.BuildRowsMembers | components/CategoryComparison.tsx:84-86 | every row shown comes from the unranked rows |
| CategoryComparison.BuildRowsRanking | components/CategoryComparison.tsx:84-86 | exactly `min(5, n)` rows for `n` unranked rows, one per category, by non-increasing difference; no row left out grew more than one shown |
| CategoryComparison.BuildRowsComplete | components/CategoryComparison.tsx:67-86 | fewer than five rows only when every category with spending is shown; a category with spending that is not shown grew no more than any shown |
| CategoryComparison.BuildRowsContents | components/CategoryComparison.tsx:69-83 | each row carries its two sums, `diff = current − prev`, the growth percent (100 for a new category, 0 for none), and is not zero in both periods |
| CategoryComparison.ComparisonData | components/CategoryComparison.tsx:34-88 | empty while loading; the previous period is the current one moved back a month; an error only when some pattern does not compile, none when all compile; at most five rows |
| CategoryComparison.ComparisonDataComplete | components/CategoryComparison.tsx:34-88 | every category with spending in the current or the previous period is shown when fewer than five rows are; one that is not shown grew no more than any row shown |
| CategoryComparison.ComparisonDataRows | components/CategoryComparison.tsx:34-88 | at most five rows, no two for the same category, by non-increasing difference, each with the category's spend in the current and the previous period, the difference and the growth percent, never zero in both |
| CardUsage.UsedAmount | components/CardUsageStatus.tsx:48-55 | the used amount is never negative |
| CardUsage.UsedAmountSnoc | components/CardUsageStatus.tsx:48-55 | one more transaction raises the used amount by its absolute value exactly when it is a period expense on that card |
| CardUsage.LimitPercent | components/CardUsageStatus.tsx:57-58 | 0 without a limit, otherwise `used/limit·100`, and non-negative for a non-negative usage |
| CardUsage.PerformancePercent | components/CardUsageStatus.tsx:69-75 | lies in [0,100]: 0 without a positive target, 100 once the target is reached, `used/target·100` below it |
| CardUsage.NextTierAt | components/CardUsageStatus.tsx:67 | the next tier is the first tier past the reached prefix, absent exactly when every tier is reached |
| CardUsage.TierSplit | components/CardUsageStatus.tsx:61-67 | the sorted tiers are ascending; the achieved tiers are exactly those with `amount ≤ used` and form a prefix; the next tier follows that prefix, is absent iff all are achieved, and otherwise exceeds the usage |
| CardUsage.StatNoTarget | components/CardUsageStatus.tsx:69-75 | without a tier above 0 the performance bar is 0 |
| CardUsage.CardStats | components/CardUsageStatus.tsx:45-88 | empty while cards or transactions are loading; otherwise one row per card |
| CardUsage.CardStatsSpec | components/CardUsageStatus.tsx:52-88 | the rows are a permutation of the per-card statistics, in non-increasing order of limit percentage |
| CardUsage.CardStatsMembers | components/CardUsageStatus.tsx:52-88 | a row is listed exactly when it is the statistics of some card |
| FixedExpenses.GroupOf | components/FixedExpenses.tsx:60-79 | every grouped merchant has at least one amount |
| FixedExpenses.GroupByMerchant | components/FixedExpenses.tsx:60-79 | the `forEach` updating the map in place computes `GroupOf` |
| FixedExpenses.GroupOfCollects | components/FixedExpenses.tsx:60-79 | a merchant (trimmed name) has a record exactly when it has an expense, and the record is built from its expenses alone |
| FixedExpenses.CollectLists | components/FixedExpenses.tsx:66-77 | a record's amounts and dates are those of its expenses, in order |
| FixedExpenses.CollectMonths | components/FixedExpenses.tsx:66-77 | the month table has one entry per distinct month, and its counts sum to the number of expenses |
| FixedExpenses.CollectMonthCount | components/FixedExpenses.tsx:66-77 | each month's count is the number of the merchant's expenses in that month |
| FixedExpenses.GroupOfAt | components/FixedExpenses.tsx:60-79 | for any merchant: the record exists iff it has an expense; amounts, dates and month table are its own; the month counts sum to the number of amounts and of dates |
| FixedExpenses.RecurringMeaning | components/FixedExpenses.tsx:90-94 | recurring iff the expenses span at least two months and number at most three per month |
| FixedExpenses.StatMeaning | components/FixedExpenses.tsx:97-111 | min, max and mean of the amounts in either branch, `min ≤ avg ≤ max`, `min ≠ max` iff the amounts differ, and the recent count never exceeds the number of dates |
| FixedExpenses.SelectRecurring | components/FixedExpenses.tsx:86-113 | the loop fills the recurring set and the statistics map exactly as their reference functions |
| FixedExpenses.Rows | components/FixedExpenses.tsx:124-135 | one row per selected expense, carrying its merchant's statistics, variable exactly when `min ≠ max` |
| FixedExpenses.FixedInPeriodSorted | components/FixedExpenses.tsx:136 | the fixed expenses are listed by ascending date |
| FixedExpenses.FixedInPeriodSound | components/FixedExpenses.tsx:116-136 | every row is a period expense at a recurring merchant, with that merchant's statistics |
| FixedExpenses.FixedInPeriodComplete | components/FixedExpenses.tsx:116-136 | every period expense at a recurring merchant is listed |
| FixedExpenses.FixedTotalBounds | components/FixedExpenses.tsx:120-138 | `0 ≤ fixedTotal ≤ totalPeriodSpending` |
| FixedExpenses.RowsSpend | components/FixedExpenses.tsx:138 | the rows' spend equals the selected expenses' spend |
| FixedExpenses.FixedRatio | components/FixedExpenses.tsx:146 | 0 when nothing was spent, in [0,100], and `fixed/total·100` otherwise |
| FixedExpenses.FixedExpensesView | components/FixedExpenses.tsx:48-142 | empty before the data loads; then the recurring rows with statistics over the six months before now (`subMonths`), the period total, and a fixed total that is their sum and lies between 0 and the period total |
| UpcomingBills.GroupOf | components/UpcomingBills.tsx:46-57 | the merchant order and records agree, and every record has a date and an amount |
| UpcomingBills.GroupByMerchant | components/UpcomingBills.tsx:46-57 | the `forEach` over a mutated map computes `GroupOf` |
| UpcomingBills.GroupOfCollects | components/UpcomingBills.tsx:46-57 | keys are unique, in order of first expense; a record exists exactly for merchants with an expense, built from those expenses alone |
| UpcomingBills.CollectFacts | components/UpcomingBills.tsx:50-56 | a record keeps every date and absolute amount in order, and `lastDate` is its latest date |
| UpcomingBills.AvgDayRange | components/UpcomingBills.tsx:69-70 | the rounded average day of the month lies in [1,31] |
| UpcomingBills.TargetDate | components/UpcomingBills.tsx:75-82 | a chosen target date lies inside the period |
| UpcomingBills.CollectBills | components/UpcomingBills.tsx:62-107 | the `for…of` loop with `continue` pushes exactly the bills of its reference function |
| UpcomingBills.UpcomingData | components/UpcomingBills.tsx:33-112 | empty before the data loads; otherwise the bills sorted by expected date, with the days to each counted from the start of the current day (`startOfDay`) |
| UpcomingBills.BillsOfMembers | components/UpcomingBills.tsx:62-107 | a bill is pushed exactly when some merchant's loop pass yields it |
| UpcomingBills.BillForMeaning | components/UpcomingBills.tsx:62-104 | a merchant yields a bill iff it spans enough months, has a target date in the period, and is not paid; the bill carries the target date, the mean amount, the D-day, and `isOverdue` iff D-day < 0 |
| UpcomingBills.UpcomingFrom | components/UpcomingBills.tsx:62-110 | every listed bill comes from a grouped merchant's loop pass |
| UpcomingBills.NotPaid | components/UpcomingBills.tsx:85-92 | an unpaid merchant has no expense in the period |
| UpcomingBills.UpcomingSound | components/UpcomingBills.tsx:62-110 | each bill's merchant spans two months, has no expense in the period, and falls due inside the period on the predicted day; the bill carries the mean amount, and is overdue iff D-day < 0 |
| UpcomingBills.UpcomingComplete | components/UpcomingBills.tsx:62-110 | a merchant spanning two months, with a target day in the period and not yet paid, is listed |
| UpcomingBills.UpcomingOrdered | components/UpcomingBills.tsx:62-110 | at most one bill per merchant, by ascending expected date |
| Installments.MonthsPassed | components/InstallmentTracker.tsx:43-44 | whole months since the start, plus one once the start's day of month is reached, raised to at least 1 |
| Installments.CardName | components/InstallmentTracker.tsx:55 | the first card with the plan's id gives its name, or "Unknown Card" when that name is empty; "Unknown Card" when no card matches |
| Installments.AmortizeSpec | components/InstallmentTracker.tsx:46-52 | `1 ≤ round ≤ months`; finished iff more months than rounds have passed; `monthly = floor(total/months)`; `paid = monthly·round`; `paid + remaining = total`; the last round leaves `total mod months`; progress in (0,100] |
| Installments.FloorDivision | components/InstallmentTracker.tsx:49-51 | floor division bounds the total, and the outstanding amount is the rounds to come plus the remainder |
| Installments.Views | components/InstallmentTracker.tsx:37-57 | one view per plan, in order, each its amortisation |
| Installments.ActiveSpec | components/InstallmentTracker.tsx:58 | a plan is listed exactly when it is not finished, with its own figures |
| Installments.TotalsNonneg | components/InstallmentTracker.tsx:61-62 | with non-negative plan totals, the remaining and monthly totals are non-negative |
| Installments.ViewNonneg | components/InstallmentTracker.tsx:49-51 | a non-negative total gives non-negative monthly and remaining amounts |
| GoalProgress.SpentIsExpenseTotal | components/GoalProgress.tsx:49-55 | what was spent is the period's expense total, hence non-negative |
| GoalProgress.PerDay | components/GoalProgress.tsx:78-91 | an amount spread over the days: times the days, it gives the amount back |
| GoalProgress.PercentOf | components/GoalProgress.tsx:75-93 | 0 for a zero goal, otherwise `x/goal·100` |
| GoalProgress.CalculationsSpec | components/GoalProgress.tsx:41-113 | empty until setting and transactions have loaded; then the metrics of the setting's goal and the period's expense total, which is non-negative |
| GoalProgress.Figures | components/GoalProgress.tsx:75-93 | keeps the goal, what was spent and the two day counts (`Metrics` passes the period's `TotalDays` and `DaysPassed`); expected spend is the goal's share for the days passed (`expected · totalDays = goal · daysPassed`); overspent iff spent exceeds the expected spend, and over the goal iff spent exceeds the goal |
| GoalProgress.MetricsGuards | components/GoalProgress.tsx:75-93 | zero-goal percentages are 0; the daily average is 0 while no day has passed; `isOverSpent` iff spent > expected and `isTotalOverSpent` iff spent > goal; the remaining budget is spread over at least one day |
| GoalProgress.MetricsAtEnd | components/GoalProgress.tsx:78-92 | on the last day expected spend is the goal, the projection is what was spent, and the expected progress is 100% |
| GoalProgress.DaysPassedWholeDays | components/GoalProgress.tsx:58-72 | for a period of whole days, the day count runs from 1 on the first day to the period's length, equals that length once the period has ended, never decreases, and keeps the expected progress in [0,100] |
| TopMerchants.CollectTotals | components/TopMerchants.tsx:43-47 | the `forEach` filling `merchantMap` computes the per-merchant totals |
| TopMerchants.MerchantTotalsMeaning | components/TopMerchants.tsx:43-47 | one entry per name met (an empty merchant is "알 수 없음"), each the sum of its absolute amounts, all summing to the total, and positive for expenses |
| TopMerchants.ShareOf | components/TopMerchants.tsx:54 | 0 when nothing was spent, otherwise `amount/total·100` |
| TopMerchants.AllRankedShape | components/TopMerchants.tsx:36-54 | one entry per merchant, summing to the period's expense total, each the merchant's positive period spend |
| TopMerchants.AllRankedFacts | components/TopMerchants.tsx:36-54 | the shares are taken of positive merchant amounts that sum to the period total, which is positive whenever a merchant is listed; each percent is `ShareOf` that amount and total |
| TopMerchants.RankingSpec | components/TopMerchants.tsx:50-57 | `min(5, merchants)` rows, distinct names, non-increasing amounts, all from the full list; no merchant left out spent more than one shown |
| TopMerchants.RankingPercentTotal | components/TopMerchants.tsx:50-57 | the shares shown add up to at most 100% |
| TopMerchants.RankingData | components/TopMerchants.tsx:30-60 | empty while loading; otherwise `min(5, merchants)` rows, each a ranked merchant of the period |
| WeeklyPattern.ChartData | components/WeeklyDayPattern.tsx:34-58 | empty before load; otherwise the seven-element array updated in place holds the weekday buckets of the period's expenses |
| WeeklyPattern.BucketsSpec | components/WeeklyDayPattern.tsx:18-55 | seven buckets labelled Sunday to Saturday, none negative, together holding the period's whole expense total |
| WeeklyPattern.WeekTotalIsSum | components/WeeklyDayPattern.tsx:52-55 | each expense lands in exactly one weekday bucket |
| WeeklyPattern.IgnoredTransaction | components/WeeklyDayPattern.tsx:47-49 | income and out-of-period transactions leave every bucket unchanged |
| WeeklyPattern.CountedTransaction | components/WeeklyDayPattern.tsx:52-55 | a period expense adds its absolute amount to its weekday's bucket only |
| WeeklyPattern.MaxAmount | components/WeeklyDayPattern.tsx:61 | the maximum of the amounts and 0: at least every bucket, and attained unless 0 |
| WeeklyPattern.DominantDaySpec | components/WeeklyDayPattern.tsx:118 | the highlighted day is the first weekday with the largest spend, Sunday when nothing was spent |
| HourlyPattern.HourSlot | components/HourlySpendingPattern.tsx:15-22 | every hour has a slot in the table |
| HourlyPattern.SlotsPartition | components/HourlySpendingPattern.tsx:15-47 | the `find` returns every hour's slot, and no hour matches two slots |
| HourlyPattern.LateNightHours | components/HourlySpendingPattern.tsx:20-45 | the late-night slot is exactly the hours ≥ 22 or < 2, not its table bounds 22–26 |
| HourlyPattern.SlotData | components/HourlySpendingPattern.tsx:29-54 | empty before load; otherwise the slot amounts updated in place are the slots' period spend |
| HourlyPattern.SlotsTotal | components/HourlySpendingPattern.tsx:36-51 | the slots hold the period's whole expense total |
| HourlyPattern.IgnoredTransaction | components/HourlySpendingPattern.tsx:36 | income and out-of-period transactions leave every slot unchanged |
| HourlyPattern.MaxSlotSpec | components/HourlySpendingPattern.tsx:60 | the busiest slot spent at least as much as every other, and is the last of those tied |
| HighValue.HighValueSpec | components/HighValueTransactions.tsx:21-28 | `min(5, qualifying)` expenses of the period of at least 50,000 won, never income, largest first; none left out is larger than one shown |
| HighValue.HighValueComplete | components/HighValueTransactions.tsx:22-28 | with at most five qualifying expenses, every one is listed |
| HighValue.HighBadge | components/HighValueTransactions.tsx:42 | a listed expense gets the badge iff its absolute amount is at least 300,000 won |
| HighValue.HighValueList | components/HighValueTransactions.tsx:21-28 | absent exactly while loading; otherwise `min(5, qualifying)` transactions, each one of the input with an amount of at most −50,000 inside the period |
| CardForm.WithTierSpec | app/card/page.tsx:48 | adding a tier keeps the list ascending, one longer, holding exactly the old tiers plus the new one |
| CardForm.WithoutIndexSpec | app/card/page.tsx:57-59 | removing an index drops exactly that position and keeps the order of the rest; an index outside the list changes nothing |
| CardForm.WithoutIndexSorted | app/card/page.tsx:57-59 | removal keeps a sorted list sorted |
| CardForm.TierForm.constructor | app/card/page.tsx:34 | no tiers at first |
| CardForm.TierForm.AddTier | app/card/page.tsx:39-48 | a zero or non-numeric amount, or an empty benefit, leaves the list unchanged; otherwise the tier is inserted and the list stays sorted |
| CardForm.TierForm.RemoveTier | app/card/page.tsx:57-59 | the list loses exactly the given index and stays sorted |
| CardForm.TierForm.AddCard | app/card/page.tsx:62-95 | an empty name, limit or due day sends nothing and keeps the tiers; otherwise the card is sent with the sorted tiers, which are cleared once saved |
| ImportWizard.FindHeaderIndex | components/ExcelImportWizard.tsx:70-82 | the scan with early `break` finds the first header row among the first ten, else row 0 |
| ImportWizard.FirstHeaderSpec | components/ExcelImportWizard.tsx:70-82 | the header index lies below `max(1, min(rows, 10))`, no earlier row passes, a non-zero index passes, and row 0 is chosen when none of the scanned rows passes |
| ImportWizard.HeaderIndexSpec | components/ExcelImportWizard.tsx:70-82 | the header row is the first of the first ten whose joined text contains a keyword, else row 0 |
| ImportWizard.DataRowsSpec | components/ExcelImportWizard.tsx:85 | the data rows are exactly the non-empty rows after the header |
| ImportWizard.Assign | components/ExcelImportWizard.tsx:265-286 | choosing a column sets that field and no other |
| ImportWizard.MapColumns | components/ExcelImportWizard.tsx:91-102 | the `forEach` over the headers computes, per field, the last column classified as it |
| ImportWizard.LastColumnsSpec | components/ExcelImportWizard.tsx:91-102 | each field is −1 iff no header is classified as it, otherwise the last header that is; every index is valid, and no two fields share a column |
| ImportWizard.BalanceNeverAmount | components/ExcelImportWizard.tsx:99 | a header mentioning "잔액" is never taken for the amount |
| ImportWizard.GuessMappingSpec | components/ExcelImportWizard.tsx:91-101 | every guessed field is −1 or a valid header index whose header passes that field's test, tried in the order date, merchant, amount, description; the amount column never mentions "잔액" |
| ImportWizard.AsExpense | components/ExcelImportWizard.tsx:142-172 | the result is never positive and its magnitude is the input's |
| ImportWizard.ToSaveSpec | components/ExcelImportWizard.tsx:156-181 | only expenses on the selected card are saved, each the conversion of a data row, and every row with a non-zero amount is saved |
| ImportWizard.ImportedDefaults | components/ExcelImportWizard.tsx:176-178 | an empty or missing merchant is saved as "알 수 없음"; an unmapped description is empty |
| ImportWizard.PreviewSpec | components/ExcelImportWizard.tsx:123-152 | the preview shows the first five rows numbered from 0, with the same non-positive amounts and descriptions that saving would use |
| ImportWizard.Analyze | components/ExcelImportWizard.tsx:65-103 | on a non-empty sheet: the header index, that row as the headers, and the guessed mapping, which points into them |
| ImportWizard.Wizard.constructor | components/ExcelImportWizard.tsx:25-41 | the upload step, no workbook, rows or headers, no card, nothing mapped |
| ImportWizard.Wizard.AnalyzeSheet | components/ExcelImportWizard.tsx:65-105 | succeeds iff the sheet is non-empty; it then holds the detected header row, the data rows after it and the guessed mapping, and moves to mapping; a failure changes nothing |
| ImportWizard.Wizard.ProcessFile | components/ExcelImportWizard.tsx:45-62 | stores the workbook and its sheet names; with one non-empty sheet, goes straight to mapping with the detected header row, the rows after it and the guessed mapping; with one empty sheet nothing else changes; otherwise to sheet selection |
| ImportWizard.Wizard.SelectSheet | components/ExcelImportWizard.tsx:243 | succeeds iff a workbook is loaded and the picked sheet is non-empty; it then holds that sheet's header row, data rows and guessed mapping, in the mapping step; a failure changes nothing; workbook, sheet names and card are kept |
| ImportWizard.Wizard.ChooseColumn | components/ExcelImportWizard.tsx:265-286 | sets one field's column (only the description may be none), and nothing else |
| ImportWizard.Wizard.SelectCard | components/ExcelImportWizard.tsx:294 | sets the card, and nothing else |
| ImportWizard.Wizard.Next | components/ExcelImportWizard.tsx:331 | moves to the preview iff date, merchant and amount are mapped and a card is chosen; nothing else changes |
| ImportWizard.Wizard.Back | components/ExcelImportWizard.tsx:327-336 | the back buttons: sheet selection goes to upload, the mapping goes to sheet selection when the workbook has several sheets, the preview goes to the mapping; nothing else changes |
| ImportWizard.Wizard.Preview | components/ExcelImportWizard.tsx:123-152 | the rows shown are the preview of the current mapping and rows |
| ImportWizard.Wizard.Reset | components/ExcelImportWizard.tsx:196-201 | back to upload with no workbook, rows or headers; the mapping, the card and the sheet names are kept |
| ImportWizard.Wizard.Save | components/ExcelImportWizard.tsx:154-194 | nothing is sent and nothing changes without a card; otherwise the converted rows are sent, a successful upload resets the wizard and a failed one changes nothing; the mapping, card and sheet names are always kept |
| Schemas.SafeInt | schema/schemas.ts:5-34 | `.int()` accepts exactly whole numbers within the safe-integer range, and keeps the value |
| Schemas.Between | schema/schemas.ts:5-34 | a range check passes exactly the integers inside the bounds, unchanged |
| Schemas.ShortText | schema/schemas.ts:12-27 | `.max(n)` on a string accepts exactly strings of at most `n` characters, unchanged |
| Schemas.ParseTier | schema/schemas.ts:4-7 | an accepted tier is valid (a whole amount ≥ 0); a rejection names a field |
| Schemas.ParseTiers | schema/schemas.ts:16 | success parses every element in order; a failure lists only, and at least one, failing element |
| Schemas.ParseCard | schema/schemas.ts:10-17 | an accepted card is valid (uuid id, name ≤ 100, whole limit ≥ 0, due day 1–31, valid tiers); a rejection names a field |
| Schemas.PerformanceOf | schema/schemas.ts:16 | absent tiers default to none; accepted tiers are all valid |
| Schemas.ParseTransaction | schema/schemas.ts:21-28 | an accepted transaction is valid (uuid ids, merchant ≤ 100, whole amount of either sign, description ≤ 255); a rejection names a field |
| Schemas.DescriptionOf | schema/schemas.ts:27 | the description is left out exactly when it is absent, and otherwise has at most 255 characters |
| Schemas.ParseSetting | schema/schemas.ts:31-35 | an accepted setting is valid (start day 1–28, whole goal and income ≥ 0); a rejection names a field |
| Schemas.ParseRule | schema/schemas.ts:38-44 | an accepted rule has a null subcategory exactly when the input's is `null`; a rejection names a field |
| Schemas.SubCategoryOf | schema/schemas.ts:42 | `null` gives no subcategory and a string gives one; anything else is rejected |
| Schemas.TierRoundTrip | schema/schemas.ts:4-7 | a tier reads back as itself iff it is valid; an invalid one is rejected on its amount |
| Schemas.TiersRoundTrip | schema/schemas.ts:16 | a tier list reads back as itself iff every tier is valid |
| Schemas.CardRoundTrip | schema/schemas.ts:10-17 | a card reads back as itself iff it is valid |
| Schemas.TransactionRoundTrip | schema/schemas.ts:21-28 | a transaction reads back as itself iff it is valid |
| Schemas.SettingRoundTrip | schema/schemas.ts:31-35 | a setting reads back as itself iff it is valid |
| Schemas.RuleRoundTrip | schema/schemas.ts:38-44 | every rule reads back as itself |
| Schemas.SettingDefaults | schema/schemas.ts:31-35 | an empty object gives 25 / 100000 / 200000; these defaults are valid; any absent field takes its default |
| Schemas.NullCoercesToZero | schema/schemas.ts:32-33 | a `null` start day is coerced to 0 and rejected; a `null` goal is coerced to 0 and accepted |
| Schemas.LimitNotCoerced | schema/schemas.ts:5-13 | a card's limit given as text is rejected on `limit` (no coercion there, unlike a tier amount) |

## Left out

- **Storage and HTTP.** These are not part of this model: the file store (`lib/fsdb.ts`) and the `app/api/*` route handlers, with their request parsing, id generation and list overwrites. Where a handler's request matters, it is returned as a value: `CardForm.TierForm.AddCard` returns the request body, and `ImportWizard.Wizard.Save` returns the rows it sends. The outcome of the request is the `saved` argument. For the rule manager, `reloaded` is what the rollback fetch after a failed save returns (`None` when that fetch fails too).
- **Billing-period resolution.** No source for it is shown. Every analytic takes the period `[startDate, endDate)` as an argument.
- **The regular-expression engine.** It is the `RegexEngine` parameter: does the pattern compile, and does it match case-insensitively.
- **Import wizard keyword tests.** The case-insensitive alternations are modelled as substring containment over the alternatives. The `/i` flag is ASCII case folding.
- **date-fns and the local calendar.** These are the `Calendar` parameter: `setDate`, `addMonths`, `subMonths`, `startOfDay`, `differenceInMonths` and `differenceInDays`. A `Date` is an instant together with its local reading: month key, day of month, weekday and hour. The reading is not derived from the instant; only the ranges of its fields are modelled.
- **The clock.** `new Date()` is the `now` argument (`clock` in `UpcomingBills.UpcomingData`, which takes `startOfDay` of it as the source does).
- **Floating point and display formatting.** Percentages and averages are exact `real`s. `toFixed`, `toLocaleString` and display rounding are not modelled. `Math.round` in the upcoming-bills average day is `floor(x + 1/2)`.
- **Import wizard I/O.** `FileReader`, the XLSX parser, `String(...)`, `toLocaleDateString`, `parseFloat` and `new Date(string)` are the `Js` parameter. A sheet arrives already read, as rows of cells. Amounts are whole numbers, so a fractional `parseFloat` result is not modelled.
- **Unparsed JSON dates.** The hourly, category-comparison and high-value widgets cast raw JSON without parsing it. They share the `["transaction"]` query cache with the top-merchants widget, which parses its response with the schema, so their `date` fields may be strings or `Date` objects at run time, depending on which query filled the cache first. The model treats them as parsed dates.
- **Rule manager flags.** The `loading` and `isSaving` flags and the alert after a failed save only drive the display and are not modelled.
- **Pure UI.** Rendering, skeletons, drag-and-drop, dialogs, toasts, `confirm` and `alert` are not modelled; `confirm` is the `confirmed` argument of `CategoryRules.RuleManager.DeleteRule`.
- **Object key order.** JavaScript enumerates integer-like object keys first. Merchant totals are modelled in plain insertion order.
- TopMerchants.MerchantTotals: the totals live in a plain object (`Record<string, number>`), so a merchant named after an `Object.prototype` member misbehaves there: an assignment to `__proto__` is ignored, so that merchant drops out of the ranking while its spend stays in the period total, and for `constructor`, `toString`, `valueOf` and the like `merchantMap[name] || 0` is the inherited function, so the total becomes a string and its share `NaN`. The model treats these names as ordinary merchant names.
- **Schema error messages.** The schema library's issue messages and paths are not modelled. A rejection lists the failing field names, or the failing element indices for the tier list.
- **Schema string lengths.** These count characters, not UTF-16 code units.
- **Unknown keys.** Unknown keys of an object are dropped, as the schema library strips them.
- **Host-provided schema details.** The UUID format and `new Date(x)` come from the `Host` parameter.
- **`Number()` of an array or object.** It is taken as not a number. For an array this differs from JavaScript, where `Number([])` is 0.
- **Card form inputs.** The form's `Number(...)` on the tier amount arrives as an `Option<int>` argument. A negative tier amount passes the form, as in the source. `Number(limit)` and `Number(dueDay)` in the request are left to the server.
- GoalProgress.Figures: requires a non-zero `totalDays` (and `Metrics` requires `TotalDays(p) != 0`), because the source divides by `totalDays` without a guard. For a period that is not a whole number of days, `daysPassed` can exceed `totalDays`, so the expected share is bounded only for whole-day periods (`GoalProgress.DaysPassedWholeDays`).
- Installments.Amortize: requires `months >= 1`, because the source divides by `months` without a guard and the installment schema is not part of this model.
- CategoryComparison.GetCategoryId: `new RegExp` on a bad pattern throws in the source. The model returns a `Failure` that aborts the whole accumulation, instead of requiring every pattern to compile.
- ImportWizard.Wizard.AnalyzeSheet: on an empty sheet the source first sets the headers to `undefined` and the data rows to `[]`, then throws a `TypeError` in the column scan (there is no row 0). The model reports `false` and changes nothing, so it does not capture those two updates made before the throw. The `"Invalid Date"` branch of the preview's `try`/`catch` is not modelled, because `String` on a cell does not throw.
- ImportWizard.Wizard: its header test and column classifier are the class constants `isHeader` and `classify`, which the constructor sets to the keyword test and classifier of the `Js` conversions (`ImportWizard.HeaderIndexSpec` and `ImportWizard.GuessMappingSpec` state what these mean).
