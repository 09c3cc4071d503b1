# CAsense core in Dafny

CAsense is a practice-management tool for chartered accountants. It is a browser page (`ca-platform1.js`) over a small Express backend (`server.js`). This project models the logic under both, with the presentation and I/O taken away:

- **Tax calculators.** GST, the two income-tax slab schedules with 4% cess, and the flat 18% liability estimate.
- **Reports.** The profit & loss, balance sheet, cash flow and trial balance reports, and the dispatcher that restricts transactions to a date range.
- **Invoices.** Line-item pricing and filtering, invoice totals, the totals shown while editing, `INV-0001` numbering and the displayed status.
- **Insight engine.** Aggregates, five rule groups gated by the active category, the "Getting Started" fallback, and the action-label dispatch.
- **Dashboard.** Period select, date window, headline figures and chart series.
- **Small page helpers.** Client and transaction form checks, client names, business-type labels and the compliance-calendar badge.
- **Backend record store.** Create, update and delete for clients, transactions and invoices, and the `/api/ai-insights` totals.

## Representation

- Amounts are `real` and already parsed; a missing amount is 0.
- Transaction and invoice dates are day numbers.
- Clock readings are millisecond instants. A date-only value is read as midnight of its day (`Instants.Midnight`).
- Strings are `seq<char>`.
- Backend records are `map<string, Value>` over a JSON value type, so the shallow merge of `Object.assign` is map union.
- The insight rules form a table. `Insights.Fires` gives each rule's guard and `Insights.Entry` the insight its `push` adds. Each group is the list of its rules in the order the code tests them, and `Insights.Rank` is a rule's place in the list the page shows.
- The clock, the id generator and the calendar arithmetic of `Date` are parameters. For example, `Dashboard.Calendar` carries the instants one week, month, quarter and year back.

## Modules

- `Wrappers`: `Option` and `Result`.
- `Text`: `includes`, `trim`, `String(n)` and `padStart`.
- `Instants`: whole days against milliseconds.
- `Ledger`: transactions, selector sums and date-range filtering.
- `Tax`, `Reports`, `Invoicing` and `Insights`: as listed above.
- `Dashboard`, `Clients`, `Forms` and `Compliance`: the dashboard and the page helpers.
- `Store`: the backend.

## Where the code and its description differ

- **Low-margin rule.** The code's guard is `profitMargin < 10 && income > 0`, so a negative margin also fires it. The model follows the code: `Insights.LowMarginIff` shows the rule fires exactly when expenses exceed 90% of a positive income.
- **Balance sheet.** The printed balance-sheet total is liabilities plus equity, which is assets plus the period's profit. It equals total assets only when income equals expenses. The model proves that and does not assert a balancing identity.
- **Slow Payment Collection.** The average-payment-days figure is 30 times the paid share of invoices. It never exceeds 30, so this rule (threshold 45) can never fire.
- **COMPLETED badge.** The compliance badge's `COMPLETED` text is unreachable: every day count is overdue, due soon or "n days left".
- **Editing totals versus the saved invoice.** The totals shown while editing count every item row. Saving drops rows without a description or with a rate of 0 or less, so the two can disagree (`Invoicing.LiveTotalsCountDroppedRows`).

## Model

| member | source | states |
|---|---|---|
| Text.EmptyContainsOnlyEmpty | ca-platform1.js:956-960 | with no active category, only the empty keyword is included in the empty category text, so no named category group runs |
| Text.TrimStart | ca-platform1.js:1433 | the removed prefix is all whitespace and the kept suffix does not start with whitespace; the result is empty iff the string is all whitespace |
| Text.TrimEnd | ca-platform1.js:1433 | the removed suffix is all whitespace and the kept prefix does not end with whitespace; the result is empty iff the string is all whitespace |
| Text.Trim | ca-platform1.js:1433 | `trim()` yields the empty (falsy) string exactly when every code unit is whitespace |
| Text.Decimal | ca-platform1.js:490 | `String(n)` is a non-empty digit string with no leading zero |
| Text.DecimalRoundTrip | ca-platform1.js:490 | reading the numeral of n gives back n |
| Text.LeadingZerosIgnored | ca-platform1.js:490 | zero padding keeps a numeral a digit string with the same value |
| Text.PadStart | ca-platform1.js:490 | `padStart` reaches the width (or keeps a longer string), ends with the original, and fills only with the pad character |
| Instants.FirstDay | ca-platform1.js:122-125 | the first day whose midnight is at or after the window start: a day is at least it iff its midnight is at or after the start |
| Instants.LastDay | ca-platform1.js:122-125 | the last day whose midnight is at or before the window end: a day is at most it iff its midnight is at or before the end |
| Ledger.ParseTxType | ca-platform1.js:865-869 | the four known type strings map to their types; every other string is kept as an unknown type |
| Ledger.SumWhereAppend | ca-platform1.js:133-139 | a filtered `reduce` sum splits over concatenation |
| Ledger.SumWhereExtend | ca-platform1.js:133-139 | one more transaction adds its amount exactly when the filter picks it |
| Ledger.SumWhereNonNegative | ca-platform1.js:133-139 | with non-negative amounts every filtered sum is non-negative |
| Ledger.ColumnsPartitionCategory | ca-platform1.js:861-870 | each transaction goes to exactly one column of its category row, so the category's debit plus credit is its total |
| Ledger.SidesPartitionEverything | ca-platform1.js:861-877 | all debits plus all credits equal the sum of all amounts, unknown types included |
| Ledger.InRange | ca-platform1.js:700-705 | keeps exactly the transactions dated within the inclusive range, and nothing else |
| Ledger.InRangeAppend | ca-platform1.js:700-705 | the range filter distributes over concatenation, so it keeps survivors in their original order, repeats included |
| Ledger.InRangeOne | ca-platform1.js:701-704 | a single transaction is kept exactly when `tDate >= from && tDate <= to` |
| Ledger.InRangeIgnoresOutside | ca-platform1.js:700-705 | a transaction dated outside the range does not change the filtered list |
| Ledger.InRangeSumMonotone | ca-platform1.js:700-705 | widening the range never lowers a sum of non-negative amounts |
| Tax.Gst | ca-platform1.js:587-597 | an empty base reads 0 and an empty rate 18; total minus base is the GST amount, and total is base times (100 + rate)/100 |
| Tax.GstRoundTrip | ca-platform1.js:591-592 | for every rate except -100%, the inclusive total determines the base again |
| Tax.GstExample | ca-platform1.js:587-597 | 18% on 1000 gives 180 and 1180; an empty rate field gives the same |
| Tax.MarginalTaxMonotone | ca-platform1.js:606-633 | tax as a sum of rate times income-in-band is non-negative and nondecreasing for well-formed bands |
| Tax.OldRegimeIsMarginal | ca-platform1.js:610-618 | the old-regime `if` chain equals the marginal-band schedule 5%/20%/30% above 250000/500000/1000000, so adjacent slabs agree at each `<=` edge |
| Tax.NewRegimeIsMarginal | ca-platform1.js:621-633 | the new-regime chain equals the marginal bands 5/10/15/20/30% above 300000/700000/1000000/1200000/1500000 |
| Tax.IncomeTax | ca-platform1.js:599-643 | `"old"` deducts 50000 (floored at 0) and any other regime value taxes the income itself; tax is the regime's marginal schedule, non-negative; cess is 4% of tax and the total is tax plus cess |
| Tax.IncomeTaxMonotone | ca-platform1.js:606-637 | within a regime, more income never gives less tax or a lower total |
| Tax.SlabBoundaryExamples | ca-platform1.js:606-637 | tax at each slab boundary of both regimes, and two worked results with cess |
| Tax.TopRateBound | ca-platform1.js:606-633 | no schedule charges more than 30% of the income above its tax-free threshold |
| Tax.OldRegimeSlabTax | ca-platform1.js:610-618 | the old-regime tax is 0 exactly up to 250000 and never negative |
| Tax.NewRegimeSlabTax | ca-platform1.js:621-633 | the new-regime tax is 0 exactly up to 300000 and never negative |
| Tax.TaxLiability | ca-platform1.js:645-652 | the estimate is 18% of the income transactions' sum, and non-negative when amounts are |
| Tax.TaxLiabilityIncomeOnly | ca-platform1.js:645-652 | the estimate moves by 18% of an added income and not at all for any other type |
| Reports.ProfitLossReport | ca-platform1.js:730-766 | income and expenses are the sums of the income and expense transactions, profit is their difference, and it shows as positive exactly when income is at least expenses |
| Reports.CashFlowReport | ca-platform1.js:820-856 | inflows and outflows are the income and expense sums, the net is their difference, and it shows as positive exactly when inflows are at least outflows |
| Reports.ProfitLossAgreesWithCashFlow | ca-platform1.js:730-739 | P&L and cash flow have the same two totals, the same net and the same sign colour |
| Reports.OnlyIncomeAndExpenseMoveProfit | ca-platform1.js:820-829 | asset, liability and unknown transactions leave both statements unchanged; an income or expense moves the net by its signed amount |
| Reports.BalanceSheetReport | ca-platform1.js:768-818 | assets and liabilities are the asset and liability sums; equity is assets minus liabilities plus (income minus expenses); the printed total is liabilities plus equity |
| Reports.BalanceSheetTotalIsAssetsPlusProfit | ca-platform1.js:785-812 | the printed total is assets plus profit, and equals assets iff income equals expenses |
| Reports.BalanceSheetNeedNotBalance | ca-platform1.js:785-812 | a single income of 100 gives assets 0 against a total of 100 |
| Reports.FirstSeen | ca-platform1.js:861-864 | each category of the transactions appears once, and no other |
| Reports.TrialBalanceRows | ca-platform1.js:858-870 | one row per category in first-seen order; each column holds exactly that category's debit-side or credit-side amounts |
| Reports.PostKeepsDescription | ca-platform1.js:861-870 | one `forEach` step keeps the rows describing the transactions seen so far |
| Reports.AbsentAccountSumsToZero | ca-platform1.js:862-864 | a category not yet seen starts with empty columns |
| Reports.TrialBalanceReport | ca-platform1.js:858-903 | rows in first-seen order with per-category column sums; the total debit is all debit-side amounts, the total credit all others, and together they are all amounts |
| Reports.ColumnTotalIsSide | ca-platform1.js:872-877 | summing a column row by row equals summing that side transaction by transaction |
| Reports.ColumnTotalStep | ca-platform1.js:865-877 | one more transaction moves the debit or credit column total by its amount exactly when its type belongs to that column |
| Reports.PostColumnTotal | ca-platform1.js:865-869 | posting adds the amount to exactly one column total |
| Reports.UpdateColumnTotal | ca-platform1.js:866-868 | changing one row moves a column total by that row's difference |
| Reports.TrialBalanceExample | ca-platform1.js:858-903 | a worked trial balance with a repeated category: two rows, debit 15, credit 50 |
| Reports.GenerateFinancialReport | ca-platform1.js:690-728 | refused iff a date is missing; otherwise the chosen report over the in-range transactions, and the placeholder exactly for an unknown type |
| Reports.ReportIgnoresOutOfRange | ca-platform1.js:700-705 | a transaction outside the range changes no report |
| Invoicing.PriceItem | ca-platform1.js:1573-1590 | keeps the fields; total is qty times rate times (100 + tax)/100, and total minus subtotal is the tax amount |
| Invoicing.PricedItems | ca-platform1.js:1573-1591 | kept items all have a description and a positive rate, each comes from a row, and every such row's item is kept |
| Invoicing.PricedItemsAppend | ca-platform1.js:1573-1591 | the item filter distributes over concatenation, so saved items keep the rows' order |
| Invoicing.PricedItemsOne | ca-platform1.js:1591 | a single row is saved exactly when it has a description and a positive rate |
| Invoicing.PriceAll | ca-platform1.js:534-550 | every row is priced, position by position, as the editing totals do |
| Invoicing.DroppedItems | ca-platform1.js:1591 | the rows the save drops are exactly those failing its filter |
| Invoicing.SubtotalPlusTaxIsTotal | ca-platform1.js:1598-1600 | subtotal plus tax equals the sum of the item totals |
| Invoicing.CreateInvoice | ca-platform1.js:1573-1613 | refused iff no row survives the filter; otherwise status pending, the filtered items, subtotal and tax sums, total equal to both subtotal + tax and the sum of item totals, form fields kept |
| Invoicing.LiveTotals | ca-platform1.js:534-556 | the subtotal and tax shown while editing are the sums over every priced row, dropped ones included, and the total is their sum |
| Invoicing.LiveTotalsSplit | ca-platform1.js:534-556 | the editing subtotal and tax are the saved items' sums plus the dropped rows' sums |
| Invoicing.LiveTotalsMatchSaved | ca-platform1.js:534-556 | when every row survives the filter, the totals shown while editing are the saved ones |
| Invoicing.LiveTotalsCountDroppedRows | ca-platform1.js:1591-1596 | a row without a description shows a total of 118 while editing, and the save is refused |
| Invoicing.InvoiceNumber | ca-platform1.js:487-491 | `INV-` followed by at least four digits |
| Invoicing.InvoiceNumberRoundTrip | ca-platform1.js:487-491 | the number read back from the proposed invoice number is count + 1 |
| Invoicing.InvoiceNumbersDistinct | ca-platform1.js:487-491 | different invoice counts propose different numbers |
| Invoicing.FirstInvoiceNumber | ca-platform1.js:487-491 | the first number proposed is INV-0001 |
| Invoicing.DisplayStatus | ca-platform1.js:558-565 | paid iff stored paid; overdue iff unpaid and the due date's midnight is before now; pending otherwise |
| Invoicing.OverdueOnDueDay | ca-platform1.js:558-565 | an unpaid invoice already shows as overdue during its own due day |
| Invoicing.OverdueIsPermanent | ca-platform1.js:558-565 | once overdue, an invoice stays overdue as time passes |
| Insights.PendingCount | ca-platform1.js:948 | at most the invoice count, and 0 exactly when every invoice is paid |
| Insights.PaidCount | ca-platform1.js:1114-1115 | paid and pending invoices together are all invoices |
| Insights.OverdueCount | ca-platform1.js:949-952 | an invoice due before now that is not paid is also pending, so the overdue count is at most the pending count |
| Insights.OverdueAmount | ca-platform1.js:954 | 0 with no overdue invoice; with non-negative totals between 0 and the unpaid amount |
| Insights.UnpaidAmount | ca-platform1.js:1091-1092 | 0 when nothing is pending |
| Insights.InvoiceFiguresAppend | ca-platform1.js:948-954 | the pending, paid and overdue counts and the overdue and unpaid amounts all add over concatenated invoice lists |
| Insights.InvoiceFiguresOfOne | ca-platform1.js:948-954 | for one invoice: pending and unpaid iff not paid, overdue iff its due date is past and it is unpaid, with its total as the amount |
| Insights.ExpensesOnly | ca-platform1.js:995-997 | keeps only expenses, and their sum is the expense total |
| Insights.ExpensesOnlyAppend | ca-platform1.js:995 | the expense filter distributes over concatenation, keeping order |
| Insights.ExpensesOnlyOne | ca-platform1.js:995 | a single transaction is kept exactly when it is an expense |
| Insights.ExpenseColumn | ca-platform1.js:995-997 | the grouped total of a category is the sum of that category's expense transactions |
| Insights.TopIndex | ca-platform1.js:999 | the first category with the largest total, as a stable descending sort takes it |
| Insights.TopExpense | ca-platform1.js:994-999 | exists iff some transaction is an expense; its figure is its category's expense sum; its category is the first-seen one with the largest sum |
| Insights.TopRowIsFirstLargest | ca-platform1.js:999 | the row a stable descending sort puts first is the first category whose sum no other category exceeds |
| Insights.ExpensesOnlyKeepsExpenses | ca-platform1.js:995 | the expense list is non-empty iff some transaction is an expense |
| Insights.Gather | ca-platform1.js:932-954 | income and expenses are the type sums; pending, paid and overdue counts, overdue and unpaid amounts and the top category are the invoice and expense figures; paid plus pending is all invoices and overdue is at most pending |
| Insights.ProfitMargin | ca-platform1.js:946 | 0 without positive income; otherwise margin times income is profit times 100 |
| Insights.AverageClientValue | ca-platform1.js:1033 | 0 without clients; otherwise the value times the client count is the income |
| Insights.AveragePaymentDays | ca-platform1.js:1114-1115 | 0 without invoices; otherwise the value times the invoice count is 30 times the paid count |
| Insights.When | ca-platform1.js:961-969 | a guarded push contributes its rule exactly when the guard holds |
| Insights.RulesOfAppend | ca-platform1.js:957 | the rules of pushes in sequence are the union of the rules of each part |
| Insights.Entry | ca-platform1.js:960-1136 | the insight a rule pushes carries that rule, with the action, priority and impact the code gives it |
| Insights.Chain | ca-platform1.js:957-1125 | two lists of table entries, the first ranked before the second, join into one list of table entries in display order |
| Insights.WhenFromTable | ca-platform1.js:961-969 | a guarded push is a table entry ranked at its rule |
| Insights.FireRules | ca-platform1.js:960-1125 | a group yields exactly the rules of its list whose guard holds |
| Insights.FireFromTable | ca-platform1.js:960-1125 | a group lists the table entries of its firing rules in the order of its rule list |
| Insights.GroupAscendingProfit | ca-platform1.js:960-990 | the profit rules are listed in the order Low Profit Margin, High Expense Ratio, Excellent Profitability, ranked first |
| Insights.GroupAscendingCost | ca-platform1.js:993-1019 | the cost rules follow the profit rules, Major Expense Category before Automated Cost Tracking |
| Insights.GroupAscendingGrowth | ca-platform1.js:1022-1053 | the growth rules follow the cost rules, in the order the code tests them |
| Insights.GroupAscendingRisk | ca-platform1.js:1056-1087 | the risk rules follow the growth rules, in the order the code tests them |
| Insights.GroupAscendingCashFlow | ca-platform1.js:1090-1125 | the cash flow rules come last among the guarded rules, in the order the code tests them |
| Insights.FireNeverFallsBack | ca-platform1.js:1128-1136 | no group produces the fallback insight |
| Insights.FireOmits | ca-platform1.js:960-1125 | a rule whose guard does not hold is missing from every group |
| Insights.ProfitRules | ca-platform1.js:960-990 | Low Profit Margin, High Expense Ratio and Excellent Profitability each appear iff their guard holds, nothing else appears, each insight is its rule's table entry, and they come in that order |
| Insights.CostRules | ca-platform1.js:993-1019 | Major Expense Category iff the top category exceeds 30% of expenses; Automated Cost Tracking iff expenses are positive; table entries, in that order |
| Insights.GrowthRules | ca-platform1.js:1022-1053 | Client Base Expansion iff under 10 clients; Client Value iff the average client value is positive; Investment iff income is positive and the margin exceeds 15; table entries, in that order |
| Insights.RiskRules | ca-platform1.js:1056-1087 | Overdue Risk iff any invoice is overdue; High Pending Volume iff more than 5 are pending; Concentration iff under 5 clients with income; table entries, in that order |
| Insights.CashFlowRules | ca-platform1.js:1090-1125 | Cash Flow Constraint, Tight Margin and Slow Payment each appear iff their threshold is crossed; table entries, in that order |
| Insights.NoGroupFallsBack | ca-platform1.js:959-1125 | no rule group produces the fallback insight |
| Insights.Group | ca-platform1.js:960 | a group contributes its rules exactly when the category selects it |
| Insights.FiredRules | ca-platform1.js:957-1125 | the fired rules are the union of the selected groups' rules and never the fallback; every insight is its rule's table entry, each rule at most once, in display order across the five groups |
| Insights.JoinGroups | ca-platform1.js:957-1125 | the five groups, each from the table in its own rank range, join into one list in display order with every rule at most once |
| Insights.GroupFromTable | ca-platform1.js:960-1125 | a group that does not run contributes nothing, which keeps the order |
| Insights.GenerateInsights | ca-platform1.js:1127-1138 | never empty; Getting Started appears iff no rule fired, and then alone; otherwise the fired list |
| Insights.InsightsFromTable | ca-platform1.js:957-1138 | the shown list consists of table entries, each rule at most once, in display order with the fallback only ever alone |
| Insights.FallbackFromTable | ca-platform1.js:1128-1136 | the fallback is its rule's table entry, ranked after every other rule |
| Insights.LowMarginIff | ca-platform1.js:961 | Low Profit Margin fires iff income is positive and expenses exceed 90% of it, negative margins included |
| Insights.ExcellentIff | ca-platform1.js:981 | Excellent Profitability fires iff income is positive and expenses are under 80% of it |
| Insights.InvestmentIff | ca-platform1.js:1044 | Investment Opportunity fires iff income is positive and expenses are under 85% of it |
| Insights.AbsentFromFired | ca-platform1.js:959-1125 | a rule whose guard does not hold is never among the fired rules, whatever the category |
| Insights.AbsentFromGroups | ca-platform1.js:960-1125 | a rule whose guard does not hold is missing from all five groups |
| Insights.AbsentFromEveryGroup | ca-platform1.js:959-1136 | a rule other than the fallback whose guard does not hold never appears, whatever the category |
| Insights.NoLowMarginWithoutIncome | ca-platform1.js:946-961 | without positive income, Low Profit Margin never appears in any category |
| Insights.LowMarginExcludesExcellent | ca-platform1.js:961-981 | Low Profit Margin and Excellent Profitability never fire together |
| Insights.SlowPaymentNeverFires | ca-platform1.js:1114-1116 | average payment days is at most 30, so Slow Payment Collection never fires |
| Insights.GatheredSlowPaymentNeverFires | ca-platform1.js:1114-1115 | facts gathered from any store give at most 30 average payment days |
| Insights.DefaultCategoryRunsProfitRules | ca-platform1.js:956-960 | with no active category exactly the profit rules run; an empty ledger then yields only the fallback |
| Insights.InsightsFor | ca-platform1.js:932-1139 | over any store and category the list is never empty, Slow Payment Collection never appears, and Low Profit Margin appears only when income sums above 0 |
| Insights.NoSlowPaymentInsight | ca-platform1.js:1114-1125 | Slow Payment Collection never appears in any category |
| Insights.EmptyStoreGetsFallback | ca-platform1.js:1128-1136 | an empty store with no category shows exactly Getting Started |
| Insights.HighExpenseRatioWithoutIncome | ca-platform1.js:971 | with zero income, High Expense Ratio fires iff there is any expense |
| Insights.ClientValueIff | ca-platform1.js:1033-1040 | the client-value rule fires iff there are clients and positive income, and its figure is 15% of income |
| Insights.ActionTarget | ca-platform1.js:1179-1193 | a label containing "Client" or "client" always opens the client form, and only such a label; an unmatched label is shown as the notice text |
| Insights.ActionTargetIsFirstMatch | ca-platform1.js:1179-1193 | the `includes` chain equals a first-match keyword table, with the notice as the default |
| Insights.FallbackActionOpensClientForm | ca-platform1.js:1132 | the fallback's "Add Your First Client" opens the client form |
| Dashboard.ParsePeriod | ca-platform1.js:119 | an empty select value means the month; only the five known values are periods, others are kept as unknown |
| Dashboard.PeriodRoundTrip | ca-platform1.js:165-181 | reading back a period's option value gives the same period |
| Dashboard.DateRange | ca-platform1.js:160-184 | the window ends now; an unknown period starts now too; on an ordered calendar the window covers now |
| Dashboard.WindowsNest | ca-platform1.js:165-181 | year, quarter, month, week and today windows start in that order |
| Dashboard.InWindow | ca-platform1.js:122-125 | keeps no more transactions than given, each dated at a midnight the window covers |
| Dashboard.InWindowIffCovered | ca-platform1.js:122-125 | a transaction is in the window iff its date's midnight lies inside it |
| Dashboard.InvoicesInWindow | ca-platform1.js:127-130 | keeps exactly the invoices whose date the window covers |
| Dashboard.InvoicesInWindowAppend | ca-platform1.js:127-130 | the invoice window filter distributes over concatenation, keeping order |
| Dashboard.InvoicesInWindowOne | ca-platform1.js:127-130 | a single invoice is kept exactly when the window covers its date's midnight |
| Dashboard.DashboardMetrics | ca-platform1.js:118-158 | revenue and expenses are the in-window type sums; profit is their difference; tax liability is 18% of revenue; clients unfiltered; pending is the pending count of the in-window invoices |
| Dashboard.MetricsIgnoreOutside | ca-platform1.js:122-125 | a transaction outside the window changes no figure |
| Dashboard.LongerPeriodShowsMore | ca-platform1.js:118-143 | with non-negative amounts, a longer period never shows less revenue or expense |
| Dashboard.LabelCount | ca-platform1.js:1306-1347 | 24, 7, 4, 3 or 12 labels, and none exactly for an unknown period |
| Dashboard.Spread | ca-platform1.js:1207-1212 | one point per label, each the total divided by the label count |
| Dashboard.Charts | ca-platform1.js:1203-1269 | all three series have one point per label |
| Dashboard.SpreadAddsUp | ca-platform1.js:1207-1212 | the points of a series add back up to its total |
| Dashboard.ChartsAddUp | ca-platform1.js:1203-1284 | each series sums to its total and every profit bar has the sign (colour) of the overall profit |
| Clients.ValidateClient | ca-platform1.js:1433-1436 | refused iff the name is all whitespace; an accepted client is kept as typed |
| Clients.PaddedNameKept | ca-platform1.js:1422-1436 | " Acme " passes untrimmed, a blank name is refused |
| Clients.FindById | ca-platform1.js:1649 | `find`: the first client with the id, or none iff no client has it |
| Clients.ClientName | ca-platform1.js:1647-1651 | "N/A" without an id, "Unknown" for an absent id, else the first matching client's name |
| Clients.FirstClientWins | ca-platform1.js:1649 | adding a client never changes the name shown for an id that already resolved |
| Clients.FormatBusinessType | ca-platform1.js:276-285 | the label of a known key, anything else unchanged |
| Clients.FormatChangesOnlyKnownKeys | ca-platform1.js:276-285 | the value changes iff it is one of the five keys, and formatting twice changes nothing more |
| Forms.ValidateTransaction | ca-platform1.js:1504-1519 | refuses for a missing date, then client, then type, then a non-numeric or non-positive amount; an accepted form has a positive amount and its fields |
| Forms.ReportsFirstProblem | ca-platform1.js:1504-1519 | accepted iff there are no problems, otherwise the first problem is reported |
| Forms.EmptyFormNeedsDate | ca-platform1.js:1504-1507 | an empty form is refused for its date |
| Compliance.DaysUntil | ca-platform1.js:1386 | the `Math.ceil` of the gap in days: (d-1) days < gap <= d days |
| Compliance.DaysUntilUnique | ca-platform1.js:1386 | that bracket determines the day count |
| Compliance.Classify | ca-platform1.js:1387-1404 | overdue iff d < 0, due soon iff 0 <= d <= 7, otherwise d days left |
| Compliance.BadgeText | ca-platform1.js:1403 | the badge text is never empty and starts with a digit exactly for the "n days left" badge |
| Compliance.CompletedNeverShown | ca-platform1.js:1404 | COMPLETED is never shown; "days left" iff d > 7 |
| Compliance.OverdueAfterAWholeDay | ca-platform1.js:1386-1388 | an item is overdue iff at least a whole day has passed since its due instant, and due soon before that |
| Store.Merge | server.js:57 | every key of either record; the body's value wins, other keys keep the old value |
| Store.MergeIdempotent | server.js:57 | merging the same body twice is merging it once |
| Store.WithCollection | server.js:46 | replacing one collection keeps the other two |
| Store.Stamp | server.js:79-87 | the new id is set; a transaction's date is filled in only when falsy; an invoice gets createdAt; no other key is added or changed |
| Store.Create | server.js:42-49 | appends exactly the stamped record, saves, answers 201, leaves the other collections |
| Store.FirstWithId | server.js:55 | `findIndex`: the first position with the id, or none iff no record has it |
| Store.Update | server.js:52-61 | 404, unchanged and unsaved iff no record has the id; else only the first match is replaced by its merge with the body, saved, answered 200 |
| Store.UpdateIdempotent | server.js:127-136 | repeating an update whose body keeps the id changes nothing more |
| Store.WithoutId | server.js:68 | keeps exactly the records without the id |
| Store.WithoutIdAppend | server.js:105 | the filter keeps survivors in their original order |
| Store.WithoutIdKeepsAll | server.js:104-106 | with no match the filter keeps everything |
| Store.WithoutIdDropsMatch | server.js:104-106 | any match shortens the list |
| Store.WithoutIdShrinks | server.js:67-69 | the length is unchanged iff no record has the id |
| Store.Delete | server.js:64-72 | 404, unchanged and unsaved iff no record has the id; otherwise every match is removed, saved, 200 |
| Store.DeleteUndoesCreate | server.js:138-146 | deleting a freshly created record by its unused new id restores the store |
| Store.LedgerView | server.js:151-156 | a record reads as income or expense iff its type is that string, with amount `Number(amount) \|\| 0` |
| Store.NumberOr0 | server.js:151-156 | `Number(x) || 0`: a missing key reads 0, a number reads itself, an all-whitespace string reads 0 |
| Store.TotalOfType | server.js:151-156 | a total over records none of which has the type is 0 |
| Store.LedgerViews | server.js:151-156 | one view per record, in order |
| Store.TotalsAreLedgerSums | server.js:151-156 | the endpoint's running totals are the ledger's income and expense sums |
| Store.InsightTotals | server.js:148-168 | revenue and expenses are those sums, net profit their difference, active clients and invoice count the collection sizes |
| Store.StampKeepsTypeAndAmount | server.js:79-87 | stamping changes neither type nor amount |
| Store.TotalAfterAppend | server.js:151-156 | one more record moves its own type's total by its amount |
| Store.CreateMovesTotals | server.js:42-124 | creating a transaction moves its own type's total by its amount; a client or invoice only moves the counts |

## Left out

- DOM reads and writes, HTML templates, modals, tabs and Chart.js drawing are not modelled; they are presentation. The form fields arrive already parsed as parameters.
- `localStorage`, the `fetch` client and its API-then-local fallback chains, Express routing and the data-file reads and writes are not modelled; they are I/O. Each handler returns the store it would save and whether it saves.
- The asynchrony of `refreshAIInsights` and the promise chains is not modelled; it carries no domain content.
- The calendar arithmetic of `Date` (`setMonth` overflow, `setHours`, local time zones) is not modelled. Its readings arrive as `Dashboard.Calendar`; dates are UTC midnights of day numbers.
- The due dates the compliance calendar builds from the current month are not modelled; only the badge classification from the day count is.
- IEEE-754 rounding, `NaN`, `Infinity`, `toFixed` and currency formatting are not modelled; amounts are exact reals.
- Store.NumberOr0: reads numbers, booleans and trimmed all-digit strings; other strings (signs, decimals, exponents, hex), arrays and objects read as 0, although `Number` reads some of them differently.
- Insight descriptions are text and are not modelled. That includes the division by zero in the High Expense Ratio description. Titles, actions, priorities and impact figures are modelled.
- JavaScript object key ordering puts integer-like category names first in the trial balance and the expense grouping. The model uses first-seen order throughout.
- The trial balance (ca-platform1.js:862-868) and the expense grouping (ca-platform1.js:996) collect categories in plain objects. A category named like an inherited property (`toString`, `constructor`) then finds that property instead of nothing: the trial balance never creates its row, so its amounts are missing from the rows and the totals, and the expense grouping turns its sum into text. The model treats such a name like any other category, with an empty row and a sum from 0.
- Strings are sequences of Unicode scalar values, while JavaScript strings are UTF-16 code units. `includes`, `trim` and `padStart` agree on text within the Basic Multilingual Plane; lengths and positions differ for characters outside it.
- An invoice status is one of pending, paid and overdue, the only values the code stores; an invoice with any other stored status is not modelled.
- `formatBusinessType` looks keys up in an object literal, so inherited keys such as `constructor` would also resolve. The model uses a plain map of the five keys.
- `generateId` and `Date.now()` ids, and the ISO timestamps, are parameters, because they are clock and randomness.
- `markInvoicePaid`, the list (GET) handlers and the health check are not modelled; they read or forward without logic beyond the update handler.
- Dashboard.Charts: the chart label texts (hours, weekday and month names) are not modelled; only their count is.
- The 404 fallback for unknown routes and the server start-up are not modelled; they are routing.

