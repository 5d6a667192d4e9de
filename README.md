# Finance tracker core in Dafny

A Dafny model of the bookkeeping core of a small React finance tracker for a studio.
The tracker keeps incomes, fixed and variable expenses, clients, employees and expense
categories in one in-memory store, and every page derives its figures from that store.
The model covers:

- the per-record profit formula and the summation helper;
- the inclusive date-window predicate;
- the incomes page: migration of legacy records, the list filter, the form reducer that keeps per-employee payouts in step with the amount, the payout-type switch, and the submit payload;
- the dashboard: its totals, and the top-5 client and employee rankings built by a `Map` accumulation loop;
- the reports page: its filters, table rows, totals and the rows handed to the spreadsheet export;
- the store's reducers and its load-time merge;
- the validators, searches and handlers of the expense, client, employee and calculator pages;
- the column-visibility, multi-select and autocomplete widgets.

JavaScript values are modelled explicitly (`Js.Value`: undefined, null, booleans, numbers
that may be NaN, strings). The two coercion idioms of the source are kept apart:

- `Number(x) || 0` is `Js.OrZero`: a real, with NaN collapsed to 0.
- `Number(x || 0)` is `Js.NumberOrZero`: a number that is still NaN for a non-numeric string.

Amounts are reals. Dates are the stored `YYYY-MM-DD` strings; `Dates.ParseDate` turns one
into an order-preserving day ordinal, or `None` for an Invalid Date. A missing id or date
is the empty string. That is faithful wherever the source tests truthiness, but not where
it compares values: see "Left out".

The modules follow the source files:

| module | file |
|---|---|
| `FinanceMath` | src/utils/math.js |
| `Dates` | src/utils/date.js |
| `Incomes` | src/routes/IncomesPage.jsx |
| `Dashboard` | src/routes/DashboardPage.jsx |
| `Reports` | src/routes/ReportsPage.jsx |
| `Store` | src/store/AppStoreContext.jsx |
| `VariableExpenses` | src/routes/VariableExpensesPage.jsx |
| `FixedExpenses` | src/routes/FixedExpensesPage.jsx |
| `Clients` | src/routes/ClientsPage.jsx |
| `Employees` | src/routes/EmployeesPage.jsx |
| `Calculator` | src/routes/CalculatorPage.jsx |
| `ColumnSettings` | src/components/Table/TableColumnSettings.jsx |
| `MultiSelect` | src/components/Forms/MultiSelectField.jsx |
| `Autocomplete` | src/components/Forms/AutocompleteSelectField.jsx |

`Wrappers`, `Seqs`, `Text`, `Js` and `Records` hold shared support code:

- `Wrappers`: `Option`, `Outcome`, and `Submission`, the store call a form dispatches.
- `Seqs`: `filter`, `find` and `findIndex`.
- `Text`: lower-casing, `includes` and `join`.
- `Js`: JavaScript values and coercions.
- `Records`: the record shapes.

Pages whose handlers advance React state are classes with one method per handler. Each
method's `ensures` ties the new state to a specification function that the lemmas
describe. The store is a class `AppStore` with one method per action; a remote call's
result enters as an `Outcome` parameter. Loops of the source are `while` loops:

- the dashboard's `Map` accumulation (`Dashboard.Accumulate`);
- the default-visibility map of the column settings (`ColumnSettings.DefaultVisible`).

The reports filter reassigns its list (`Reports.FilteredIncomes`), and the export pushes
its total rows (`Reports.GenerateExcel`).

## Model

| member | source | states |
|---|---|---|
| FinanceMath.SumBy | src/utils/math.js:20-22 | the sum of an empty list is 0 |
| FinanceMath.SumByConcat | src/utils/math.js:20-22 | `sumBy` is additive over concatenation |
| FinanceMath.SumBySingle | src/utils/math.js:21 | a one-element list sums to that element's `Number(x) \|\| 0` |
| FinanceMath.SumByNonNumeric | src/utils/math.js:21 | an element whose value is not numeric contributes nothing, wherever it sits |
| FinanceMath.SumByFilter | src/utils/math.js:20-22 | summing a filtered list is summing the whole list with every dropped item read as `undefined` |
| FinanceMath.CalculateProfit | src/utils/math.js:2-17 | with an `employees` array: coerced amount − tax − NP − internal costs − the coerced payout of every entry; without one: the same less the coerced legacy `employeePayouts` |
| FinanceMath.ProfitIgnoresLegacyPayouts | src/utils/math.js:10-15 | with an `employees` array, the legacy `employeePayouts` has no effect on profit |
| FinanceMath.ProfitLegacyPayouts | src/utils/math.js:12-15 | without an array, profit subtracts the coerced legacy `employeePayouts` |
| FinanceMath.ProfitWithExtraEntry | src/utils/math.js:10-11 | appending entries lowers profit by exactly their coerced payout total |
| FinanceMath.ProfitDuplicateEntry | src/utils/math.js:11 | an entry listed twice is subtracted twice; there is no deduplication |
| FinanceMath.ProfitEmptyEmployees | src/utils/math.js:2-17 | an empty array gives amount − tax − NP − internal costs, each coerced |
| FinanceMath.ProfitOfBareRecord | src/utils/math.js:3-17 | a record without tax, NP, costs or employees has its coerced amount as profit |
| FinanceMath.ProfitNonNumericCosts | src/utils/math.js:4-6 | non-numeric tax, NP and internal-cost values count as 0 |
| Js.OrZero | src/utils/math.js:3 | `Number(x) \|\| 0`: NaN becomes 0, any other number is kept |
| Js.NumberOrZero | src/routes/ReportsPage.jsx:95-101 | `Number(x \|\| 0)`: a falsy value gives 0, a truthy one its `Number` conversion, NaN included |
| Js.NumberOrZeroAgrees | src/routes/ReportsPage.jsx:95-101 | the two idioms agree except that `Number(x \|\| 0)` is NaN exactly for a truthy non-numeric value |
| Dates.ParseDate | src/utils/date.js:2-4 | a valid date exactly when the string is `YYYY-MM-DD` digits with month 1-12 and day 1-31; the empty string never is |
| Dates.OrdinalOrder | src/utils/date.js:5-6 | for valid months and days, ordinals compare as (year, month, day) compare lexicographically, and are equal only for equal fields |
| Dates.DateOrder | src/utils/date.js:5-6 | two valid date strings compare by `new Date` exactly as their year, month and day compare, in that order |
| Dates.IsWithinRange | src/utils/date.js:1-8 | in range iff the date parses and lies between every parseable bound, inclusively; a missing or unparseable bound imposes nothing; an empty date is never in range |
| Dates.WideningKeepsDates | src/utils/date.js:5-6 | an earlier-or-open `from` and a later-or-open `to` never drop a date that was in range |
| Dates.OpenWindow | src/utils/date.js:1-8 | with both bounds empty, exactly the parseable dates are in range |
| Dates.OutsideBounds | src/utils/date.js:5-6 | a date strictly before `from` or strictly after `to` is out of range |
| Dates.JuneExamples | src/utils/date.js:1-8 | mid-June and both June bounds are inside June: the bounds are inclusive |
| Dates.JulyOutsideJune | src/utils/date.js:1-8 | July 1st and the empty date fall outside June |
| Incomes.Migrate | src/routes/IncomesPage.jsx:93-112 | every migrated record has an `employees` array |
| Incomes.MigrateAll | src/routes/IncomesPage.jsx:92-113 | one migrated record per stored record, in order |
| Incomes.MigrateIdempotent | src/routes/IncomesPage.jsx:95-97 | an array record is returned unchanged, so migrating twice equals migrating once |
| Incomes.MigrateLegacy | src/routes/IncomesPage.jsx:99-111 | a legacy record gains a one-entry array (type defaults to "percent", payout to 0) and keeps every other field; a record with neither shape gets `[]` |
| Incomes.MigrateFixedLegacyExample | src/routes/IncomesPage.jsx:99-109 | a legacy fixed payout of 500 for e1 becomes the entry (e1, fixed, 500) |
| Incomes.MigratePreservesProfit | src/routes/IncomesPage.jsx:92-113 | migration keeps the computed profit iff the record is not an employee-less legacy record with a nonzero payout |
| Incomes.Keep | src/routes/IncomesPage.jsx:116-128 | a record is listed iff it is in the window, has the chosen client, has an entry for the chosen employee, and its lowercased title contains the lowercased query (unset filters excepted) |
| Incomes.FilterIncomes | src/routes/IncomesPage.jsx:115-130 | exactly the records that pass `Keep` are listed |
| Incomes.NoFiltersKeepsDated | src/routes/IncomesPage.jsx:115-130 | with no filter set, exactly the records with a parseable date are listed |
| Incomes.NewEntry | src/routes/IncomesPage.jsx:247-252 | a new entry is a percent entry for that id; its payout is amount × the employee's percent / 100 for a known employee and a truthy amount, and 0 otherwise |
| Incomes.FindEntry | src/routes/IncomesPage.jsx:235 | the entry found carries the id and comes from `employeeData`; none is found iff no entry has that id |
| Incomes.RebuildEmployeeData | src/routes/IncomesPage.jsx:234-253 | one entry per selected id, in selection order |
| Incomes.RebuildEntries | src/routes/IncomesPage.jsx:232-253 | on an amount or roster change each entry is reused, recomputed as a percent share only when the amount and the employee's percent are truthy, or created fresh for an unseen id |
| Incomes.ChangeField | src/routes/IncomesPage.jsx:222-258 | only the changed field, the tax amount and the entries move; the tax amount becomes amount × taxPercent / 100 after an amount or percent change with both non-empty, else it is kept; an amount or selection change rebuilds one entry per selected id in order, any other change keeps the ids and entries |
| Incomes.PercentRefreshExample | src/routes/IncomesPage.jsx:238-243 | a 10 % employee's percent entry is recomputed to 200 when the amount becomes 2000 |
| Incomes.AmountChangeExample | src/routes/IncomesPage.jsx:238-243 | raising the amount from 1000 to 2000 moves a 10 % payout from 100 to 200 and keeps a fixed payout |
| Incomes.ChangeEntrySpec | src/routes/IncomesPage.jsx:260-282 | only the first entry with the id changes: "fixed" zeroes its payout, "percent" recomputes it from a truthy amount and a known employee, any other type change sets the type and keeps the payout, a direct payout edit is stored; an unknown id changes nothing |
| Incomes.ChangeEntry | src/routes/IncomesPage.jsx:260-282 | only the entries change; afterwards they exist, as many as before, for the same employees in the same order |
| Incomes.AlignedEntriesSubmitted | src/routes/IncomesPage.jsx:146-158 | entries that line up with distinct selected ids are exactly the `employees` array submit builds |
| Incomes.ShownPayoutIsSubmitted | src/routes/IncomesPage.jsx:284-287 | after an amount or selection change with no id selected twice, `getEmployeePayoutTotal` equals the payout total of the submitted record |
| Incomes.IncomePayoutTotal | src/routes/IncomesPage.jsx:289-292 | with an `employees` array the total is the payouts the profit formula subtracts; without one it is 0 |
| Incomes.PayoutTotalOfMigrated | src/routes/IncomesPage.jsx:289-292 | the displayed payout total of a migrated record is what its profit subtracts; a legacy record shows its coerced `employeePayouts` |
| Incomes.SubmitEntries | src/routes/IncomesPage.jsx:146-158 | one entry per selected id, in order, each carrying its id; an id with a stored entry reuses that entry unchanged, an unseen id gets a fresh percent entry (`NewEntry`) |
| Incomes.Submit | src/routes/IncomesPage.jsx:138-177 | rejected iff date, title or a truthy amount is missing; otherwise an update iff editing; the payload has the built entries, no `employeeData`, and the profit it computes to |
| Incomes.SubmittedProfit | src/routes/IncomesPage.jsx:160-164 | the stored profit is amount − tax − NP − internal costs − the built payouts |
| Incomes.EditForm | src/routes/IncomesPage.jsx:179-188 | the form selects the record's employee ids in order and holds its entries as `employeeData`; every other field is the record's own, so the form's payload with those entries is the record again |
| Incomes.AddForm | src/routes/IncomesPage.jsx:190-195 | the empty income with the settings' tax percent when it is non-empty, else "", and an empty entry list |
| Incomes.AddFormNeedsInput | src/routes/IncomesPage.jsx:138-195 | submitting a freshly opened add form is refused with the required-fields message |
| Incomes.EditThenSubmitKeepsDistinctEntries | src/routes/IncomesPage.jsx:146-185 | resubmitting an unchanged record with distinct employees rebuilds exactly its entries |
| Incomes.IncomesPage.constructor | src/routes/IncomesPage.jsx:38-47 | empty form, no editing id, modal closed, no filters |
| Incomes.IncomesPage.HandleChangeField | src/routes/IncomesPage.jsx:222-258 | the form becomes `ChangeField` of the old form; nothing else changes |
| Incomes.IncomesPage.HandleEmployeeDataChange | src/routes/IncomesPage.jsx:260-282 | the form becomes `ChangeEntry` of the old form; nothing else changes |
| Incomes.IncomesPage.HandleSubmit | src/routes/IncomesPage.jsx:138-177 | returns the dispatched submission; a rejection keeps the state, otherwise the form is reset, the id cleared and the modal closed |
| Incomes.IncomesPage.StartEdit | src/routes/IncomesPage.jsx:179-188 | sets the editing id, the edit form, and opens the modal |
| Incomes.IncomesPage.HandleAdd | src/routes/IncomesPage.jsx:190-195 | no editing id, the add form for the settings' tax percent, the modal open; filters kept |
| Incomes.IncomesPage.ClearFilters | src/routes/IncomesPage.jsx:212-220 | every filter is cleared and nothing else changes |
| Dashboard.IncomesInRange | src/routes/DashboardPage.jsx:12-15 | exactly the incomes inside the window |
| Dashboard.VariableInRange | src/routes/DashboardPage.jsx:17-20 | exactly the variable expenses inside the window |
| Dashboard.TotalsOf | src/routes/DashboardPage.jsx:12-27 | the income, profit and variable totals sum every record with the out-of-window ones read as nothing; the fixed total sums every fixed expense; the income total equals the sum of the client ranking's credits |
| Dashboard.TotalsIgnoreOutOfWindow | src/routes/DashboardPage.jsx:22-27 | adding an out-of-window income and expense (and any fixed expense) moves only the fixed total, by its coerced amount |
| Dashboard.ClientCredits | src/routes/DashboardPage.jsx:31-33 | each in-range income credits its client with `Number(amount) \|\| 0`, in order |
| Dashboard.IncomeEmployeeCredits | src/routes/DashboardPage.jsx:47-55 | every array entry credits its employee with the full coerced profit; a legacy record credits `employeeId`; otherwise nobody |
| Dashboard.AccumulationSpec | src/routes/DashboardPage.jsx:30-33 | the Map holds one entry per distinct credited key, in first-encounter order, each valued at the sum of that key's credits |
| Dashboard.KeysMatchMap | src/routes/DashboardPage.jsx:30-33 | the listed keys are distinct and are exactly the Map's keys |
| Dashboard.AccumulatedSum | src/routes/DashboardPage.jsx:30-33 | the Map's values add up to the sum of all credits |
| Dashboard.Accumulate | src/routes/DashboardPage.jsx:44-56 | the loop's keys and map equal the insertion-ordered keys and the accumulated totals |
| Dashboard.ClientCreditsTotal | src/routes/DashboardPage.jsx:23-33 | the client totals add up to the period's income-amount total |
| Dashboard.DuplicateEntryCreditsTwice | src/routes/DashboardPage.jsx:47-51 | a record listing one employee twice credits it twice its profit |
| Dashboard.ClientLabel | src/routes/DashboardPage.jsx:36 | an unknown client, or one with an empty name, is "Без клиента"; a known one shows its non-empty name; the label is never empty |
| Dashboard.EmployeeLabel | src/routes/DashboardPage.jsx:59 | an unknown employee, or one with an empty name, is "Без исполнителя"; a known one shows its non-empty name; the label is never empty |
| Dashboard.InsertPermutes | src/routes/DashboardPage.jsx:39 | insertion adds exactly the new row |
| Dashboard.InsertSorted | src/routes/DashboardPage.jsx:39 | insertion into a non-increasing list keeps it non-increasing |
| Dashboard.InsertStable | src/routes/DashboardPage.jsx:39 | a row inserted into a non-increasing list goes ahead of the rows of equal value already in it; since `SortDesc` inserts each row into the sorted rows that follow it in the input, equal rows keep their input order |
| Dashboard.SortDesc | src/routes/DashboardPage.jsx:39 | the descending sort returns a non-increasing permutation of its input |
| Dashboard.SortDescStable | src/routes/DashboardPage.jsx:62 | rows of equal value keep their relative order |
| Dashboard.Top5 | src/routes/DashboardPage.jsx:40 | exactly min(5, n) rows, a prefix of the input |
| Dashboard.PrefixWithValue | src/routes/DashboardPage.jsx:40 | the rows of one value kept by a prefix come first among that value's rows |
| Dashboard.RowsOf | src/routes/DashboardPage.jsx:34-38 | one labelled row per key, in key order |
| Dashboard.ClientLabels | src/routes/DashboardPage.jsx:36 | every client key is labelled by `ClientLabel` |
| Dashboard.EmployeeLabels | src/routes/DashboardPage.jsx:59 | every employee key is labelled by `EmployeeLabel` |
| Dashboard.RowsFor | src/routes/DashboardPage.jsx:34-38 | one row per accumulated key, in first-credited order, with the key's label and credit total |
| Dashboard.Ranking | src/routes/DashboardPage.jsx:34-40 | exactly min(5, keys) rows, non-increasing, drawn without repetition from the per-key rows |
| Dashboard.RankingSpec | src/routes/DashboardPage.jsx:34-40 | each ranked row is some key's label with the sum of that key's credits |
| Dashboard.RankingTopN | src/routes/DashboardPage.jsx:39-40 | every key is ranked, or five rows are ranked and the key's total is at most the fifth |
| Dashboard.RankingTies | src/routes/DashboardPage.jsx:39-40 | ranked rows of equal total keep the order in which their keys were first credited |
| Dashboard.TopClients | src/routes/DashboardPage.jsx:29-41 | `topClients` is the ranking of the client credits of the in-range incomes |
| Dashboard.TopEmployees | src/routes/DashboardPage.jsx:43-64 | `topEmployees` is the ranking of the employee credits of the in-range incomes |
| Reports.FirstPass | src/routes/ReportsPage.jsx:22-44 | the callback's early-return chain accepts a record iff it is in the report |
| Reports.ReportIncomes | src/routes/ReportsPage.jsx:22-44 | exactly the records that are in the report are listed |
| Reports.FilteredIncomes | src/routes/ReportsPage.jsx:21-63 | the two re-filters of `filtered` leave the single first pass unchanged |
| Reports.ReportMembership | src/routes/ReportsPage.jsx:24-42 | a general report filters by window only; a client report with a selection keeps in-window records of selected clients; an employee report drops records with neither shape |
| Reports.FilteredVariableExpenses | src/routes/ReportsPage.jsx:65-70 | exactly the in-window variable expenses |
| Reports.OrDash | src/routes/ReportsPage.jsx:93 | never empty; a non-empty text is kept |
| Reports.RowPayouts | src/routes/ReportsPage.jsx:79-87 | the array's coerced payout total, the legacy `Number(employeePayouts \|\| 0)`, or 0 |
| Reports.IncomesTable | src/routes/ReportsPage.jsx:74-105 | one row per filtered income, in order |
| Reports.RowPayoutsMatchProfit | src/routes/ReportsPage.jsx:79-87 | a numeric payout cell is what profit subtracts; it is NaN exactly for a legacy record with a truthy non-numeric payout |
| Reports.ExpensesTable | src/routes/ReportsPage.jsx:108-130 | in-window variable rows first, in order, then every fixed row, tagged by kind |
| Reports.TotalIncome | src/routes/ReportsPage.jsx:132-134 | NaN iff some amount is truthy and non-numeric; otherwise the `sumBy` of the amounts |
| Reports.TotalProfit | src/routes/ReportsPage.jsx:136-138 | NaN iff some profit is truthy and non-numeric; otherwise the `sumBy` of the profits |
| Reports.HasNaNTermSnoc | src/routes/ReportsPage.jsx:132-138 | a NaN-producing value occurs in a list iff it occurs in the prefix or is the last value |
| Reports.NumberSumSpec | src/routes/ReportsPage.jsx:132-138 | the un-collapsed total is NaN iff some value is truthy and non-numeric; otherwise it equals `sumBy` |
| Reports.ExpenseTotalConcat | src/routes/ReportsPage.jsx:140-142 | the expense total is additive over concatenation |
| Reports.CoercedTwice | src/routes/ReportsPage.jsx:141 | coercing an already converted amount again gives `Number(x) \|\| 0` |
| Reports.VariableRowsTotal | src/routes/ReportsPage.jsx:108-119 | the variable rows total the `sumBy` of their amounts |
| Reports.FixedRowsTotal | src/routes/ReportsPage.jsx:119-128 | the fixed rows total the `sumBy` of their amounts |
| Reports.ExpenseTotalSplits | src/routes/ReportsPage.jsx:140-142 | `totalExpenses` is the in-window variable `sumBy` plus the fixed `sumBy` |
| Reports.GenerateExcel | src/routes/ReportsPage.jsx:144-254 | refused with the matching message iff a date is missing or a client/employee report has no selection; otherwise the incomes and expenses sheets and the file name `Отчет_<from>_<to>.xlsx` |
| Reports.IncomeSheet | src/routes/ReportsPage.jsx:161-209 | n + 1 rows: one per filtered income in order, then the ИТОГО row with the amount and profit totals |
| Reports.ExpenseSheet | src/routes/ReportsPage.jsx:212-239 | one row per in-window variable expense in order, then one per fixed expense in order, then the ИТОГО row carrying the expense total |
| Reports.ExpenseSheetSpec | src/routes/ReportsPage.jsx:212-239 | the ИТОГО row's amount is the in-window variable `sumBy` plus the fixed `sumBy` |
| Reports.ReportsPage.constructor | src/routes/ReportsPage.jsx:13-17 | a general report with an empty period and empty selections |
| Reports.ReportsPage.ClearFilters | src/routes/ReportsPage.jsx:259-264 | the period and both selections are cleared; the report type stays |
| Store.Merge | src/store/AppStoreContext.jsx:54-59 | each collection is the server's when present, else empty; organization and settings fall back to the defaults |
| Store.MergeExtremes | src/store/AppStoreContext.jsx:54-59 | an empty response gives the default state; a complete one is taken as it is |
| Store.ReplaceById | src/store/AppStoreContext.jsx:106 | same length; every item with the id is replaced, every other kept in place |
| Store.RemoveById | src/store/AppStoreContext.jsx:119 | exactly the items with other ids remain |
| Store.ReplaceAbsent | src/store/AppStoreContext.jsx:106 | an update for an id that is not present changes nothing |
| Store.RemoveByIdOrder | src/store/AppStoreContext.jsx:119 | removal works piecewise over concatenation, so the survivors keep their order |
| Store.AddThenDelete | src/store/AppStoreContext.jsx:88-125 | deleting a freshly added item with a new id restores the collection |
| Store.UpdateThenDelete | src/store/AppStoreContext.jsx:101-125 | deleting after an update by the same id equals deleting straight away |
| Store.AppStore.constructor | src/store/AppStoreContext.jsx:39-40 | default state, loading |
| Store.AppStore.Load | src/store/AppStoreContext.jsx:43-69 | signed in with a response: the merged state; otherwise the state stays; loading ends either way |
| Store.AppStore.SetState | src/store/AppStoreContext.jsx:72-81 | a function updater is applied to the previous state; a value replaces it |
| Store.AppStore.AddClient | src/store/AppStoreContext.jsx:88-100 | on success the client is appended and nothing else changes; on failure the state stays and the error is returned |
| Store.AppStore.UpdateClient | src/store/AppStoreContext.jsx:101-113 | on success clients with the id are replaced; on failure nothing changes |
| Store.AppStore.DeleteClient | src/store/AppStoreContext.jsx:114-125 | on success clients with the id are removed; on failure nothing changes |
| Store.AppStore.AddEmployee | src/store/AppStoreContext.jsx:128-140 | on success the employee is appended; on failure nothing changes |
| Store.AppStore.UpdateEmployee | src/store/AppStoreContext.jsx:141-153 | on success employees with the id are replaced; on failure nothing changes |
| Store.AppStore.DeleteEmployee | src/store/AppStoreContext.jsx:154-165 | on success employees with the id are removed; on failure nothing changes |
| Store.AppStore.AddIncome | src/store/AppStoreContext.jsx:168-180 | on success the income is appended; on failure nothing changes |
| Store.AppStore.UpdateIncome | src/store/AppStoreContext.jsx:181-193 | on success incomes with the id are replaced; on failure nothing changes |
| Store.AppStore.DeleteIncome | src/store/AppStoreContext.jsx:194-205 | on success incomes with the id are removed; on failure nothing changes |
| Store.AppStore.AddFixedExpense | src/store/AppStoreContext.jsx:208-220 | on success the expense is appended; on failure nothing changes |
| Store.AppStore.UpdateFixedExpense | src/store/AppStoreContext.jsx:221-233 | on success expenses with the id are replaced; on failure nothing changes |
| Store.AppStore.DeleteFixedExpense | src/store/AppStoreContext.jsx:234-245 | on success expenses with the id are removed; on failure nothing changes |
| Store.AppStore.AddVariableExpense | src/store/AppStoreContext.jsx:248-260 | on success the expense is appended; on failure nothing changes |
| Store.AppStore.UpdateVariableExpense | src/store/AppStoreContext.jsx:261-273 | on success expenses with the id are replaced; on failure nothing changes |
| Store.AppStore.DeleteVariableExpense | src/store/AppStoreContext.jsx:274-285 | on success expenses with the id are removed; on failure nothing changes |
| Store.AppStore.AddExpenseCategory | src/store/AppStoreContext.jsx:288-300 | on success the category is appended; on failure nothing changes |
| Store.AppStore.UpdateExpenseCategory | src/store/AppStoreContext.jsx:301-313 | on success categories with the id are replaced; on failure nothing changes |
| Store.AppStore.DeleteExpenseCategory | src/store/AppStoreContext.jsx:314-325 | on success categories with the id are removed; on failure nothing changes |
| Store.AppStore.UpdateOrganization | src/store/AppStoreContext.jsx:328-340 | on success the whole organization is replaced; on failure nothing changes |
| Store.AppStore.UpdateAppSettings | src/store/AppStoreContext.jsx:343-355 | on success the whole settings object is replaced; on failure nothing changes |
| VariableExpenses.Keep | src/routes/VariableExpensesPage.jsx:39-44 | kept iff in the window, of the chosen category, and its lowercased title contains the lowercased query (unset filters excepted) |
| VariableExpenses.Filtered | src/routes/VariableExpensesPage.jsx:38-45 | exactly the expenses that pass `Keep` |
| VariableExpenses.Total | src/routes/VariableExpensesPage.jsx:38-48 | the sum over every stored expense of its coerced amount, with the filtered-out ones read as nothing |
| VariableExpenses.FilterAndTotal | src/routes/VariableExpensesPage.jsx:38-48 | with no filters exactly the dated expenses are listed; an out-of-window expense does not move the total |
| VariableExpenses.Submit | src/routes/VariableExpensesPage.jsx:50-64 | rejected iff title or date is empty or amount is exactly ""; otherwise an update iff editing, else an add, of the form |
| VariableExpenses.ZeroAmountAccepted | src/routes/VariableExpensesPage.jsx:52 | an amount of 0, or an absent amount, is accepted |
| VariableExpenses.VariableExpensesPage.constructor | src/routes/VariableExpensesPage.jsx:24-27 | empty form, no edit id, modal closed, no filters |
| VariableExpenses.VariableExpensesPage.HandleSubmit | src/routes/VariableExpensesPage.jsx:50-64 | returns the dispatched submission; on acceptance the form, the id and the modal are reset; filters stay |
| VariableExpenses.VariableExpensesPage.StartEdit | src/routes/VariableExpensesPage.jsx:78-82 | the form is the expense, its id is the edit id, the modal opens |
| VariableExpenses.VariableExpensesPage.ClearFilters | src/routes/VariableExpensesPage.jsx:84-91 | all four filters are cleared and nothing else changes |
| FixedExpenses.TotalAfterAdd | src/routes/FixedExpensesPage.jsx:23 | appending an expense raises the total by its coerced amount |
| FixedExpenses.Submit | src/routes/FixedExpensesPage.jsx:25-39 | rejected iff the name is empty or the amount is exactly ""; otherwise an update iff editing, else an add |
| FixedExpenses.EditForm | src/routes/FixedExpensesPage.jsx:55 | name and amount are copied; a missing period becomes "" |
| FixedExpenses.FixedExpensesPage.constructor | src/routes/FixedExpensesPage.jsx:19-21 | empty form, no edit id, modal closed |
| FixedExpenses.FixedExpensesPage.HandleSubmit | src/routes/FixedExpensesPage.jsx:25-39 | returns the dispatched submission; on acceptance the form, the id and the modal are reset |
| FixedExpenses.FixedExpensesPage.StartEdit | src/routes/FixedExpensesPage.jsx:53-57 | the edit form of the expense, its id, and the modal opens |
| Clients.Filtered | src/routes/ClientsPage.jsx:30-37 | exactly the clients that match the search |
| Clients.SearchSpec | src/routes/ClientsPage.jsx:30-37 | a client matches iff the lowercased query is in its lowercased name or phone (a missing phone is ""); an empty search keeps everyone |
| Clients.Submit | src/routes/ClientsPage.jsx:39-53 | rejected iff name or phone is empty; otherwise an update iff editing, else an add |
| Clients.EditForm | src/routes/ClientsPage.jsx:55-65 | the name is copied and each missing optional field becomes "" |
| Clients.EditWithoutPhoneRefused | src/routes/ClientsPage.jsx:41-62 | editing a client that has no phone and submitting unchanged is refused |
| Clients.ClientsPage.constructor | src/routes/ClientsPage.jsx:10-19 | empty search, empty form, no editing id, modal closed |
| Clients.ClientsPage.HandleSubmit | src/routes/ClientsPage.jsx:39-53 | returns the dispatched submission; on acceptance the form is all "" and the id cleared |
| Clients.ClientsPage.StartEdit | src/routes/ClientsPage.jsx:55-65 | the edit form of the client, its id, and the modal opens |
| Employees.Filtered | src/routes/EmployeesPage.jsx:15-22 | exactly the employees that match the search |
| Employees.SearchSpec | src/routes/EmployeesPage.jsx:15-22 | matches iff the lowercased query is in the lowercased full name or position (a missing position is ""); an empty search keeps everyone |
| Employees.Submit | src/routes/EmployeesPage.jsx:24-42 | refused for an empty name, then for a percent below 0 or above 100; otherwise an update iff editing, else an add |
| Employees.PercentBounds | src/routes/EmployeesPage.jsx:30-33 | a numeric percent is accepted iff 0 ≤ p ≤ 100; an empty one is accepted |
| Employees.EditForm | src/routes/EmployeesPage.jsx:46 | a missing position becomes "" and a falsy percent becomes 0 |
| Employees.DeletePrompt | src/routes/EmployeesPage.jsx:63-66 | the warning appears iff some income's legacy `employeeId` is the employee's |
| Employees.ArrayEntriesNotChecked | src/routes/EmployeesPage.jsx:63 | an employee referenced only by array entries gets the plain prompt |
| Employees.EmployeesPage.constructor | src/routes/EmployeesPage.jsx:10-13 | empty search, empty form with percent 0, no editing id, modal closed |
| Employees.EmployeesPage.HandleSubmit | src/routes/EmployeesPage.jsx:24-42 | returns the dispatched submission; on acceptance the form, the id and the modal are reset |
| Employees.EmployeesPage.StartEdit | src/routes/EmployeesPage.jsx:44-48 | the edit form of the employee, its id, and the modal opens |
| Employees.EmployeesPage.HandleDelete | src/routes/EmployeesPage.jsx:62-70 | the prompt shown is `DeletePrompt`; the id is deleted iff confirmed |
| Calculator.Compute | src/routes/CalculatorPage.jsx:8-24 | a result exists iff the inputs pass the guard; its final amount is the amount |
| Calculator.NumericGuard | src/routes/CalculatorPage.jsx:9 | numeric inputs pass iff amount > 0 and 0 < percent < 100 |
| Calculator.GrossUp | src/routes/CalculatorPage.jsx:13-22 | transfer > amount, tax = transfer × percent / 100, transfer − tax = final amount |
| Calculator.DocumentedExample | src/routes/CalculatorPage.jsx:122-124 | 100 000 at 7 % needs a transfer between 107 526.88 and 107 526.89 |
| Calculator.Refusals | src/routes/CalculatorPage.jsx:9-11 | an empty input, a percent of 100 or an amount of 0 gives no result |
| ColumnSettings.KeyOf | src/components/Table/TableColumnSettings.jsx:12 | a column's key, or its label when the key is empty |
| ColumnSettings.Keys | src/components/Table/TableColumnSettings.jsx:12 | exactly the keys of the columns |
| ColumnSettings.AllVisible | src/components/Table/TableColumnSettings.jsx:19-25 | every column key maps to true, and nothing else is in the map |
| ColumnSettings.DefaultVisible | src/components/Table/TableColumnSettings.jsx:20-24 | the `forEach` loop builds exactly the all-visible map |
| ColumnSettings.Initial | src/components/Table/TableColumnSettings.jsx:6-34 | a saved map covering every column key is adopted; otherwise the all-visible map |
| ColumnSettings.Toggled | src/components/Table/TableColumnSettings.jsx:45-50 | the key's entry becomes the negation of its truthiness; every other entry is kept |
| ColumnSettings.ToggleSpec | src/components/Table/TableColumnSettings.jsx:45-50 | toggling never changes another column's checkbox; a boolean entry flips, and toggling it twice restores the map |
| ColumnSettings.DefaultsShowAll | src/components/Table/TableColumnSettings.jsx:113-115 | with the defaults every column's checkbox is checked |
| ColumnSettings.ColumnSettingsState.constructor | src/components/Table/TableColumnSettings.jsx:6-34 | the visibility map is the initial decision for the columns and the saved map |
| ColumnSettings.ColumnSettingsState.ToggleColumn | src/components/Table/TableColumnSettings.jsx:45-50 | the map becomes `Toggled` of the old map |
| ColumnSettings.ColumnSettingsState.ResetToDefault | src/components/Table/TableColumnSettings.jsx:52-59 | the map becomes the all-visible map of the columns |
| MultiSelect.Toggle | src/components/Forms/MultiSelectField.jsx:23-28 | a selected value is removed with all its copies, other values kept; an unselected one is appended |
| MultiSelect.ToggleFlips | src/components/Forms/MultiSelectField.jsx:24-26 | toggling flips the value's membership and no other value's |
| MultiSelect.ToggleTwice | src/components/Forms/MultiSelectField.jsx:24-26 | toggling an unselected value twice restores the list |
| MultiSelect.SelectedOptions | src/components/Forms/MultiSelectField.jsx:30-31 | exactly the options whose value is selected |
| MultiSelect.Captions | src/components/Forms/MultiSelectField.jsx:33 | one label per option, in order |
| MultiSelect.SelectedLabels | src/components/Forms/MultiSelectField.jsx:30-33 | "" when no option is selected (in particular for an empty selection); a single selected option shows exactly its label |
| MultiSelect.SelectedLabelsConcat | src/components/Forms/MultiSelectField.jsx:30-33 | the labels follow option order: those chosen from `a + b` are those from `a`, then those from `b`, with one ", " between |
| MultiSelect.OnlyOneSelected | src/components/Forms/MultiSelectField.jsx:30-31 | selecting the one option with a value picks that option alone |
| MultiSelect.SingleSelectionLabel | src/components/Forms/MultiSelectField.jsx:30-33 | selecting the one option with a value shows exactly its label |
| Autocomplete.SelectedOption | src/components/Forms/AutocompleteSelectField.jsx:9 | none for an empty value; otherwise the first option with that value, none iff no option has it |
| Autocomplete.FilterOptions | src/components/Forms/AutocompleteSelectField.jsx:95-99 | an empty input keeps every option; otherwise exactly the options whose lowercased label contains the lowercased input |
| Autocomplete.FilterKeepsOrder | src/components/Forms/AutocompleteSelectField.jsx:98 | filtering works piecewise over concatenation, so option order is kept |
| Autocomplete.ReportedValue | src/components/Forms/AutocompleteSelectField.jsx:21 | a cleared choice reports ""; a choice reports its value |
| Autocomplete.ChooseThenLookUp | src/components/Forms/AutocompleteSelectField.jsx:9-21 | choosing an option and looking its value up finds an option with that value; clearing finds none |

## Left out

- Network and persistence: the remote `api` calls are not modelled; their results are `Outcome` parameters of the store methods. The background save after every state change is fire-and-forget and leaves the state alone, so it is omitted. Browser storage writes are omitted too.
- Authentication, routing, rendering, `alert`/`confirm` (confirmation is a `bool` parameter of `Employees.EmployeesPage.HandleDelete`), styling and widget internals are not part of this model.
- The add handlers of the variable-expense, fixed-expense, client and employee pages, and the close-modal handler of every page, only put back the empty form, clear the editing id and open or close the modal; they are not modelled. The incomes page's add handler also seeds the tax percent from the settings and is modelled (`Incomes.IncomesPage.HandleAdd`). The client quick-add dialog of the incomes page is not part of this model.
- Aliasing: the incomes form and the store share payout-entry objects. `handleChangeField` writes `existing.payoutAmount` in place, and `handleEmployeeDataChange` writes into an array shared with the previous form. The model uses value semantics, so a stored record is never changed through the form before submit.
- IEEE-754 doubles are modelled as reals plus NaN. Rounding, infinities and overflow are not captured. The calculator's lemmas hold over the reals.
- `Js.ParseNumber` reads optionally signed decimals with surrounding spaces, and the empty string as 0. Exponents, hexadecimal, `Infinity` and the other number syntaxes are not modelled.
- `Dates.ParseDate` accepts only `YYYY-MM-DD` with month 1-12 and day 1-31. Other formats, times, time zones, and the engine-specific handling of dates such as February 31st are not modelled. `formatDate` and `toLocaleString` are locale-dependent display and are left out; rows keep the stored date string.
- `null` and `undefined` ids and dates are both the empty string. A server collection present as `null` is modelled as absent.
- Where the source compares ids by identity rather than truthiness, `undefined`, `null` and `""` are three different keys. The dashboard's `Map` accumulation (src/routes/DashboardPage.jsx:32,50) would keep records with an undefined, a null and an empty client or employee id apart. The report filter's `includes` (src/routes/ReportsPage.jsx:27,33) would match a selected `""` only against an empty id. The model merges the three into one key `""`.
- `.toLowerCase()` is called on the title, name, full name or option label without a guard (src/routes/IncomesPage.jsx:125, src/routes/VariableExpensesPage.jsx:42, src/routes/ClientsPage.jsx:34, src/routes/EmployeesPage.jsx:19, src/components/Forms/AutocompleteSelectField.jsx:98). A record missing that field makes the search throw a `TypeError`. The model types these fields as strings, so a missing one is `""` and the search goes on.
- Text.ToLower: lower-cases only Latin A-Z, Cyrillic А-Я and Ё (`Text.LowerChar`); `toLowerCase` folds every Unicode letter (Greek, accented Latin, special casings such as the Turkish İ), and the search filters built on it are exact only for text in those two alphabets.
- The column-visibility map drives only the checkboxes of the settings panel (`ColumnSettings.IsVisible`); the table component (src/components/Table/Table.jsx) does not read it, so hiding columns is not part of this model.
- `generateId` is randomness; ids come from the server responses.
- The XLSX workbook creation and file writing are left out; `Reports.GenerateExcel` returns the two row arrays and the file name.
- The incomes page's `totalAmount`/`totalProfit` (src/routes/IncomesPage.jsx:132-133) are `FinanceMath.SumBy` over the filtered list and have no separate members. The variable and fixed page totals are `VariableExpenses.Total` and `FixedExpenses.Total`.
- The loading spinner and the column-settings persistence effect and parent notification are left out. The initial visibility decision takes the already-parsed saved map as an `Option`, and a parse failure is `None`.
- FixedExpenses.Total: `fixedTotal` (src/routes/FixedExpensesPage.jsx:23), the `FinanceMath.SumBy` of every fixed expense's coerced amount with no date filter, has no contract of its own; its value is stated through `FixedExpenses.TotalAfterAdd` and the `FinanceMath.SumBy` lemmas.
- Reports.ExpenseTotal: `totalExpenses` (src/routes/ReportsPage.jsx:140-142), the sum of the expense rows' amounts with a NaN row amount read as 0, has no contract of its own; its value is stated through `Reports.ExpenseTotalConcat`, `Reports.ExpenseTotalSplits` and `Reports.ExpenseSheetSpec`.
- Incomes.FormPayoutTotal: `getEmployeePayoutTotal` (src/routes/IncomesPage.jsx:284-287), the coerced payout sum over the form's `employeeData` or 0 without one, has no contract of its own; its value is stated through `Incomes.ShownPayoutIsSubmitted`.
- Incomes.PercentShare: this helper has no contract of its own; its value is stated through `Incomes.RebuildEntries`, `Incomes.ChangeEntrySpec` and `Incomes.AmountChangeExample`.
- The payout-type switch: an entry switched to "fixed" gets a payout of 0 (src/routes/IncomesPage.jsx:275-276), not the payout it had; the model does the same (`Incomes.ChangeEntrySpec`).
