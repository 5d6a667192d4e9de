/**
 * The reports page (src/routes/ReportsPage.jsx): the report filter, the on-screen
 * tables and totals, and the rows handed to the spreadsheet export.
 */
module Reports {
  import opened Wrappers
  import opened Js
  import opened Records
  import Seqs
  import Text
  import Dates
  import FinanceMath

  /** `reportType`: "general", "client" or "employee". */
  datatype ReportType = General | ByClient | ByEmployee

  /** The report parameters chosen on the page. */
  datatype ReportParams = ReportParams(
    reportType: ReportType,
    dateFrom: string,
    dateTo: string,
    selectedClients: seq<string>,
    selectedEmployees: seq<string>)

  /** An array record with a selected entry, or a legacy record whose `employeeId` is selected. */
  predicate HasSelectedEmployee(income: Income, selected: seq<string>)
  {
    match income.employees
    case Some(entries) => exists k :: 0 <= k < |entries| && entries[k].employeeId in selected
    case None => income.employeeId != "" && income.employeeId in selected
  }

  /** What a report keeps, stated as one conjunction. */
  predicate InReport(income: Income, p: ReportParams)
  {
    && Dates.IsWithinRange(income.date, p.dateFrom, p.dateTo)
    && (p.reportType == ByClient && p.selectedClients != [] ==> income.clientId in p.selectedClients)
    && (p.reportType == ByEmployee && p.selectedEmployees != [] ==> HasSelectedEmployee(income, p.selectedEmployees))
  }

  /** The first `filter` callback (lines 23-46), with its early returns. */
  function FirstPass(income: Income, p: ReportParams): (r: bool)
    ensures r <==> InReport(income, p)
  {
    if !Dates.IsWithinRange(income.date, p.dateFrom, p.dateTo) then false
    else if p.reportType == ByClient && |p.selectedClients| > 0 && income.clientId !in p.selectedClients then false
    else if p.reportType == ByEmployee && |p.selectedEmployees| > 0 then
      match income.employees
      case Some(entries) =>
        Seqs.Any(entries, (e: Payout) => e.employeeId in p.selectedEmployees)
      case None =>
        if income.employeeId != "" then income.employeeId in p.selectedEmployees else false
    else true
  }

  /** The second pass's client test (line 49). */
  predicate ClientPass(income: Income, p: ReportParams)
  {
    income.clientId in p.selectedClients
  }

  /** The second pass's employee test (lines 53-60). */
  predicate EmployeePass(income: Income, p: ReportParams)
  {
    match income.employees
    case Some(entries) => Seqs.Any(entries, (e: Payout) => e.employeeId in p.selectedEmployees)
    case None => if income.employeeId != "" then income.employeeId in p.selectedEmployees else false
  }

  /** The incomes a report lists: a single pass of the first `filter` callback. */
  function ReportIncomes(incomes: seq<Income>, p: ReportParams): (r: seq<Income>)
    ensures forall x :: x in r <==> x in incomes && InReport(x, p)
  {
    Seqs.Filter(incomes, (i: Income) => FirstPass(i, p))
  }

  /**
   * `filteredIncomes`: the first pass, then the two conditional re-filters of `filtered`.
   * The re-filters change nothing, so the result is the single pass.
   */
  method FilteredIncomes(incomes: seq<Income>, p: ReportParams) returns (filtered: seq<Income>)
    ensures filtered == ReportIncomes(incomes, p)
  {
    filtered := Seqs.Filter(incomes, (i: Income) => FirstPass(i, p));
    if p.reportType == ByClient && |p.selectedClients| > 0 {
      Seqs.FilterAllPass(filtered, (i: Income) => ClientPass(i, p));
      filtered := Seqs.Filter(filtered, (i: Income) => ClientPass(i, p));
    }
    if p.reportType == ByEmployee && |p.selectedEmployees| > 0 {
      Seqs.FilterAllPass(filtered, (i: Income) => EmployeePass(i, p));
      filtered := Seqs.Filter(filtered, (i: Income) => EmployeePass(i, p));
    }
  }

  /**
   * A general report keeps exactly the in-window records and ignores both selections; a
   * client report with a selection keeps the in-window records of the selected clients;
   * an employee report with a selection never keeps a legacy record without an employee.
   */
  lemma {:induction false} ReportMembership(incomes: seq<Income>, p: ReportParams)
    ensures p.reportType == General ==>
              forall x :: x in ReportIncomes(incomes, p) <==> x in incomes && Dates.IsWithinRange(x.date, p.dateFrom, p.dateTo)
    ensures p.reportType == ByClient && p.selectedClients != [] ==>
              forall x :: x in ReportIncomes(incomes, p) <==>
                x in incomes && Dates.IsWithinRange(x.date, p.dateFrom, p.dateTo) && x.clientId in p.selectedClients
    ensures p.reportType == ByEmployee && p.selectedEmployees != [] ==>
              forall x :: x in ReportIncomes(incomes, p) && x.employees.None? ==> x.employeeId != ""
  {
  }

  /** `filteredVariableExpenses`. */
  function FilteredVariableExpenses(expenses: seq<VariableExpense>, p: ReportParams): (r: seq<VariableExpense>)
    ensures forall x :: x in r <==> x in expenses && Dates.IsWithinRange(x.date, p.dateFrom, p.dateTo)
  {
    Seqs.Filter(expenses, (e: VariableExpense) => Dates.IsWithinRange(e.date, p.dateFrom, p.dateTo))
  }

  // ---------------------------------------------------------------- income table

  /** `s || "—"`. */
  function OrDash(s: string): (r: string)
    ensures r != ""
    ensures s != "" ==> r == s
  {
    if s != "" then s else "—"
  }

  /** `state.employees.find(...)?.fullName || "—"`. */
  function EmployeeName(roster: seq<Employee>, id: string): string
  {
    match FindEmployee(roster, id)
    case Some(e) => OrDash(e.fullName)
    case None => "—"
  }

  /** `state.clients.find(...)?.name || "—"`. */
  function ClientName(clients: seq<Client>, id: string): string
  {
    match FindClient(clients, id)
    case Some(c) => OrDash(c.name)
    case None => "—"
  }

  /** One row of the incomes table. `date` is the stored date (display formatting is not modelled). */
  datatype IncomeRow = IncomeRow(
    id: string,
    date: string,
    client: string,
    title: string,
    employees: string,
    amount: Number,
    taxPercent: Number,
    taxAmount: Number,
    npAmount: Number,
    internalCosts: Number,
    employeePayouts: Number,
    profit: Number,
    comment: string)

  /** The names column: the entries' names joined by ", ", the legacy name, or "—". */
  function EmployeeNames(income: Income, roster: seq<Employee>): string
  {
    match income.employees
    case Some(entries) =>
      Text.Join(seq(|entries|, k requires 0 <= k < |entries| => EmployeeName(roster, entries[k].employeeId)), ", ")
    case None => if income.employeeId != "" then EmployeeName(roster, income.employeeId) else "—"
  }

  /** The payouts column: the coerced entry sum, the legacy `Number(employeePayouts || 0)`, or 0. */
  function RowPayouts(income: Income): (r: Number)
    ensures income.employees.Some? ==> r == Fin(FinanceMath.PayoutTotal(income.employees.value))
    ensures income.employees.None? && income.employeeId != "" ==> r == NumberOrZero(income.employeePayouts)
    ensures income.employees.None? && income.employeeId == "" ==> r == Fin(0.0)
  {
    match income.employees
    case Some(entries) => Fin(FinanceMath.PayoutTotal(entries))
    case None => if income.employeeId != "" then NumberOrZero(income.employeePayouts) else Fin(0.0)
  }

  /** `incomesTableData`' row for one income. */
  function IncomeRowOf(income: Income, clients: seq<Client>, roster: seq<Employee>): IncomeRow
  {
    IncomeRow(income.id, income.date, ClientName(clients, income.clientId), OrDash(income.title),
              EmployeeNames(income, roster),
              NumberOrZero(income.amount), NumberOrZero(income.taxPercent), NumberOrZero(income.taxAmount),
              NumberOrZero(income.npAmount), NumberOrZero(income.internalCosts), RowPayouts(income),
              NumberOrZero(income.profit), OrDash(income.comment))
  }

  /** `incomesTableData`. */
  function IncomesTable(filtered: seq<Income>, clients: seq<Client>, roster: seq<Employee>): (r: seq<IncomeRow>)
    ensures |r| == |filtered|
    ensures forall k :: 0 <= k < |r| ==> r[k] == IncomeRowOf(filtered[k], clients, roster)
  {
    seq(|filtered|, k requires 0 <= k < |filtered| => IncomeRowOf(filtered[k], clients, roster))
  }

  /**
   * Wherever the row shows a number, it is the payout the profit formula subtracts,
   * except for a record with neither an array nor an employee, which shows 0.
   */
  lemma {:induction false} RowPayoutsMatchProfit(income: Income)
    ensures RowPayouts(income).Fin? && (income.employees.Some? || income.employeeId != "") ==>
              RowPayouts(income).r == FinanceMath.EmployeePayouts(income)
    ensures RowPayouts(income).NaN? <==>
              income.employees.None? && income.employeeId != "" && Truthy(income.employeePayouts) && ToNumber(income.employeePayouts).NaN?
  {
    NumberOrZeroAgrees(income.employeePayouts);
  }

  // ---------------------------------------------------------------- expense table

  /** One row of the expenses table: `kind` is "variable" or "fixed". */
  datatype ExpenseRow = ExpenseRow(id: string, date: string, title: string, category: string, amount: Number, comment: string, kind: string)

  function CategoryName(categories: seq<ExpenseCategory>, id: string): string
  {
    match FindCategory(categories, id)
    case Some(c) => OrDash(c.name)
    case None => "—"
  }

  function VariableRowOf(e: VariableExpense, categories: seq<ExpenseCategory>): ExpenseRow
  {
    ExpenseRow(e.id, e.date, OrDash(e.title), CategoryName(categories, e.categoryId), NumberOrZero(e.amount), OrDash(e.comment), "variable")
  }

  function FixedRowOf(e: FixedExpense): ExpenseRow
  {
    ExpenseRow(e.id, "Постоянный", OrDash(e.name), "Постоянный расход", NumberOrZero(e.amount), OrDash(OrEmpty(e.period)), "fixed")
  }

  /**
   * `expensesTableData`: the in-range variable expenses in order, then every fixed
   * expense, tagged by kind.
   */
  function ExpensesTable(variable: seq<VariableExpense>, fixed: seq<FixedExpense>, categories: seq<ExpenseCategory>): (r: seq<ExpenseRow>)
    ensures |r| == |variable| + |fixed|
    ensures forall k :: 0 <= k < |variable| ==> r[k] == VariableRowOf(variable[k], categories) && r[k].kind == "variable"
    ensures forall k :: 0 <= k < |fixed| ==> r[|variable| + k] == FixedRowOf(fixed[k]) && r[|variable| + k].kind == "fixed"
  {
    seq(|variable|, k requires 0 <= k < |variable| => VariableRowOf(variable[k], categories))
    + seq(|fixed|, k requires 0 <= k < |fixed| => FixedRowOf(fixed[k]))
  }

  // ---------------------------------------------------------------- totals

  /** `reduce((sum, x) => sum + Number(x.f || 0), 0)`: NaN in any term makes the sum NaN. */
  function NumberSum<T>(items: seq<T>, selector: T -> Value): Number
  {
    if items == [] then Fin(0.0)
    else Js.Add(NumberSum(items[..|items| - 1], selector), NumberOrZero(selector(items[|items| - 1])))
  }

  /**
   * `totalIncome`: NaN exactly when some amount is truthy but not numeric; otherwise the
   * same figure as `sumBy` over the amounts.
   */
  function TotalIncome(filtered: seq<Income>): (r: Number)
    ensures r.NaN? <==> HasNaNTerm(filtered, FinanceMath.IncomeAmountOf)
    ensures r.Fin? ==> r.r == FinanceMath.SumBy(filtered, FinanceMath.IncomeAmountOf)
  {
    NumberSumSpec(filtered, FinanceMath.IncomeAmountOf);
    NumberSum(filtered, FinanceMath.IncomeAmountOf)
  }

  /** `totalProfit`: NaN exactly when some profit is truthy but not numeric; otherwise `sumBy`. */
  function TotalProfit(filtered: seq<Income>): (r: Number)
    ensures r.NaN? <==> HasNaNTerm(filtered, FinanceMath.IncomeProfitOf)
    ensures r.Fin? ==> r.r == FinanceMath.SumBy(filtered, FinanceMath.IncomeProfitOf)
  {
    NumberSumSpec(filtered, FinanceMath.IncomeProfitOf);
    NumberSum(filtered, FinanceMath.IncomeProfitOf)
  }

  /** Some item's value is truthy yet not numeric, so `Number(x || 0)` is NaN for it. */
  predicate HasNaNTerm<T>(items: seq<T>, selector: T -> Value)
  {
    exists k :: 0 <= k < |items| && NaNTerm(selector(items[k]))
  }

  /** `Number(v || 0)` is NaN: the value is truthy yet not numeric. */
  predicate NaNTerm(v: Value)
  {
    Truthy(v) && ToNumber(v).NaN?
  }

  lemma {:induction false} HasNaNTermSnoc<T>(items: seq<T>, selector: T -> Value)
    requires items != []
    ensures HasNaNTerm(items, selector) <==>
              HasNaNTerm(items[..|items| - 1], selector)
              || NaNTerm(selector(items[|items| - 1]))
  {
    var prefix := items[..|items| - 1];
    if HasNaNTerm(prefix, selector) {
      var k :| 0 <= k < |prefix| && NaNTerm(selector(prefix[k]));
      assert items[k] == prefix[k];
      assert 0 <= k < |items| && NaNTerm(selector(items[k]));
    }
    if NaNTerm(selector(items[|items| - 1])) {
      assert 0 <= |items| - 1 < |items|;
    }
    if HasNaNTerm(items, selector) {
      var k :| 0 <= k < |items| && NaNTerm(selector(items[k]));
      if k < |prefix| {
        assert prefix[k] == items[k];
        assert 0 <= k < |prefix| && NaNTerm(selector(prefix[k]));
      }
    }
  }

  /**
   * The un-collapsed sum is NaN exactly when some item has a non-empty, non-numeric
   * value; otherwise it is the `sumBy` sum that collapses NaN to 0.
   */
  lemma {:induction false} NumberSumSpec<T>(items: seq<T>, selector: T -> Value)
    ensures NumberSum(items, selector).NaN? <==> HasNaNTerm(items, selector)
    ensures NumberSum(items, selector).Fin? ==> NumberSum(items, selector).r == FinanceMath.SumBy(items, selector)
    decreases |items|
  {
    if items != [] {
      NumberSumSpec(items[..|items| - 1], selector);
      NumberOrZeroAgrees(selector(items[|items| - 1]));
      HasNaNTermSnoc(items, selector);
    }
  }

  /** `Number(e.amount || 0)` on a row's already converted amount: NaN becomes 0. */
  function RowAmount(row: ExpenseRow): real
  {
    match row.amount
    case NaN => 0.0
    case Fin(r) => r
  }

  /**
   * `totalExpenses` (and the export's expense total): never NaN, since `Number(x || 0)`
   * turns a NaN row amount into 0, so rows whose amounts are all NaN total 0.
   */
  function ExpenseTotal(rows: seq<ExpenseRow>): (r: real)
  {
    if rows == [] then 0.0 else ExpenseTotal(rows[..|rows| - 1]) + RowAmount(rows[|rows| - 1])
  }

  lemma {:induction false} ExpenseTotalConcat(a: seq<ExpenseRow>, b: seq<ExpenseRow>)
    ensures ExpenseTotal(a + b) == ExpenseTotal(a) + ExpenseTotal(b)
    decreases |b|
  {
    if b == [] {
      assert a + b == a;
    } else {
      assert (a + b)[..|a + b| - 1] == a + b[..|b| - 1];
      ExpenseTotalConcat(a, b[..|b| - 1]);
    }
  }

  /** Coercing `Number(x || 0)` and then `Number(y || 0)` again is the same as `Number(x) || 0`. */
  lemma {:induction false} CoercedTwice(v: Value)
    ensures (match NumberOrZero(v) case NaN => 0.0 case Fin(r) => r) == OrZero(v)
  {
    NumberOrZeroAgrees(v);
  }

  lemma {:induction false} VariableRowsTotal(variable: seq<VariableExpense>, categories: seq<ExpenseCategory>)
    ensures ExpenseTotal(seq(|variable|, k requires 0 <= k < |variable| => VariableRowOf(variable[k], categories)))
            == FinanceMath.SumBy(variable, FinanceMath.VariableAmountOf)
    decreases |variable|
  {
    if variable != [] {
      var prefix := variable[..|variable| - 1];
      var rows := seq(|variable|, k requires 0 <= k < |variable| => VariableRowOf(variable[k], categories));
      assert rows[..|rows| - 1] == seq(|prefix|, k requires 0 <= k < |prefix| => VariableRowOf(prefix[k], categories));
      VariableRowsTotal(prefix, categories);
      CoercedTwice(variable[|variable| - 1].amount);
    }
  }

  lemma {:induction false} FixedRowsTotal(fixed: seq<FixedExpense>)
    ensures ExpenseTotal(seq(|fixed|, k requires 0 <= k < |fixed| => FixedRowOf(fixed[k])))
            == FinanceMath.SumBy(fixed, FinanceMath.FixedAmountOf)
    decreases |fixed|
  {
    if fixed != [] {
      var prefix := fixed[..|fixed| - 1];
      var rows := seq(|fixed|, k requires 0 <= k < |fixed| => FixedRowOf(fixed[k]));
      assert rows[..|rows| - 1] == seq(|prefix|, k requires 0 <= k < |prefix| => FixedRowOf(prefix[k]));
      FixedRowsTotal(prefix);
      CoercedTwice(fixed[|fixed| - 1].amount);
    }
  }

  /**
   * `totalExpenses` sums both kinds, and it equals the `sumBy` totals of the in-range
   * variable expenses plus all fixed expenses: a non-numeric amount counts 0 in both.
   */
  lemma {:induction false} ExpenseTotalSplits(variable: seq<VariableExpense>, fixed: seq<FixedExpense>, categories: seq<ExpenseCategory>)
    ensures ExpenseTotal(ExpensesTable(variable, fixed, categories))
            == FinanceMath.SumBy(variable, FinanceMath.VariableAmountOf) + FinanceMath.SumBy(fixed, FinanceMath.FixedAmountOf)
  {
    var vr := seq(|variable|, k requires 0 <= k < |variable| => VariableRowOf(variable[k], categories));
    var fr := seq(|fixed|, k requires 0 <= k < |fixed| => FixedRowOf(fixed[k]));
    assert ExpensesTable(variable, fixed, categories) == vr + fr;
    ExpenseTotalConcat(vr, fr);
    VariableRowsTotal(variable, categories);
    FixedRowsTotal(fixed);
  }

  // ---------------------------------------------------------------- export

  /** A spreadsheet cell of a numeric column: a number, or the empty string of the total row. */
  datatype Cell = Figure(n: Number) | Blank

  /** A row of the "Доходы" sheet, its columns in order. */
  datatype IncomeSheetRow = IncomeSheetRow(
    date: string,
    client: string,
    title: string,
    employees: string,
    amount: Number,
    taxPercent: Cell,
    taxAmount: Cell,
    npAmount: Cell,
    internalCosts: Cell,
    employeePayouts: Cell,
    profit: Number,
    comment: string)

  /** A row of the "Расходы" sheet. */
  datatype ExpenseSheetRow = ExpenseSheetRow(date: string, title: string, category: string, amount: Number, comment: string)

  /** What the export writes: two sheets and the file name. */
  datatype Workbook = Workbook(incomes: seq<IncomeSheetRow>, expenses: seq<ExpenseSheetRow>, fileName: string)

  function IncomeSheetRowOf(row: IncomeRow): IncomeSheetRow
  {
    IncomeSheetRow(row.date, row.client, row.title, row.employees, row.amount, Figure(row.taxPercent),
                   Figure(row.taxAmount), Figure(row.npAmount), Figure(row.internalCosts),
                   Figure(row.employeePayouts), row.profit, row.comment)
  }

  function ExpenseSheetRowOf(row: ExpenseRow): ExpenseSheetRow
  {
    ExpenseSheetRow(row.date, row.title, row.category, row.amount, row.comment)
  }

  /** The incomes sheet's closing row. */
  function IncomeTotalRow(filtered: seq<Income>): IncomeSheetRow
  {
    IncomeSheetRow("ИТОГО", "", "", "", TotalIncome(filtered), Blank, Blank, Blank, Blank, Blank,
                   TotalProfit(filtered), "")
  }

  const NoPeriodMessage := "Укажите период для отчета"
  const NoClientMessage := "Выберите хотя бы одного клиента"
  const NoEmployeeMessage := "Выберите хотя бы одного исполнителя"

  /**
   * The "Доходы" sheet: one row per filtered income, as the table shows it, then the
   * ИТОГО row carrying the amount and profit totals.
   */
  function IncomeSheet(filtered: seq<Income>, clients: seq<Client>, roster: seq<Employee>): (sheet: seq<IncomeSheetRow>)
    ensures |sheet| == |filtered| + 1
    ensures forall k :: 0 <= k < |filtered| ==> sheet[k] == IncomeSheetRowOf(IncomeRowOf(filtered[k], clients, roster))
    ensures sheet[|filtered|] == IncomeTotalRow(filtered)
  {
    var rows := IncomesTable(filtered, clients, roster);
    seq(|rows|, k requires 0 <= k < |rows| => IncomeSheetRowOf(rows[k])) + [IncomeTotalRow(filtered)]
  }

  /** The expenses sheet's closing row. */
  function ExpenseTotalRow(rows: seq<ExpenseRow>): ExpenseSheetRow
  {
    ExpenseSheetRow("ИТОГО", "", "", Fin(ExpenseTotal(rows)), "")
  }

  /** The "Расходы" sheet: the variable rows in order, the fixed rows in order, then the ИТОГО row. */
  function ExpenseSheet(inRange: seq<VariableExpense>, fixed: seq<FixedExpense>, categories: seq<ExpenseCategory>): (sheet: seq<ExpenseSheetRow>)
    ensures |sheet| == |inRange| + |fixed| + 1
    ensures forall k :: 0 <= k < |inRange| ==> sheet[k] == ExpenseSheetRowOf(VariableRowOf(inRange[k], categories))
    ensures forall k :: 0 <= k < |fixed| ==> sheet[|inRange| + k] == ExpenseSheetRowOf(FixedRowOf(fixed[k]))
    ensures sheet[|inRange| + |fixed|] == ExpenseTotalRow(ExpensesTable(inRange, fixed, categories))
  {
    var rows := ExpensesTable(inRange, fixed, categories);
    seq(|rows|, k requires 0 <= k < |rows| => ExpenseSheetRowOf(rows[k])) + [ExpenseTotalRow(rows)]
  }

  /**
   * `generateExcel`: refused, with the matching message, exactly when a date is missing or
   * a client or employee report has an empty selection; otherwise the incomes sheet of the
   * report's incomes and the expenses sheet of the in-window and fixed expenses.
   */
  method GenerateExcel(p: ReportParams, incomes: seq<Income>, variable: seq<VariableExpense>, fixed: seq<FixedExpense>,
                       clients: seq<Client>, roster: seq<Employee>, categories: seq<ExpenseCategory>)
    returns (r: Outcome<Workbook>)
    ensures r.Err? <==> (|| p.dateFrom == "" || p.dateTo == ""
                         || (p.reportType == ByClient && p.selectedClients == [])
                         || (p.reportType == ByEmployee && p.selectedEmployees == []))
    ensures p.dateFrom == "" || p.dateTo == "" ==> r == Err(NoPeriodMessage)
    ensures p.dateFrom != "" && p.dateTo != "" && p.reportType == ByClient && p.selectedClients == [] ==> r == Err(NoClientMessage)
    ensures p.dateFrom != "" && p.dateTo != "" && p.reportType == ByEmployee && p.selectedEmployees == [] ==> r == Err(NoEmployeeMessage)
    ensures r.Ok? ==> && r.value.incomes == IncomeSheet(ReportIncomes(incomes, p), clients, roster)
                      && r.value.expenses == ExpenseSheet(FilteredVariableExpenses(variable, p), fixed, categories)
                      && r.value.fileName == "Отчет_" + p.dateFrom + "_" + p.dateTo + ".xlsx"
  {
    if p.dateFrom == "" || p.dateTo == "" {
      return Err(NoPeriodMessage);
    }
    if p.reportType == ByClient && |p.selectedClients| == 0 {
      return Err(NoClientMessage);
    }
    if p.reportType == ByEmployee && |p.selectedEmployees| == 0 {
      return Err(NoEmployeeMessage);
    }
    var filtered := FilteredIncomes(incomes, p);
    var rows := IncomesTable(filtered, clients, roster);
    var incomesData := seq(|rows|, k requires 0 <= k < |rows| => IncomeSheetRowOf(rows[k]));
    incomesData := incomesData + [IncomeTotalRow(filtered)];
    var expenseRows := ExpensesTable(FilteredVariableExpenses(variable, p), fixed, categories);
    var allExpenses := seq(|expenseRows|, k requires 0 <= k < |expenseRows| => ExpenseSheetRowOf(expenseRows[k]));
    allExpenses := allExpenses + [ExpenseTotalRow(expenseRows)];
    r := Ok(Workbook(incomesData, allExpenses, "Отчет_" + p.dateFrom + "_" + p.dateTo + ".xlsx"));
  }

  /**
   * The expenses sheet's ИТОГО row carries the `sumBy` total of the in-range variable
   * expenses plus that of every fixed expense.
   */
  lemma {:induction false} ExpenseSheetSpec(inRange: seq<VariableExpense>, fixed: seq<FixedExpense>, categories: seq<ExpenseCategory>)
    ensures ExpenseSheet(inRange, fixed, categories)[|inRange| + |fixed|]
            == ExpenseSheetRow("ИТОГО", "", "", Fin(FinanceMath.SumBy(inRange, FinanceMath.VariableAmountOf)
                                                   + FinanceMath.SumBy(fixed, FinanceMath.FixedAmountOf)), "")
  {
    ExpenseTotalSplits(inRange, fixed, categories);
  }

  /** The page's report parameters. */
  class ReportsPage {
    var params: ReportParams

    constructor ()
      ensures params == ReportParams(General, "", "", [], [])
    {
      params := ReportParams(General, "", "", [], []);
    }

    /** `handleClearFilters`: the period and both selections are cleared; the report type stays. */
    method ClearFilters()
      modifies this
      ensures params == ReportParams(old(params).reportType, "", "", [], [])
    {
      params := ReportParams(params.reportType, "", "", [], []);
    }
  }
}
