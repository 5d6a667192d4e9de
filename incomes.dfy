/**
 * The income record engine of the incomes page (src/routes/IncomesPage.jsx):
 * read-side migration, the list filter, the form reducer that keeps payouts in step
 * with the amount and the roster, the payout-type switch and submit-time payload assembly.
 */
module Incomes {
  import opened Wrappers
  import opened Js
  import opened Records
  import Seqs
  import Text
  import Dates
  import FinanceMath

  // ---------------------------------------------------------------- migration

  /** The one entry a legacy single-employee record becomes. */
  function LegacyEntry(income: Income): Payout
  {
    Payout(income.employeeId,
           if income.employeePayoutType != "" then income.employeePayoutType else "percent",
           if Truthy(income.employeePayouts) then income.employeePayouts else FromReal(0.0))
  }

  /** `migratedIncomes`' per-record step: normalise to an `employees` array. */
  function Migrate(income: Income): (r: Income)
    ensures r.employees.Some?
  {
    if income.employees.Some? then income
    else if income.employeeId != "" then income.(employees := Some([LegacyEntry(income)]))
    else income.(employees := Some([]))
  }

  /** `state.incomes.map(migrate)`. */
  function MigrateAll(incomes: seq<Income>): (r: seq<Income>)
    ensures |r| == |incomes|
    ensures forall i :: 0 <= i < |incomes| ==> r[i] == Migrate(incomes[i])
  {
    seq(|incomes|, i requires 0 <= i < |incomes| => Migrate(incomes[i]))
  }

  /** A record that already has an array is returned as is, so migration is idempotent. */
  lemma {:induction false} MigrateIdempotent(income: Income)
    ensures Migrate(Migrate(income)) == Migrate(income)
    ensures income.employees.Some? ==> Migrate(income) == income
  {
  }

  /**
   * A legacy record becomes a one-entry array and keeps every other field; the entry's
   * type defaults to "percent" and its payout to 0. A record with neither shape gets [].
   */
  lemma {:induction false} MigrateLegacy(income: Income)
    requires income.employees.None?
    ensures income.employeeId != "" ==>
              Migrate(income) == income.(employees := Some([Payout(income.employeeId,
                 if income.employeePayoutType == "" then "percent" else income.employeePayoutType,
                 if Truthy(income.employeePayouts) then income.employeePayouts else Num(Fin(0.0)))]))
    ensures income.employeeId == "" ==> Migrate(income) == income.(employees := Some([]))
  {
  }

  /** The legacy example: e1 with a fixed payout of 500 keeps both after migration. */
  lemma {:induction false} MigrateFixedLegacyExample(income: Income)
    requires income.employees.None? && income.employeeId == "e1"
    requires income.employeePayoutType == "fixed" && income.employeePayouts == Num(Fin(500.0))
    ensures Migrate(income).employees == Some([Payout("e1", "fixed", Num(Fin(500.0)))])
  {
  }

  /**
   * Migration does not change the profit the record computes to, unless the record
   * has a legacy payout but no employee to carry it (then the payout is dropped).
   */
  lemma {:induction false} MigratePreservesProfit(income: Income)
    ensures income.employees.Some? || income.employeeId != "" || OrZero(income.employeePayouts) == 0.0
            <==> FinanceMath.CalculateProfit(Migrate(income)) == FinanceMath.CalculateProfit(income)
  {
    if income.employees.None? && income.employeeId != "" {
      FinanceMath.SumBySingle(LegacyEntry(income), FinanceMath.PayoutAmountOf);
    }
  }

  // ---------------------------------------------------------------- list filter

  /** The filter panel of the incomes page; "" means the filter is not set. */
  datatype IncomeFilters = IncomeFilters(from: string, to: string, clientId: string, employeeId: string, query: string)

  const NoFilters := IncomeFilters("", "", "", "", "")

  /** `income.employees?.some((emp) => emp.employeeId === id)`. */
  predicate HasEmployee(income: Income, id: string)
  {
    income.employees.Some? && Seqs.Any(income.employees.value, (p: Payout) => p.employeeId == id)
  }

  /** The early-return chain of the `filtered` callback. */
  function Keep(income: Income, f: IncomeFilters): (r: bool)
    ensures r <==> && Dates.IsWithinRange(income.date, f.from, f.to)
                   && (f.clientId != "" ==> income.clientId == f.clientId)
                   && (f.employeeId != "" ==> exists p :: p in income.employees.GetOr([]) && p.employeeId == f.employeeId)
                   && (f.query != "" ==> Text.Includes(Text.ToLower(income.title), Text.ToLower(f.query)))
  {
    if !Dates.IsWithinRange(income.date, f.from, f.to) then false
    else if f.clientId != "" && income.clientId != f.clientId then false
    else if f.employeeId != "" && !HasEmployee(income, f.employeeId) then false
    else if f.query != "" && !Text.Includes(Text.ToLower(income.title), Text.ToLower(f.query)) then false
    else true
  }

  /** `filtered`: the migrated incomes that pass every set filter, in stored order. */
  function FilterIncomes(incomes: seq<Income>, f: IncomeFilters): (r: seq<Income>)
    ensures forall x :: x in r <==> x in incomes && Keep(x, f)
  {
    Seqs.Filter(incomes, (x: Income) => Keep(x, f))
  }

  /** With no filter set, exactly the records with a parseable date are listed. */
  lemma {:induction false} NoFiltersKeepsDated(incomes: seq<Income>)
    ensures forall x :: x in FilterIncomes(incomes, NoFilters) <==> x in incomes && Dates.ParseDate(x.date).Some?
  {
  }

  // ---------------------------------------------------------------- form state

  /**
   * The income form. `employees` holds the selected employee ids; `employeeData` the
   * per-employee payout entries (absent until the form creates it). The remaining
   * fields are the record's own, carried over by the object spreads.
   */
  datatype IncomeForm = IncomeForm(
    id: string,
    date: string,
    title: string,
    clientId: string,
    employees: seq<string>,
    employeeData: Option<seq<Payout>>,
    amount: Value,
    taxPercent: Value,
    taxAmount: Value,
    npAmount: Value,
    internalCosts: Value,
    comment: string,
    legacyEmployeeId: string,
    legacyPayoutType: string,
    legacyPayouts: Value,
    profit: Value)

  /** `emptyIncome`. */
  const EmptyForm := IncomeForm("", "", "", "", [], None, Str(""), Str(""), Str(""), Str(""), Str(""), "", "", "", Undef, Undef)

  /** `amount × percent / 100`, the payout of a percent-type entry. */
  function PercentShare(amount: Value, employee: Employee): Value
  {
    Num(Div(Mul(ToNumber(amount), NumberOrZero(employee.percent)), 100.0))
  }

  /** The entry created for a newly selected employee: percent type, payout from the current amount. */
  function NewEntry(roster: seq<Employee>, amount: Value, id: string): (r: Payout)
    ensures r.employeeId == id && r.payoutType == "percent"
    ensures FindEmployee(roster, id).None? || !Truthy(amount) ==> r.payoutAmount == Num(Fin(0.0))
    ensures FindEmployee(roster, id).Some? && Truthy(amount) ==>
              r.payoutAmount == PercentShare(amount, FindEmployee(roster, id).value)
  {
    var payout := match FindEmployee(roster, id)
      case Some(employee) => if Truthy(amount) then PercentShare(amount, employee) else FromReal(0.0)
      case None => FromReal(0.0);
    Payout(id, "percent", payout)
  }

  /** `employeeData?.find((ed) => ed.employeeId === id)`. */
  function FindEntry(data: Option<seq<Payout>>, id: string): (r: Option<Payout>)
    ensures r.Some? ==> r.value.employeeId == id && data.Some? && r.value in data.value
    ensures r.None? <==> data.None? || forall p :: p in data.value ==> p.employeeId != id
  {
    match data
    case None => None
    case Some(entries) => Seqs.Find(entries, (p: Payout) => p.employeeId == id)
  }

  /**
   * An existing entry on rebuild: a percent entry's payout is recomputed when the amount
   * and the employee's percent are both truthy; anything else is kept as it was.
   */
  function Refresh(entry: Payout, roster: seq<Employee>, amount: Value): Payout
  {
    if entry.payoutType == "percent" && Truthy(amount) then
      match FindEmployee(roster, entry.employeeId)
      case Some(employee) =>
        if Truthy(employee.percent) then entry.(payoutAmount := PercentShare(amount, employee)) else entry
      case None => entry
    else entry
  }

  /** The entry for `id` when `employeeData` is rebuilt. */
  function RebuildEntry(data: Option<seq<Payout>>, roster: seq<Employee>, amount: Value, id: string): Payout
  {
    match FindEntry(data, id)
    case Some(existing) => Refresh(existing, roster, amount)
    case None => NewEntry(roster, amount, id)
  }

  /** `next.employees.map(...)`: one entry per selected id, in selection order. */
  function RebuildEmployeeData(ids: seq<string>, data: Option<seq<Payout>>, roster: seq<Employee>, amount: Value): (r: seq<Payout>)
    ensures |r| == |ids|
    ensures forall i :: 0 <= i < |ids| ==> r[i].employeeId == ids[i]
  {
    seq(|ids|, i requires 0 <= i < |ids| => RebuildEntry(data, roster, amount, ids[i]))
  }

  /** A change of one form field, with the value the input produced. */
  datatype FieldChange =
    | SetDate(date: string)
    | SetTitle(title: string)
    | SetClient(clientId: string)
    | SetComment(comment: string)
    | SetEmployees(ids: seq<string>)
    | SetAmount(amount: Value)
    | SetTaxPercent(taxPercent: Value)
    | SetTaxAmount(taxAmount: Value)
    | SetNpAmount(npAmount: Value)
    | SetInternalCosts(internalCosts: Value)

  /** `{ ...form, [key]: value }`. */
  function Assign(form: IncomeForm, change: FieldChange): (r: IncomeForm)
    ensures r.employeeData == form.employeeData
    ensures r.taxAmount == if change.SetTaxAmount? then change.taxAmount else form.taxAmount
    ensures r.employees == if change.SetEmployees? then change.ids else form.employees
  {
    match change
    case SetDate(v) => form.(date := v)
    case SetTitle(v) => form.(title := v)
    case SetClient(v) => form.(clientId := v)
    case SetComment(v) => form.(comment := v)
    case SetEmployees(v) => form.(employees := v)
    case SetAmount(v) => form.(amount := v)
    case SetTaxPercent(v) => form.(taxPercent := v)
    case SetTaxAmount(v) => form.(taxAmount := v)
    case SetNpAmount(v) => form.(npAmount := v)
    case SetInternalCosts(v) => form.(internalCosts := v)
  }

  /** `amount × taxPercent / 100`. */
  function TaxFrom(amount: Value, taxPercent: Value): Value
  {
    Num(Div(Mul(ToNumber(amount), ToNumber(taxPercent)), 100.0))
  }

  /**
   * `handleChangeField(key, value)`: the next form state. Besides the changed field only
   * the tax amount and the payout entries can move. The tax amount follows
   * `amount × taxPercent / 100` after a change of either operand when both are non-empty,
   * and otherwise keeps its value. The entries are rebuilt, one per selected id in
   * selection order, exactly when the amount or the selection changes.
   */
  function ChangeField(form: IncomeForm, change: FieldChange, roster: seq<Employee>): (r: IncomeForm)
    ensures r == Assign(form, change).(taxAmount := r.taxAmount, employeeData := r.employeeData)
    ensures change.SetTaxAmount? ==> r.taxAmount == change.taxAmount
    ensures !change.SetTaxAmount? ==>
              if (change.SetAmount? || change.SetTaxPercent?) && Truthy(r.amount) && Truthy(r.taxPercent)
              then r.taxAmount == TaxFrom(r.amount, r.taxPercent)
              else r.taxAmount == form.taxAmount
    ensures change.SetAmount? || change.SetEmployees? ==>
              && r.employeeData.Some?
              && |r.employeeData.value| == |r.employees|
              && forall i :: 0 <= i < |r.employees| ==> r.employeeData.value[i].employeeId == r.employees[i]
    ensures !change.SetAmount? && !change.SetEmployees? ==>
              r.employeeData == form.employeeData && r.employees == form.employees
  {
    var next := Assign(form, change);
    var taxed :=
      if (change.SetAmount? || change.SetTaxPercent?) && Truthy(next.amount) && Truthy(next.taxPercent)
      then next.(taxAmount := TaxFrom(next.amount, next.taxPercent))
      else next;
    if change.SetAmount? || change.SetEmployees? then
      taxed.(employeeData := Some(RebuildEmployeeData(taxed.employees, taxed.employeeData, roster, taxed.amount)))
    else taxed
  }

  /**
   * Changing the amount or the roster rebuilds `employeeData` in the order of the
   * selected ids: a fixed (non-percent) entry is reused unchanged, a percent entry is
   * recomputed only when the amount and the employee's percent are truthy, and an
   * unseen id gets a fresh percent entry.
   */
  lemma {:induction false} RebuildEntries(form: IncomeForm, change: FieldChange, roster: seq<Employee>, i: int)
    requires change.SetAmount? || change.SetEmployees?
    requires 0 <= i < |ChangeField(form, change, roster).employees|
    ensures var next := ChangeField(form, change, roster);
            var id := next.employees[i];
            && next.employeeData.Some?
            && |next.employeeData.value| == |next.employees|
            && next.employeeData.value[i].employeeId == id
            && match FindEntry(form.employeeData, id)
               case None => next.employeeData.value[i] == NewEntry(roster, next.amount, id)
               case Some(prev) =>
                 if prev.payoutType == "percent" && Truthy(next.amount)
                    && FindEmployee(roster, id).Some? && Truthy(FindEmployee(roster, id).value.percent)
                 then next.employeeData.value[i] == prev.(payoutAmount := PercentShare(next.amount, FindEmployee(roster, id).value))
                 else next.employeeData.value[i] == prev
  {
  }

  /**
   * The worked example: raising the amount from 1000 to 2000 moves a 10 % employee's
   * payout from 100 to 200 and leaves a fixed employee's payout as it was.
   */
  lemma {:induction false} AmountChangeExample(form: IncomeForm, alice: Employee, bob: Employee, fixedPay: Value)
    requires alice.id == "a" && alice.percent == Num(Fin(10.0))
    requires bob.id == "b"
    requires form.employees == ["a", "b"]
    requires form.amount == Num(Fin(1000.0))
    requires form.employeeData == Some([Payout("a", "percent", Num(Fin(100.0))), Payout("b", "fixed", fixedPay)])
    ensures ChangeField(form, SetAmount(Num(Fin(2000.0))), [alice, bob]).employeeData
            == Some([Payout("a", "percent", Num(Fin(200.0))), Payout("b", "fixed", fixedPay)])
  {
    AmountChangeRebuild(form.employeeData.value, alice, bob, fixedPay);
  }

  /** The entries of the worked example, rebuilt for the amount 2000. */
  lemma {:induction false} AmountChangeRebuild(entries: seq<Payout>, alice: Employee, bob: Employee, fixedPay: Value)
    requires alice.id == "a" && alice.percent == Num(Fin(10.0))
    requires bob.id == "b"
    requires entries == [Payout("a", "percent", Num(Fin(100.0))), Payout("b", "fixed", fixedPay)]
    ensures RebuildEmployeeData(["a", "b"], Some(entries), [alice, bob], Num(Fin(2000.0)))
            == [Payout("a", "percent", Num(Fin(200.0))), Payout("b", "fixed", fixedPay)]
  {
    var roster := [alice, bob];
    var amount := Num(Fin(2000.0));
    var entryA := Payout("a", "percent", Num(Fin(100.0)));
    var entryB := Payout("b", "fixed", fixedPay);
    assert FindEntry(Some(entries), "a") == Some(entryA);
    assert FindEntry(Some(entries), "b") == Some(entryB);
    assert RebuildEntry(Some(entries), roster, amount, "a") == Payout("a", "percent", Num(Fin(200.0))) by {
      PercentRefreshExample(entryA, alice, bob);
    }
    assert RebuildEntry(Some(entries), roster, amount, "b") == entryB;
  }

  /** A 10 % employee's percent entry is refreshed to 200 for an amount of 2000. */
  lemma {:induction false} PercentRefreshExample(entry: Payout, alice: Employee, bob: Employee)
    requires alice.id == "a" && alice.percent == Num(Fin(10.0))
    requires entry.employeeId == "a" && entry.payoutType == "percent"
    ensures Refresh(entry, [alice, bob], Num(Fin(2000.0))) == entry.(payoutAmount := Num(Fin(200.0)))
  {
    assert FindEmployee([alice, bob], "a") == Some(alice);
    assert NumberOrZero(alice.percent) == Fin(10.0);
    assert PercentShare(Num(Fin(2000.0)), alice) == Num(Fin(200.0)) by {
      assert Mul(Fin(2000.0), Fin(10.0)) == Fin(20000.0);
    }
  }

  // ---------------------------------------------------------------- payout-type switch

  /** An edit of one entry's field. */
  datatype EntryChange = SetPayoutType(payoutType: string) | SetPayoutAmount(payoutAmount: Value)

  /** The entry after `{ ...entry, [field]: value }` and the payout-type recomputation. */
  function ChangedEntry(entry: Payout, change: EntryChange, roster: seq<Employee>, amount: Value): Payout
  {
    match change
    case SetPayoutAmount(v) => entry.(payoutAmount := v)
    case SetPayoutType(t) =>
      var typed := entry.(payoutType := t);
      if t == "percent" && FindEmployee(roster, entry.employeeId).Some? && Truthy(amount) then
        typed.(payoutAmount := PercentShare(amount, FindEmployee(roster, entry.employeeId).value))
      else if t == "fixed" then typed.(payoutAmount := FromReal(0.0))
      else typed
  }

  /**
   * `handleEmployeeDataChange(employeeId, field, value)`: the next form state. Only the
   * entries change; they are always present afterwards, as many as before and for the
   * same employees in the same order.
   */
  function ChangeEntry(form: IncomeForm, employeeId: string, change: EntryChange, roster: seq<Employee>): (r: IncomeForm)
    ensures r == form.(employeeData := r.employeeData)
    ensures r.employeeData.Some? && |r.employeeData.value| == |form.employeeData.GetOr([])|
    ensures forall j :: 0 <= j < |r.employeeData.value| ==>
              r.employeeData.value[j].employeeId == form.employeeData.GetOr([])[j].employeeId
  {
    var data := form.employeeData.GetOr([]);
    var k := Seqs.FindIndex(data, (p: Payout) => p.employeeId == employeeId);
    if k < 0 then form.(employeeData := Some(data))
    else form.(employeeData := Some(data[k := ChangedEntry(data[k], change, roster, form.amount)]))
  }

  /**
   * Only the first entry with that employee id changes: to "fixed" its payout becomes 0,
   * to "percent" it is recomputed when there is an amount and a known employee, any other
   * type change keeps the payout, and a directly edited payout is stored as given. An unknown id changes no entry.
   */
  lemma {:induction false} ChangeEntrySpec(form: IncomeForm, employeeId: string, change: EntryChange, roster: seq<Employee>)
    ensures var data := form.employeeData.GetOr([]);
            var next := ChangeEntry(form, employeeId, change, roster);
            && next.employeeData.Some?
            && |next.employeeData.value| == |data|
            && next == form.(employeeData := next.employeeData)
            && ((forall p :: p in data ==> p.employeeId != employeeId) ==> next.employeeData.value == data)
            && forall j :: 0 <= j < |data| ==>
                 var e := next.employeeData.value[j];
                 if data[j].employeeId == employeeId && (forall m :: 0 <= m < j ==> data[m].employeeId != employeeId)
                 then && e.employeeId == employeeId
                      && (change == SetPayoutType("fixed") ==> e == data[j].(payoutType := "fixed", payoutAmount := Num(Fin(0.0))))
                      && (change == SetPayoutType("percent") && Truthy(form.amount) && FindEmployee(roster, employeeId).Some? ==>
                            e == data[j].(payoutType := "percent",
                                          payoutAmount := PercentShare(form.amount, FindEmployee(roster, employeeId).value)))
                      && (change.SetPayoutType? && change.payoutType != "fixed"
                          && !(change.payoutType == "percent" && Truthy(form.amount) && FindEmployee(roster, employeeId).Some?) ==>
                            e == data[j].(payoutType := change.payoutType))
                      && (change.SetPayoutAmount? ==> e == data[j].(payoutAmount := change.payoutAmount))
                 else e == data[j]
  {
    var data := form.employeeData.GetOr([]);
    var k := Seqs.FindIndex(data, (p: Payout) => p.employeeId == employeeId);
    if forall p :: p in data ==> p.employeeId != employeeId {
      forall i | 0 <= i < |data|
        ensures data[i].employeeId != employeeId
      {
        assert data[i] in data;
      }
    }
  }

  // ---------------------------------------------------------------- payout totals

  /** `getEmployeePayoutTotal()`: the sum over the form's `employeeData`, 0 without one. */
  function FormPayoutTotal(form: IncomeForm): real
  {
    match form.employeeData
    case None => 0.0
    case Some(entries) => FinanceMath.PayoutTotal(entries)
  }

  /**
   * Entries that line up with distinct selected ids are exactly the `employees` array
   * that submit builds.
   */
  lemma {:induction false} AlignedEntriesSubmitted(form: IncomeForm, roster: seq<Employee>)
    requires form.employeeData.Some? && |form.employeeData.value| == |form.employees|
    requires forall i :: 0 <= i < |form.employees| ==> form.employeeData.value[i].employeeId == form.employees[i]
    requires forall i, j :: 0 <= i < j < |form.employees| ==> form.employees[i] != form.employees[j]
    ensures SubmitEntries(form, roster) == form.employeeData.value
  {
    var entries := form.employeeData.value;
    var built := SubmitEntries(form, roster);
    forall i | 0 <= i < |entries|
      ensures built[i] == entries[i]
    {
      assert entries[i] in entries;
      var k := Seqs.FindIndex(entries, (p: Payout) => p.employeeId == form.employees[i]);
      assert k == i;
    }
  }

  /**
   * After the amount or the selection changes, with no id selected twice, the payout
   * total the form shows is the payout total the submitted record subtracts.
   */
  lemma {:induction false} ShownPayoutIsSubmitted(form: IncomeForm, change: FieldChange, roster: seq<Employee>)
    requires change.SetAmount? || change.SetEmployees?
    requires var ids := ChangeField(form, change, roster).employees;
             forall i, j :: 0 <= i < j < |ids| ==> ids[i] != ids[j]
    ensures var next := ChangeField(form, change, roster);
            FormPayoutTotal(next) == FinanceMath.PayoutTotal(SubmitEntries(next, roster))
  {
    AlignedEntriesSubmitted(ChangeField(form, change, roster), roster);
  }

  /** `getEmployeePayoutTotalForIncome(income)`: the sum over `employees`, 0 without an array. */
  function IncomePayoutTotal(income: Income): (r: real)
    ensures income.employees.Some? ==> r == FinanceMath.EmployeePayouts(income)
    ensures income.employees.None? ==> r == 0.0
  {
    match income.employees
    case None => 0.0
    case Some(entries) => FinanceMath.PayoutTotal(entries)
  }

  /**
   * On a migrated record the displayed payout total is what the profit formula
   * subtracts; for a legacy record it is its coerced `employeePayouts` when it has an employee.
   */
  lemma {:induction false} PayoutTotalOfMigrated(income: Income)
    ensures IncomePayoutTotal(Migrate(income)) == FinanceMath.EmployeePayouts(Migrate(income))
    ensures income.employees.None? && income.employeeId != "" ==>
              IncomePayoutTotal(Migrate(income)) == OrZero(income.employeePayouts)
  {
    if income.employees.None? && income.employeeId != "" {
      FinanceMath.SumBySingle(LegacyEntry(income), FinanceMath.PayoutAmountOf);
    }
  }

  // ---------------------------------------------------------------- submit and edit

  /** The `employees` array built on submit: the stored entry when there is one, else a fresh percent entry. */
  function SubmitEntries(form: IncomeForm, roster: seq<Employee>): (r: seq<Payout>)
    ensures |r| == |form.employees|
    ensures forall i :: 0 <= i < |r| ==> r[i].employeeId == form.employees[i]
    ensures forall i :: 0 <= i < |r| && FindEntry(form.employeeData, form.employees[i]).Some? ==>
              r[i] == FindEntry(form.employeeData, form.employees[i]).value && r[i] in form.employeeData.value
    ensures forall i :: 0 <= i < |r| && FindEntry(form.employeeData, form.employees[i]).None? ==>
              r[i] == NewEntry(roster, form.amount, form.employees[i])
  {
    seq(|form.employees|, i requires 0 <= i < |form.employees| =>
      match FindEntry(form.employeeData, form.employees[i])
      case Some(existing) => existing
      case None => NewEntry(roster, form.amount, form.employees[i]))
  }

  /** `{ ...form, employees }` without `employeeData`, as the record shape. */
  function PayloadOf(form: IncomeForm, entries: seq<Payout>): Income
  {
    Income(form.id, form.date, form.title, form.clientId, form.amount, form.taxPercent, form.taxAmount,
           form.npAmount, form.internalCosts, Some(entries), form.legacyEmployeeId, form.legacyPayoutType,
           form.legacyPayouts, form.profit, form.comment)
  }

  const RequiredMessage := "Дата, название и сумма обязательны"

  /** `handleSubmit`: validation, payload with computed profit, and the store call it dispatches. */
  function Submit(form: IncomeForm, editingId: string, roster: seq<Employee>): (r: Submission<Income>)
    ensures r.Rejected? <==> form.date == "" || form.title == "" || !Truthy(form.amount)
    ensures r.Update? <==> !r.Rejected? && editingId != ""
    ensures r.Update? ==> r.id == editingId
    ensures !r.Rejected? ==>
              var p := r.payload;
              && p.employees == Some(SubmitEntries(form, roster))
              && p.profit == FromReal(FinanceMath.CalculateProfit(p))
              && p == PayloadOf(form, SubmitEntries(form, roster)).(profit := p.profit)
  {
    if form.date == "" || form.title == "" || !Truthy(form.amount) then Rejected(RequiredMessage)
    else
      var withEntries := PayloadOf(form, SubmitEntries(form, roster));
      var payload := withEntries.(profit := FromReal(FinanceMath.CalculateProfit(withEntries)));
      if editingId != "" then Update(editingId, payload) else Add(payload)
  }

  /** The profit stored on submit is the amount minus every cost and every built payout. */
  lemma {:induction false} SubmittedProfit(form: IncomeForm, editingId: string, roster: seq<Employee>)
    requires !Submit(form, editingId, roster).Rejected?
    ensures OrZero(Submit(form, editingId, roster).payload.profit)
            == OrZero(form.amount) - OrZero(form.taxAmount) - OrZero(form.npAmount) - OrZero(form.internalCosts)
               - FinanceMath.PayoutTotal(SubmitEntries(form, roster))
  {
  }

  /**
   * The form `handleAdd` opens: the empty income with the settings' tax percent when that
   * is non-empty (else ""), and an empty entry list.
   */
  function AddForm(settingsTaxPercent: Value): (r: IncomeForm)
    ensures r == EmptyForm.(taxPercent := r.taxPercent, employeeData := Some([]))
    ensures Truthy(settingsTaxPercent) ==> r.taxPercent == settingsTaxPercent
    ensures !Truthy(settingsTaxPercent) ==> r.taxPercent == Str("")
  {
    EmptyForm.(taxPercent := if Truthy(settingsTaxPercent) then settingsTaxPercent else Str(""),
               employeeData := Some([]))
  }

  /** A freshly opened add form cannot be submitted as it is: it has no date, title or amount. */
  lemma {:induction false} AddFormNeedsInput(settingsTaxPercent: Value, editingId: string, roster: seq<Employee>)
    ensures Submit(AddForm(settingsTaxPercent), editingId, roster) == Rejected(RequiredMessage)
  {
  }

  /** `startEdit(income)`: the form shows the record, its ids selected and its entries as `employeeData`. */
  function EditForm(income: Income): (r: IncomeForm)
    ensures |r.employees| == |income.employees.GetOr([])|
    ensures forall i :: 0 <= i < |r.employees| ==> r.employees[i] == income.employees.GetOr([])[i].employeeId
    ensures r.employeeData == Some(income.employees.GetOr([]))
    ensures PayloadOf(r, income.employees.GetOr([])) == income.(employees := Some(income.employees.GetOr([])))
  {
    var entries := income.employees.GetOr([]);
    IncomeForm(income.id, income.date, income.title, income.clientId,
               seq(|entries|, i requires 0 <= i < |entries| => entries[i].employeeId),
               Some(entries), income.amount, income.taxPercent, income.taxAmount, income.npAmount,
               income.internalCosts, income.comment, income.employeeId, income.employeePayoutType,
               income.employeePayouts, income.profit)
  }

  /** Submitting an edit of a record unchanged reuses every one of its entries as they were. */
  lemma {:induction false} EditThenSubmitKeepsDistinctEntries(income: Income, roster: seq<Employee>)
    requires income.employees.Some?
    requires forall i, j :: 0 <= i < j < |income.employees.value| ==>
               income.employees.value[i].employeeId != income.employees.value[j].employeeId
    ensures SubmitEntries(EditForm(income), roster) == income.employees.value
  {
    AlignedEntriesSubmitted(EditForm(income), roster);
  }

  // ---------------------------------------------------------------- page state

  /** The page's form, editing id ("" for none), modal flag and filters. */
  class IncomesPage {
    var form: IncomeForm
    var editingId: string
    var isModalOpen: bool
    var filters: IncomeFilters

    constructor ()
      ensures form == EmptyForm && editingId == "" && !isModalOpen && filters == NoFilters
    {
      form := EmptyForm;
      editingId := "";
      isModalOpen := false;
      filters := NoFilters;
    }

    /** `handleChangeField`. */
    method HandleChangeField(change: FieldChange, roster: seq<Employee>)
      modifies this
      ensures form == ChangeField(old(form), change, roster)
      ensures editingId == old(editingId) && isModalOpen == old(isModalOpen) && filters == old(filters)
    {
      form := ChangeField(form, change, roster);
    }

    /** `handleEmployeeDataChange`. */
    method HandleEmployeeDataChange(employeeId: string, change: EntryChange, roster: seq<Employee>)
      modifies this
      ensures form == ChangeEntry(old(form), employeeId, change, roster)
      ensures editingId == old(editingId) && isModalOpen == old(isModalOpen) && filters == old(filters)
    {
      form := ChangeEntry(form, employeeId, change, roster);
    }

    /** `handleSubmit`: on success the form is emptied, the editing id cleared and the modal closed. */
    method HandleSubmit(roster: seq<Employee>) returns (s: Submission<Income>)
      modifies this
      ensures s == Submit(old(form), old(editingId), roster)
      ensures s.Rejected? ==> form == old(form) && editingId == old(editingId) && isModalOpen == old(isModalOpen)
      ensures !s.Rejected? ==> form == EmptyForm && editingId == "" && !isModalOpen
      ensures filters == old(filters)
    {
      s := Submit(form, editingId, roster);
      if !s.Rejected? {
        form := EmptyForm;
        editingId := "";
        isModalOpen := false;
      }
    }

    /** `handleAdd`, given `state.appSettings.taxPercent`: a new record with the default tax percent. */
    method HandleAdd(settingsTaxPercent: Value)
      modifies this
      ensures editingId == "" && form == AddForm(settingsTaxPercent) && isModalOpen
      ensures filters == old(filters)
    {
      editingId := "";
      form := AddForm(settingsTaxPercent);
      isModalOpen := true;
    }

    /** `startEdit(income)`. */
    method StartEdit(income: Income)
      modifies this
      ensures editingId == income.id && form == EditForm(income) && isModalOpen
      ensures filters == old(filters)
    {
      editingId := income.id;
      form := EditForm(income);
      isModalOpen := true;
    }

    /** `handleClearFilters`. */
    method ClearFilters()
      modifies this
      ensures filters == NoFilters
      ensures form == old(form) && editingId == old(editingId) && isModalOpen == old(isModalOpen)
    {
      filters := NoFilters;
    }
  }
}
