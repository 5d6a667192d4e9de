/** The variable-expenses page (src/routes/VariableExpensesPage.jsx): its filter, total and form handlers. */
module VariableExpenses {
  import opened Wrappers
  import opened Js
  import opened Records
  import Seqs
  import Text
  import Dates
  import FinanceMath

  /** The filter panel; "" means the filter is not set. */
  datatype ExpenseFilters = ExpenseFilters(from: string, to: string, categoryId: string, query: string)

  const NoFilters := ExpenseFilters("", "", "", "")

  /** The early-return chain of `variableFiltered`'s callback. */
  function Keep(e: VariableExpense, f: ExpenseFilters): (r: bool)
    ensures r <==> && Dates.IsWithinRange(e.date, f.from, f.to)
                   && (f.categoryId != "" ==> e.categoryId == f.categoryId)
                   && (f.query != "" ==> Text.Includes(Text.ToLower(e.title), Text.ToLower(f.query)))
  {
    if !Dates.IsWithinRange(e.date, f.from, f.to) then false
    else if f.categoryId != "" && e.categoryId != f.categoryId then false
    else if f.query != "" && !Text.Includes(Text.ToLower(e.title), Text.ToLower(f.query)) then false
    else true
  }

  /** `variableFiltered`: the expenses that pass every set filter, in stored order. */
  function Filtered(expenses: seq<VariableExpense>, f: ExpenseFilters): (r: seq<VariableExpense>)
    ensures forall x :: x in r <==> x in expenses && Keep(x, f)
  {
    Seqs.Filter(expenses, (e: VariableExpense) => Keep(e, f))
  }

  /** An expense's amount when it passes the filters; a filtered-out one reads as `undefined`. */
  function KeptAmount(e: VariableExpense, f: ExpenseFilters): Value
  {
    if Keep(e, f) then e.amount else Undef
  }

  /**
   * `variableTotal`: the sum over every stored expense of its coerced amount, where the
   * ones the filters drop count as nothing.
   */
  function Total(expenses: seq<VariableExpense>, f: ExpenseFilters): (r: real)
    ensures r == FinanceMath.SumBy(expenses, (e: VariableExpense) => KeptAmount(e, f))
  {
    FinanceMath.SumByFilter(expenses, (e: VariableExpense) => Keep(e, f), FinanceMath.VariableAmountOf,
                            (e: VariableExpense) => KeptAmount(e, f));
    FinanceMath.SumBy(Filtered(expenses, f), FinanceMath.VariableAmountOf)
  }

  /**
   * With the filters cleared, exactly the expenses with a parseable date are listed,
   * and an expense outside the window adds nothing to the total.
   */
  lemma {:induction false} FilterAndTotal(expenses: seq<VariableExpense>, f: ExpenseFilters, e: VariableExpense)
    ensures forall x :: x in Filtered(expenses, NoFilters) <==> x in expenses && Dates.ParseDate(x.date).Some?
    ensures !Dates.IsWithinRange(e.date, f.from, f.to) ==> Total(expenses + [e], f) == Total(expenses, f)
  {
    var p := (x: VariableExpense) => Keep(x, f);
    Seqs.FilterConcat(expenses, [e], p);
    if !Dates.IsWithinRange(e.date, f.from, f.to) {
      assert [e][1..] == [];
      assert Seqs.Filter([e], p) == [];
      assert Filtered(expenses + [e], f) == Filtered(expenses, f);
    }
  }

  /** `emptyVariable`. */
  const EmptyForm := VariableExpense("", "", "", "", Str(""), "")

  const RequiredMessage := "Дата, название и сумма обязательны"

  /**
   * `handleSubmit`: rejected when the title or date is empty or the amount is exactly "";
   * otherwise the form is sent as an update when an edit id is set, else as an addition.
   */
  function Submit(form: VariableExpense, editId: string): (r: Submission<VariableExpense>)
    ensures r.Rejected? <==> form.title == "" || form.date == "" || form.amount == Str("")
    ensures r.Update? <==> !r.Rejected? && editId != ""
    ensures r.Update? ==> r == Update(editId, form)
    ensures r.Add? ==> r == Add(form)
  {
    if form.title == "" || form.date == "" || form.amount == Str("") then Rejected(RequiredMessage)
    else if editId != "" then Update(editId, form)
    else Add(form)
  }

  /** A zero amount, or one never entered, passes validation; only the empty string is refused. */
  lemma {:induction false} ZeroAmountAccepted(form: VariableExpense)
    requires form.title != "" && form.date != ""
    ensures form.amount == Num(Fin(0.0)) ==> !Submit(form, "").Rejected?
    ensures form.amount == Undef ==> !Submit(form, "").Rejected?
  {
  }

  /** The page's form, edit id ("" for none), modal flag and filters. */
  class VariableExpensesPage {
    var form: VariableExpense
    var editId: string
    var isModalOpen: bool
    var filters: ExpenseFilters

    constructor ()
      ensures form == EmptyForm && editId == "" && !isModalOpen && filters == NoFilters
    {
      form := EmptyForm;
      editId := "";
      isModalOpen := false;
      filters := NoFilters;
    }

    /** `handleSubmit`: on success the form is reset, the edit id cleared and the modal closed. */
    method HandleSubmit() returns (s: Submission<VariableExpense>)
      modifies this
      ensures s == Submit(old(form), old(editId))
      ensures s.Rejected? ==> form == old(form) && editId == old(editId) && isModalOpen == old(isModalOpen)
      ensures !s.Rejected? ==> form == EmptyForm && editId == "" && !isModalOpen
      ensures filters == old(filters)
    {
      s := Submit(form, editId);
      if !s.Rejected? {
        form := EmptyForm;
        editId := "";
        isModalOpen := false;
      }
    }

    /** `startEdit(expense)`: the form is a copy of the expense. */
    method StartEdit(expense: VariableExpense)
      modifies this
      ensures editId == expense.id && form == expense && isModalOpen
      ensures filters == old(filters)
    {
      editId := expense.id;
      form := expense;
      isModalOpen := true;
    }

    /** `handleClearFilters`. */
    method ClearFilters()
      modifies this
      ensures filters == NoFilters
      ensures form == old(form) && editId == old(editId) && isModalOpen == old(isModalOpen)
    {
      filters := NoFilters;
    }
  }
}
