/** The fixed-expenses page (src/routes/FixedExpensesPage.jsx): its total and form handlers. */
module FixedExpenses {
  import opened Wrappers
  import opened Js
  import opened Records
  import FinanceMath

  /** `fixedTotal`: every fixed expense, with no date filter. */
  function Total(expenses: seq<FixedExpense>): real
  {
    FinanceMath.SumBy(expenses, FinanceMath.FixedAmountOf)
  }

  /** Adding a fixed expense adds its coerced amount to the total. */
  lemma {:induction false} TotalAfterAdd(expenses: seq<FixedExpense>, e: FixedExpense)
    ensures Total(expenses + [e]) == Total(expenses) + OrZero(e.amount)
  {
    FinanceMath.SumByConcat(expenses, [e], FinanceMath.FixedAmountOf);
    FinanceMath.SumBySingle(e, FinanceMath.FixedAmountOf);
  }

  /** The form's name, amount and period. */
  datatype FixedForm = FixedForm(name: string, amount: Value, period: string)

  /** `emptyFixed`. */
  const EmptyForm := FixedForm("", Str(""), "")

  const RequiredMessage := "Название и сумма обязательны"

  /** `handleSubmit`: rejected when the name is empty or the amount is exactly "". */
  function Submit(form: FixedForm, editId: string): (r: Submission<FixedForm>)
    ensures r.Rejected? <==> form.name == "" || form.amount == Str("")
    ensures r.Update? <==> !r.Rejected? && editId != ""
    ensures r.Update? ==> r == Update(editId, form)
    ensures r.Add? ==> r == Add(form)
  {
    if form.name == "" || form.amount == Str("") then Rejected(RequiredMessage)
    else if editId != "" then Update(editId, form)
    else Add(form)
  }

  /** `startEdit`'s form: name and amount copied, a missing period shown as "". */
  function EditForm(e: FixedExpense): (r: FixedForm)
    ensures r.name == e.name && r.amount == e.amount
    ensures e.period.None? ==> r.period == ""
    ensures e.period.Some? ==> r.period == e.period.value
  {
    FixedForm(e.name, e.amount, OrEmpty(e.period))
  }

  /** The page's form, edit id ("" for none) and modal flag. */
  class FixedExpensesPage {
    var form: FixedForm
    var editId: string
    var isModalOpen: bool

    constructor ()
      ensures form == EmptyForm && editId == "" && !isModalOpen
    {
      form := EmptyForm;
      editId := "";
      isModalOpen := false;
    }

    /** `handleSubmit`: on success the form, the edit id and the modal flag are reset. */
    method HandleSubmit() returns (s: Submission<FixedForm>)
      modifies this
      ensures s == Submit(old(form), old(editId))
      ensures s.Rejected? ==> form == old(form) && editId == old(editId) && isModalOpen == old(isModalOpen)
      ensures !s.Rejected? ==> form == EmptyForm && editId == "" && !isModalOpen
    {
      s := Submit(form, editId);
      if !s.Rejected? {
        form := EmptyForm;
        editId := "";
        isModalOpen := false;
      }
    }

    /** `startEdit(expense)`. */
    method StartEdit(e: FixedExpense)
      modifies this
      ensures editId == e.id && form == EditForm(e) && isModalOpen
    {
      editId := e.id;
      form := EditForm(e);
      isModalOpen := true;
    }
  }
}
