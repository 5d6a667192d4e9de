/** The employees page (src/routes/EmployeesPage.jsx): its search, form handlers and delete warning. */
module Employees {
  import opened Wrappers
  import opened Js
  import opened Records
  import Seqs
  import Text

  /** The search test: the lowercased query occurs in the lowercased full name or position. */
  predicate Matches(e: Employee, search: string)
  {
    var query := Text.ToLower(search);
    Text.Includes(Text.ToLower(e.fullName), query) || Text.Includes(Text.ToLower(OrEmpty(e.position)), query)
  }

  /** `filtered`. */
  function Filtered(roster: seq<Employee>, search: string): (r: seq<Employee>)
    ensures forall x :: x in r <==> x in roster && Matches(x, search)
  {
    Seqs.Filter(roster, (e: Employee) => Matches(e, search))
  }

  /**
   * An employee is found iff the query occurs at some position of the lowercased full
   * name or position; an empty search keeps everyone.
   */
  lemma {:induction false} SearchSpec(roster: seq<Employee>, search: string)
    ensures forall x :: x in Filtered(roster, search) <==>
              x in roster && ((exists k :: Text.OccursAt(Text.ToLower(x.fullName), Text.ToLower(search), k))
                              || (exists k :: Text.OccursAt(Text.ToLower(OrEmpty(x.position)), Text.ToLower(search), k)))
    ensures search == "" ==> Filtered(roster, search) == roster
  {
    forall x | x in roster
      ensures Matches(x, search) <==>
                (exists k :: Text.OccursAt(Text.ToLower(x.fullName), Text.ToLower(search), k))
                || (exists k :: Text.OccursAt(Text.ToLower(OrEmpty(x.position)), Text.ToLower(search), k))
    {
      Text.IncludesAt(Text.ToLower(x.fullName), Text.ToLower(search));
      Text.IncludesAt(Text.ToLower(OrEmpty(x.position)), Text.ToLower(search));
    }
    if search == "" {
      forall x | x in roster
        ensures Matches(x, search)
      {
        Text.EmptyIncluded(Text.ToLower(x.fullName));
      }
      Seqs.FilterAllPass(roster, (e: Employee) => Matches(e, search));
    }
  }

  /** The form: full name, position and percent. */
  datatype EmployeeForm = EmployeeForm(fullName: string, position: string, percent: Value)

  const EmptyForm := EmployeeForm("", "", Num(Fin(0.0)))

  const NameMessage := "ФИО обязательно"
  const PercentMessage := "Процент должен быть 0-100"

  /**
   * `handleSubmit`: rejected without a full name, then when the percent compares below
   * 0 or above 100; otherwise sent as an update or an addition.
   */
  function Submit(form: EmployeeForm, editingId: string): (r: Submission<EmployeeForm>)
    ensures form.fullName == "" ==> r == Rejected(NameMessage)
    ensures form.fullName != "" && (LessThan(form.percent, 0.0) || GreaterThan(form.percent, 100.0)) ==> r == Rejected(PercentMessage)
    ensures r.Rejected? <==> form.fullName == "" || LessThan(form.percent, 0.0) || GreaterThan(form.percent, 100.0)
    ensures r.Update? <==> !r.Rejected? && editingId != ""
    ensures r.Update? ==> r == Update(editingId, form)
    ensures r.Add? ==> r == Add(form)
  {
    if form.fullName == "" then Rejected(NameMessage)
    else if LessThan(form.percent, 0.0) || GreaterThan(form.percent, 100.0) then Rejected(PercentMessage)
    else if editingId != "" then Update(editingId, form)
    else Add(form)
  }

  /**
   * A numeric percent is accepted exactly on 0..100, bounds included; an empty percent
   * compares as 0 and is accepted.
   */
  lemma {:induction false} PercentBounds(name: string, x: real)
    requires name != ""
    ensures !Submit(EmployeeForm(name, "", Num(Fin(x))), "").Rejected? <==> 0.0 <= x <= 100.0
    ensures !Submit(EmployeeForm(name, "", Str("")), "").Rejected?
  {
    assert Trim("") == "";
  }

  /** `startEdit`'s form: a missing position becomes "" and a missing (falsy) percent 0. */
  function EditForm(e: Employee): (r: EmployeeForm)
    ensures r.fullName == e.fullName && r.position == OrEmpty(e.position)
    ensures Truthy(e.percent) ==> r.percent == e.percent
    ensures !Truthy(e.percent) ==> r.percent == Num(Fin(0.0))
  {
    EmployeeForm(e.fullName, OrEmpty(e.position), if Truthy(e.percent) then e.percent else Num(Fin(0.0)))
  }

  /** `used` in `handleDelete`: some income names the employee in its legacy `employeeId`. */
  predicate UsedInIncomes(incomes: seq<Income>, id: string)
  {
    exists k :: 0 <= k < |incomes| && incomes[k].employeeId == id
  }

  /** The confirmation text `handleDelete` shows. */
  function DeletePrompt(incomes: seq<Income>, e: Employee): (r: string)
    ensures UsedInIncomes(incomes, e.id) ==> r == "Сотрудник используется в доходах. Удалить?"
    ensures !UsedInIncomes(incomes, e.id) ==> r == "Удалить сотрудника?"
  {
    if Seqs.Any(incomes, (i: Income) => i.employeeId == e.id) then "Сотрудник используется в доходах. Удалить?"
    else "Удалить сотрудника?"
  }

  /** An employee who appears only in `employees` arrays gets the plain prompt. */
  lemma {:induction false} ArrayEntriesNotChecked(incomes: seq<Income>, e: Employee)
    requires forall k :: 0 <= k < |incomes| ==> incomes[k].employeeId == "" && incomes[k].employees.Some?
    requires e.id != ""
    ensures DeletePrompt(incomes, e) == "Удалить сотрудника?"
  {
  }

  /** The page's search text, form, editing id ("" for none) and modal flag. */
  class EmployeesPage {
    var search: string
    var form: EmployeeForm
    var editingId: string
    var isModalOpen: bool

    constructor ()
      ensures search == "" && form == EmptyForm && editingId == "" && !isModalOpen
    {
      search := "";
      form := EmptyForm;
      editingId := "";
      isModalOpen := false;
    }

    /** `handleSubmit`: after success the form is reset and the editing id cleared. */
    method HandleSubmit() returns (s: Submission<EmployeeForm>)
      modifies this
      ensures s == Submit(old(form), old(editingId))
      ensures s.Rejected? ==> form == old(form) && editingId == old(editingId) && isModalOpen == old(isModalOpen)
      ensures !s.Rejected? ==> form == EmptyForm && editingId == "" && !isModalOpen
      ensures search == old(search)
    {
      s := Submit(form, editingId);
      if !s.Rejected? {
        form := EmptyForm;
        editingId := "";
        isModalOpen := false;
      }
    }

    /** `startEdit(emp)`. */
    method StartEdit(e: Employee)
      modifies this
      ensures editingId == e.id && form == EditForm(e) && isModalOpen
      ensures search == old(search)
    {
      editingId := e.id;
      form := EditForm(e);
      isModalOpen := true;
    }

    /** `handleDelete(emp)`: the prompt shown, and the id to delete when the user confirms. */
    method HandleDelete(incomes: seq<Income>, e: Employee, confirmed: bool) returns (prompt: string, delete: Option<string>)
      ensures prompt == DeletePrompt(incomes, e)
      ensures confirmed <==> delete == Some(e.id)
      ensures !confirmed ==> delete == None
    {
      prompt := DeletePrompt(incomes, e);
      delete := if confirmed then Some(e.id) else None;
    }
  }
}
