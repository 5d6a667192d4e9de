/**
 * The plain records the store holds. Missing text ids are "" (the code only ever
 * tests them for truthiness or compares them); optional text fields that the code
 * reads through `x || ""` are `Option<string>`.
 */
module Records {
  import opened Wrappers
  import opened Js
  import Seqs

  /** One employee assignment of an income record. */
  datatype Payout = Payout(employeeId: string, payoutType: string, payoutAmount: Value)

  /**
   * An income record. `employees` is `None` when the field is absent or not an array;
   * `employeeId`, `employeePayoutType` and `employeePayouts` are the legacy
   * single-employee fields ("" / Undef when absent).
   */
  datatype Income = Income(
    id: string,
    date: string,
    title: string,
    clientId: string,
    amount: Value,
    taxPercent: Value,
    taxAmount: Value,
    npAmount: Value,
    internalCosts: Value,
    employees: Option<seq<Payout>>,
    employeeId: string,
    employeePayoutType: string,
    employeePayouts: Value,
    profit: Value,
    comment: string)

  datatype Employee = Employee(id: string, fullName: string, position: Option<string>, percent: Value)

  datatype Client = Client(
    id: string,
    name: string,
    organization: Option<string>,
    activityField: Option<string>,
    contactName: Option<string>,
    phone: Option<string>)

  datatype ExpenseCategory = ExpenseCategory(id: string, name: string)

  datatype FixedExpense = FixedExpense(id: string, name: string, amount: Value, period: Option<string>)

  datatype VariableExpense = VariableExpense(
    id: string,
    date: string,
    title: string,
    categoryId: string,
    amount: Value,
    comment: string)

  /** `x || ""` on an optional text field. */
  function OrEmpty(o: Option<string>): (r: string)
    ensures o.None? ==> r == ""
    ensures o.Some? ==> r == o.value
  {
    o.GetOr("")
  }

  /** `roster.find((e) => e.id === id)`. */
  function FindEmployee(roster: seq<Employee>, id: string): (r: Option<Employee>)
    ensures r.Some? ==> r.value in roster && r.value.id == id
    ensures r.None? <==> forall e :: e in roster ==> e.id != id
  {
    Seqs.Find(roster, (e: Employee) => e.id == id)
  }

  /** `clients.find((c) => c.id === id)`. */
  function FindClient(clients: seq<Client>, id: string): (r: Option<Client>)
    ensures r.Some? ==> r.value in clients && r.value.id == id
    ensures r.None? <==> forall c :: c in clients ==> c.id != id
  {
    Seqs.Find(clients, (c: Client) => c.id == id)
  }

  /** `categories.find((c) => c.id === id)`. */
  function FindCategory(categories: seq<ExpenseCategory>, id: string): (r: Option<ExpenseCategory>)
    ensures r.Some? ==> r.value in categories && r.value.id == id
    ensures r.None? <==> forall c :: c in categories ==> c.id != id
  {
    Seqs.Find(categories, (c: ExpenseCategory) => c.id == id)
  }
}
