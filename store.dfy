/**
 * The in-memory store (src/store/AppStoreContext.jsx): the load-time merge with the
 * defaults and the state updaters behind every add, update and delete action. A remote
 * call's result is a parameter: `Ok` with what the server returned, or `Err` when it threw.
 */
module Store {
  import opened Wrappers
  import opened Js
  import opened Records
  import Seqs

  /** `organization`. */
  datatype Organization = Organization(name: string, inn: string, address: string, phone: string, email: string, website: string)

  /** `appSettings`. */
  datatype AppSettings = AppSettings(currency: string, dateFormat: string, language: string, taxPercent: Value, theme: string)

  /** The whole application state. */
  datatype AppState = AppState(
    clients: seq<Client>,
    employees: seq<Employee>,
    expenseCategories: seq<ExpenseCategory>,
    fixedExpenses: seq<FixedExpense>,
    variableExpenses: seq<VariableExpense>,
    incomes: seq<Income>,
    organization: Organization,
    appSettings: AppSettings)

  const DefaultOrganization := Organization("", "", "", "", "", "")
  const DefaultSettings := AppSettings("₽", "DD.MM.YYYY", "ru", Str(""), "light")

  /** `defaultAppState`. */
  const DefaultState := AppState([], [], [], [], [], [], DefaultOrganization, DefaultSettings)

  /** What the server sent on load; an absent key is `None`. */
  datatype ServerData = ServerData(
    clients: Option<seq<Client>>,
    employees: Option<seq<Employee>>,
    expenseCategories: Option<seq<ExpenseCategory>>,
    fixedExpenses: Option<seq<FixedExpense>>,
    variableExpenses: Option<seq<VariableExpense>>,
    incomes: Option<seq<Income>>,
    organization: Option<Organization>,
    appSettings: Option<AppSettings>)

  /** `{ ...defaultAppState, ...data, organization: data.organization || default, appSettings: ... }`. */
  function Merge(data: ServerData): (s: AppState)
    ensures s.clients == data.clients.GetOr([]) && s.employees == data.employees.GetOr([])
    ensures s.expenseCategories == data.expenseCategories.GetOr([])
    ensures s.fixedExpenses == data.fixedExpenses.GetOr([]) && s.variableExpenses == data.variableExpenses.GetOr([])
    ensures s.incomes == data.incomes.GetOr([])
    ensures s.organization == data.organization.GetOr(DefaultOrganization)
    ensures s.appSettings == data.appSettings.GetOr(DefaultSettings)
  {
    AppState(data.clients.GetOr(DefaultState.clients), data.employees.GetOr(DefaultState.employees),
             data.expenseCategories.GetOr(DefaultState.expenseCategories),
             data.fixedExpenses.GetOr(DefaultState.fixedExpenses),
             data.variableExpenses.GetOr(DefaultState.variableExpenses),
             data.incomes.GetOr(DefaultState.incomes),
             data.organization.GetOr(DefaultState.organization),
             data.appSettings.GetOr(DefaultState.appSettings))
  }

  /** An empty response leaves the defaults; a full one is taken as it is. */
  lemma {:induction false} MergeExtremes(data: ServerData)
    ensures data == ServerData(None, None, None, None, None, None, None, None) ==> Merge(data) == DefaultState
    ensures data.clients.Some? && data.employees.Some? && data.expenseCategories.Some? && data.fixedExpenses.Some?
            && data.variableExpenses.Some? && data.incomes.Some? && data.organization.Some? && data.appSettings.Some? ==>
              Merge(data) == AppState(data.clients.value, data.employees.value, data.expenseCategories.value,
                                      data.fixedExpenses.value, data.variableExpenses.value, data.incomes.value,
                                      data.organization.value, data.appSettings.value)
  {
  }

  // ---------------------------------------------------------------- list updaters

  /** `prev.xs.map((item) => (item.id === id ? updated : item))`. */
  function ReplaceById<T>(items: seq<T>, idOf: T -> string, id: string, updated: T): (r: seq<T>)
    ensures |r| == |items|
    ensures forall k :: 0 <= k < |items| ==> r[k] == if idOf(items[k]) == id then updated else items[k]
  {
    seq(|items|, k requires 0 <= k < |items| => if idOf(items[k]) == id then updated else items[k])
  }

  /** `prev.xs.filter((item) => item.id !== id)`. */
  function RemoveById<T(!new)>(items: seq<T>, idOf: T -> string, id: string): (r: seq<T>)
    ensures |r| <= |items|
    ensures forall x :: x in r <==> x in items && idOf(x) != id
  {
    Seqs.Filter(items, (x: T) => idOf(x) != id)
  }

  /** An update for an id nobody has changes nothing. */
  lemma {:induction false} ReplaceAbsent<T>(items: seq<T>, idOf: T -> string, id: string, updated: T)
    requires forall k :: 0 <= k < |items| ==> idOf(items[k]) != id
    ensures ReplaceById(items, idOf, id, updated) == items
  {
  }

  /** Deleting an id removes exactly its items, keeps the others in their order and leaves none behind. */
  lemma {:induction false} RemoveByIdOrder<T(!new)>(a: seq<T>, b: seq<T>, idOf: T -> string, id: string)
    ensures RemoveById(a + b, idOf, id) == RemoveById(a, idOf, id) + RemoveById(b, idOf, id)
    ensures (forall x :: x in a ==> idOf(x) != id) ==> RemoveById(a, idOf, id) == a
  {
    Seqs.FilterConcat(a, b, (x: T) => idOf(x) != id);
    if forall x :: x in a ==> idOf(x) != id {
      Seqs.FilterAllPass(a, (x: T) => idOf(x) != id);
    }
  }

  /** Adding an item with a fresh id and then deleting that id restores the list. */
  lemma {:induction false} AddThenDelete<T(!new)>(items: seq<T>, idOf: T -> string, x: T)
    requires forall y :: y in items ==> idOf(y) != idOf(x)
    ensures RemoveById(items + [x], idOf, idOf(x)) == items
  {
    RemoveByIdOrder(items, [x], idOf, idOf(x));
    assert [x][1..] == [];
  }

  /** Deleting after an update of the same id is the same as deleting straight away. */
  lemma {:induction false} UpdateThenDelete<T(!new)>(items: seq<T>, idOf: T -> string, id: string, updated: T)
    requires idOf(updated) == id
    ensures RemoveById(ReplaceById(items, idOf, id, updated), idOf, id) == RemoveById(items, idOf, id)
    decreases |items|
  {
    if items != [] {
      var rest := ReplaceById(items[1..], idOf, id, updated);
      assert ReplaceById(items, idOf, id, updated) == [ReplaceById(items, idOf, id, updated)[0]] + rest;
      assert items == [items[0]] + items[1..];
      UpdateThenDelete(items[1..], idOf, id, updated);
      RemoveByIdOrder([ReplaceById(items, idOf, id, updated)[0]], rest, idOf, id);
      RemoveByIdOrder([items[0]], items[1..], idOf, id);
      assert [items[0]][1..] == [];
    }
  }

  function ClientIdOf(x: Client): string
  {
    x.id
  }

  function EmployeeIdOf(x: Employee): string
  {
    x.id
  }

  function IncomeIdOf(x: Income): string
  {
    x.id
  }

  function FixedExpenseIdOf(x: FixedExpense): string
  {
    x.id
  }

  function VariableExpenseIdOf(x: VariableExpense): string
  {
    x.id
  }

  function ExpenseCategoryIdOf(x: ExpenseCategory): string
  {
    x.id
  }

  /** `updateState`'s argument: a function of the previous state, or a state to replace it with. */
  datatype Updater = Apply(f: AppState -> AppState) | Replace(next: AppState)

  /** The store: the state, and whether the initial load is still running. */
  class AppStore {
    var state: AppState
    var loading: bool

    constructor ()
      ensures state == DefaultState && loading
    {
      state := DefaultState;
      loading := true;
    }

    /** The load effect: when signed in, a successful response is merged over the defaults; a failure keeps the state. */
    method Load(isAuthenticated: bool, response: Outcome<ServerData>)
      modifies this
      ensures isAuthenticated && response.Ok? ==> state == Merge(response.value)
      ensures !isAuthenticated || response.Err? ==> state == old(state)
      ensures !loading
    {
      if isAuthenticated {
        match response
        case Ok(data) => state := Merge(data);
        case Err(_) =>
      }
      loading := false;
    }

    /** `updateState(updater)`. */
    method SetState(u: Updater)
      modifies this
      ensures u.Apply? ==> state == u.f(old(state))
      ensures u.Replace? ==> state == u.next
      ensures loading == old(loading)
    {
      match u
      case Apply(f) => state := f(state);
      case Replace(next) => state := next;
    }

    /** `addClient`: the returned item goes to the end of `clients`; a failure changes nothing and is passed on. */
    method AddClient(response: Outcome<Client>) returns (r: Outcome<Client>)
      modifies this
      ensures r == response
      ensures response.Ok? ==> state == old(state).(clients := old(state).clients + [response.value])
      ensures response.Err? ==> state == old(state)
      ensures loading == old(loading)
    {
      if response.Ok? {
        state := state.(clients := state.clients + [response.value]);
      }
      r := response;
    }

    /** `updateClient(id, patch)`: every item with that id becomes the returned item. */
    method UpdateClient(id: string, response: Outcome<Client>) returns (r: Outcome<Client>)
      modifies this
      ensures r == response
      ensures response.Ok? ==> state == old(state).(clients := ReplaceById(old(state).clients, ClientIdOf, id, response.value))
      ensures response.Err? ==> state == old(state)
      ensures loading == old(loading)
    {
      if response.Ok? {
        state := state.(clients := ReplaceById(state.clients, ClientIdOf, id, response.value));
      }
      r := response;
    }

    /** `deleteClient(id)`: the items with that id are dropped. */
    method DeleteClient(id: string, response: Outcome<()>) returns (r: Outcome<()>)
      modifies this
      ensures r == response
      ensures response.Ok? ==> state == old(state).(clients := RemoveById(old(state).clients, ClientIdOf, id))
      ensures response.Err? ==> state == old(state)
      ensures loading == old(loading)
    {
      if response.Ok? {
        state := state.(clients := RemoveById(state.clients, ClientIdOf, id));
      }
      r := response;
    }

    /** `addEmployee`: the returned item goes to the end of `employees`; a failure changes nothing and is passed on. */
    method AddEmployee(response: Outcome<Employee>) returns (r: Outcome<Employee>)
      modifies this
      ensures r == response
      ensures response.Ok? ==> state == old(state).(employees := old(state).employees + [response.value])
      ensures response.Err? ==> state == old(state)
      ensures loading == old(loading)
    {
      if response.Ok? {
        state := state.(employees := state.employees + [response.value]);
      }
      r := response;
    }

    /** `updateEmployee(id, patch)`: every item with that id becomes the returned item. */
    method UpdateEmployee(id: string, response: Outcome<Employee>) returns (r: Outcome<Employee>)
      modifies this
      ensures r == response
      ensures response.Ok? ==> state == old(state).(employees := ReplaceById(old(state).employees, EmployeeIdOf, id, response.value))
      ensures response.Err? ==> state == old(state)
      ensures loading == old(loading)
    {
      if response.Ok? {
        state := state.(employees := ReplaceById(state.employees, EmployeeIdOf, id, response.value));
      }
      r := response;
    }

    /** `deleteEmployee(id)`: the items with that id are dropped. */
    method DeleteEmployee(id: string, response: Outcome<()>) returns (r: Outcome<()>)
      modifies this
      ensures r == response
      ensures response.Ok? ==> state == old(state).(employees := RemoveById(old(state).employees, EmployeeIdOf, id))
      ensures response.Err? ==> state == old(state)
      ensures loading == old(loading)
    {
      if response.Ok? {
        state := state.(employees := RemoveById(state.employees, EmployeeIdOf, id));
      }
      r := response;
    }

    /** `addIncome`: the returned item goes to the end of `incomes`; a failure changes nothing and is passed on. */
    method AddIncome(response: Outcome<Income>) returns (r: Outcome<Income>)
      modifies this
      ensures r == response
      ensures response.Ok? ==> state == old(state).(incomes := old(state).incomes + [response.value])
      ensures response.Err? ==> state == old(state)
      ensures loading == old(loading)
    {
      if response.Ok? {
        state := state.(incomes := state.incomes + [response.value]);
      }
      r := response;
    }

    /** `updateIncome(id, patch)`: every item with that id becomes the returned item. */
    method UpdateIncome(id: string, response: Outcome<Income>) returns (r: Outcome<Income>)
      modifies this
      ensures r == response
      ensures response.Ok? ==> state == old(state).(incomes := ReplaceById(old(state).incomes, IncomeIdOf, id, response.value))
      ensures response.Err? ==> state == old(state)
      ensures loading == old(loading)
    {
      if response.Ok? {
        state := state.(incomes := ReplaceById(state.incomes, IncomeIdOf, id, response.value));
      }
      r := response;
    }

    /** `deleteIncome(id)`: the items with that id are dropped. */
    method DeleteIncome(id: string, response: Outcome<()>) returns (r: Outcome<()>)
      modifies this
      ensures r == response
      ensures response.Ok? ==> state == old(state).(incomes := RemoveById(old(state).incomes, IncomeIdOf, id))
      ensures response.Err? ==> state == old(state)
      ensures loading == old(loading)
    {
      if response.Ok? {
        state := state.(incomes := RemoveById(state.incomes, IncomeIdOf, id));
      }
      r := response;
    }

    /** `addFixedExpense`: the returned item goes to the end of `fixedExpenses`; a failure changes nothing and is passed on. */
    method AddFixedExpense(response: Outcome<FixedExpense>) returns (r: Outcome<FixedExpense>)
      modifies this
      ensures r == response
      ensures response.Ok? ==> state == old(state).(fixedExpenses := old(state).fixedExpenses + [response.value])
      ensures response.Err? ==> state == old(state)
      ensures loading == old(loading)
    {
      if response.Ok? {
        state := state.(fixedExpenses := state.fixedExpenses + [response.value]);
      }
      r := response;
    }

    /** `updateFixedExpense(id, patch)`: every item with that id becomes the returned item. */
    method UpdateFixedExpense(id: string, response: Outcome<FixedExpense>) returns (r: Outcome<FixedExpense>)
      modifies this
      ensures r == response
      ensures response.Ok? ==> state == old(state).(fixedExpenses := ReplaceById(old(state).fixedExpenses, FixedExpenseIdOf, id, response.value))
      ensures response.Err? ==> state == old(state)
      ensures loading == old(loading)
    {
      if response.Ok? {
        state := state.(fixedExpenses := ReplaceById(state.fixedExpenses, FixedExpenseIdOf, id, response.value));
      }
      r := response;
    }

    /** `deleteFixedExpense(id)`: the items with that id are dropped. */
    method DeleteFixedExpense(id: string, response: Outcome<()>) returns (r: Outcome<()>)
      modifies this
      ensures r == response
      ensures response.Ok? ==> state == old(state).(fixedExpenses := RemoveById(old(state).fixedExpenses, FixedExpenseIdOf, id))
      ensures response.Err? ==> state == old(state)
      ensures loading == old(loading)
    {
      if response.Ok? {
        state := state.(fixedExpenses := RemoveById(state.fixedExpenses, FixedExpenseIdOf, id));
      }
      r := response;
    }

    /** `addVariableExpense`: the returned item goes to the end of `variableExpenses`; a failure changes nothing and is passed on. */
    method AddVariableExpense(response: Outcome<VariableExpense>) returns (r: Outcome<VariableExpense>)
      modifies this
      ensures r == response
      ensures response.Ok? ==> state == old(state).(variableExpenses := old(state).variableExpenses + [response.value])
      ensures response.Err? ==> state == old(state)
      ensures loading == old(loading)
    {
      if response.Ok? {
        state := state.(variableExpenses := state.variableExpenses + [response.value]);
      }
      r := response;
    }

    /** `updateVariableExpense(id, patch)`: every item with that id becomes the returned item. */
    method UpdateVariableExpense(id: string, response: Outcome<VariableExpense>) returns (r: Outcome<VariableExpense>)
      modifies this
      ensures r == response
      ensures response.Ok? ==> state == old(state).(variableExpenses := ReplaceById(old(state).variableExpenses, VariableExpenseIdOf, id, response.value))
      ensures response.Err? ==> state == old(state)
      ensures loading == old(loading)
    {
      if response.Ok? {
        state := state.(variableExpenses := ReplaceById(state.variableExpenses, VariableExpenseIdOf, id, response.value));
      }
      r := response;
    }

    /** `deleteVariableExpense(id)`: the items with that id are dropped. */
    method DeleteVariableExpense(id: string, response: Outcome<()>) returns (r: Outcome<()>)
      modifies this
      ensures r == response
      ensures response.Ok? ==> state == old(state).(variableExpenses := RemoveById(old(state).variableExpenses, VariableExpenseIdOf, id))
      ensures response.Err? ==> state == old(state)
      ensures loading == old(loading)
    {
      if response.Ok? {
        state := state.(variableExpenses := RemoveById(state.variableExpenses, VariableExpenseIdOf, id));
      }
      r := response;
    }

    /** `addExpenseCategory`: the returned item goes to the end of `expenseCategories`; a failure changes nothing and is passed on. */
    method AddExpenseCategory(response: Outcome<ExpenseCategory>) returns (r: Outcome<ExpenseCategory>)
      modifies this
      ensures r == response
      ensures response.Ok? ==> state == old(state).(expenseCategories := old(state).expenseCategories + [response.value])
      ensures response.Err? ==> state == old(state)
      ensures loading == old(loading)
    {
      if response.Ok? {
        state := state.(expenseCategories := state.expenseCategories + [response.value]);
      }
      r := response;
    }

    /** `updateExpenseCategory(id, patch)`: every item with that id becomes the returned item. */
    method UpdateExpenseCategory(id: string, response: Outcome<ExpenseCategory>) returns (r: Outcome<ExpenseCategory>)
      modifies this
      ensures r == response
      ensures response.Ok? ==> state == old(state).(expenseCategories := ReplaceById(old(state).expenseCategories, ExpenseCategoryIdOf, id, response.value))
      ensures response.Err? ==> state == old(state)
      ensures loading == old(loading)
    {
      if response.Ok? {
        state := state.(expenseCategories := ReplaceById(state.expenseCategories, ExpenseCategoryIdOf, id, response.value));
      }
      r := response;
    }

    /** `deleteExpenseCategory(id)`: the items with that id are dropped. */
    method DeleteExpenseCategory(id: string, response: Outcome<()>) returns (r: Outcome<()>)
      modifies this
      ensures r == response
      ensures response.Ok? ==> state == old(state).(expenseCategories := RemoveById(old(state).expenseCategories, ExpenseCategoryIdOf, id))
      ensures response.Err? ==> state == old(state)
      ensures loading == old(loading)
    {
      if response.Ok? {
        state := state.(expenseCategories := RemoveById(state.expenseCategories, ExpenseCategoryIdOf, id));
      }
      r := response;
    }

    /** `updateOrganization(patch)`: the whole sub-object is replaced by the returned one. */
    method UpdateOrganization(response: Outcome<Organization>) returns (r: Outcome<Organization>)
      modifies this
      ensures r == response
      ensures response.Ok? ==> state == old(state).(organization := response.value)
      ensures response.Err? ==> state == old(state)
      ensures loading == old(loading)
    {
      if response.Ok? {
        state := state.(organization := response.value);
      }
      r := response;
    }

    /** `updateAppSettings(patch)`: the whole sub-object is replaced by the returned one. */
    method UpdateAppSettings(response: Outcome<AppSettings>) returns (r: Outcome<AppSettings>)
      modifies this
      ensures r == response
      ensures response.Ok? ==> state == old(state).(appSettings := response.value)
      ensures response.Err? ==> state == old(state)
      ensures loading == old(loading)
    {
      if response.Ok? {
        state := state.(appSettings := response.value);
      }
      r := response;
    }
  }
}
