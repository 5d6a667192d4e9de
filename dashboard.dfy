/**
 * The dashboard's aggregation (src/routes/DashboardPage.jsx): period totals, and the
 * top-5 clients by income and employees by credited profit.
 */
module Dashboard {
  import opened Wrappers
  import opened Js
  import opened Records
  import Seqs
  import Dates
  import FinanceMath

  /** The dashboard's date window; "" means the bound is not set. */
  datatype Window = Window(from: string, to: string)

  predicate IncomeInWindow(i: Income, w: Window)
  {
    Dates.IsWithinRange(i.date, w.from, w.to)
  }

  predicate ExpenseInWindow(e: VariableExpense, w: Window)
  {
    Dates.IsWithinRange(e.date, w.from, w.to)
  }

  /** `incomesInRange`. */
  function IncomesInRange(incomes: seq<Income>, w: Window): (r: seq<Income>)
    ensures forall x :: x in r <==> x in incomes && Dates.IsWithinRange(x.date, w.from, w.to)
  {
    Seqs.Filter(incomes, (i: Income) => IncomeInWindow(i, w))
  }

  /** `variableInRange`. */
  function VariableInRange(expenses: seq<VariableExpense>, w: Window): (r: seq<VariableExpense>)
    ensures forall x :: x in r <==> x in expenses && Dates.IsWithinRange(x.date, w.from, w.to)
  {
    Seqs.Filter(expenses, (e: VariableExpense) => ExpenseInWindow(e, w))
  }

  /** The four figures of the "financial totals" card. */
  datatype Totals = Totals(incomeAmount: real, incomeProfit: real, variableExpenses: real, fixedExpenses: real)

  /** An income's amount when it is in the window, else `undefined`, which sums as 0. */
  function WindowedAmount(i: Income, w: Window): Value
  {
    if IncomeInWindow(i, w) then i.amount else Undef
  }

  /** An income's profit when it is in the window, else `undefined`. */
  function WindowedProfit(i: Income, w: Window): Value
  {
    if IncomeInWindow(i, w) then i.profit else Undef
  }

  /** A variable expense's amount when it is in the window, else `undefined`. */
  function WindowedExpense(e: VariableExpense, w: Window): Value
  {
    if ExpenseInWindow(e, w) then e.amount else Undef
  }

  /**
   * `totals`: the income, profit and variable-expense totals count exactly the records in
   * the window, and the fixed total counts every fixed expense whatever the window. The
   * income total is also what the client ranking credits altogether.
   */
  function TotalsOf(incomes: seq<Income>, variable: seq<VariableExpense>, fixed: seq<FixedExpense>, w: Window): (r: Totals)
    ensures r.incomeAmount == FinanceMath.SumBy(incomes, (i: Income) => WindowedAmount(i, w))
    ensures r.incomeProfit == FinanceMath.SumBy(incomes, (i: Income) => WindowedProfit(i, w))
    ensures r.variableExpenses == FinanceMath.SumBy(variable, (e: VariableExpense) => WindowedExpense(e, w))
    ensures r.fixedExpenses == FinanceMath.SumBy(fixed, FinanceMath.FixedAmountOf)
    ensures r.incomeAmount == CreditSum(ClientCredits(IncomesInRange(incomes, w)))
  {
    var inRange := IncomesInRange(incomes, w);
    FinanceMath.SumByFilter(incomes, (i: Income) => IncomeInWindow(i, w), FinanceMath.IncomeAmountOf,
                            (i: Income) => WindowedAmount(i, w));
    FinanceMath.SumByFilter(incomes, (i: Income) => IncomeInWindow(i, w), FinanceMath.IncomeProfitOf,
                            (i: Income) => WindowedProfit(i, w));
    FinanceMath.SumByFilter(variable, (e: VariableExpense) => ExpenseInWindow(e, w), FinanceMath.VariableAmountOf,
                            (e: VariableExpense) => WindowedExpense(e, w));
    ClientCreditsTotal(inRange);
    Totals(FinanceMath.SumBy(inRange, FinanceMath.IncomeAmountOf),
           FinanceMath.SumBy(inRange, FinanceMath.IncomeProfitOf),
           FinanceMath.SumBy(VariableInRange(variable, w), FinanceMath.VariableAmountOf),
           FinanceMath.SumBy(fixed, FinanceMath.FixedAmountOf))
  }

  /**
   * Records outside the window do not move any total, while the fixed-expense total
   * counts every fixed expense whatever the window.
   */
  lemma {:induction false} TotalsIgnoreOutOfWindow(incomes: seq<Income>, variable: seq<VariableExpense>,
                                                   fixed: seq<FixedExpense>, w: Window,
                                                   i: Income, e: VariableExpense, f: FixedExpense)
    requires !Dates.IsWithinRange(i.date, w.from, w.to) && !Dates.IsWithinRange(e.date, w.from, w.to)
    ensures var before := TotalsOf(incomes, variable, fixed, w);
            var after := TotalsOf(incomes + [i], variable + [e], fixed + [f], w);
            && after.incomeAmount == before.incomeAmount
            && after.incomeProfit == before.incomeProfit
            && after.variableExpenses == before.variableExpenses
            && after.fixedExpenses == before.fixedExpenses + OrZero(f.amount)
  {
    var pi := (x: Income) => IncomeInWindow(x, w);
    var pe := (x: VariableExpense) => ExpenseInWindow(x, w);
    Seqs.FilterConcat(incomes, [i], pi);
    Seqs.FilterConcat(variable, [e], pe);
    assert Seqs.Filter([i], pi) == [] by { assert [i][1..] == []; }
    assert Seqs.Filter([e], pe) == [] by { assert [e][1..] == []; }
    assert IncomesInRange(incomes + [i], w) == IncomesInRange(incomes, w);
    assert VariableInRange(variable + [e], w) == VariableInRange(variable, w);
    FinanceMath.SumByConcat(fixed, [f], FinanceMath.FixedAmountOf);
    FinanceMath.SumBySingle(f, FinanceMath.FixedAmountOf);
  }

  // ---------------------------------------------------------------- credits and accumulation

  /** One `map.set(key, (map.get(key) || 0) + value)` step. */
  datatype Credit = Credit(key: string, value: real)

  /** `topClients`' credits: each in-range income credits its client with `Number(amount) || 0`. */
  function ClientCredits(incomes: seq<Income>): (r: seq<Credit>)
    ensures |r| == |incomes|
    ensures forall k :: 0 <= k < |r| ==> r[k] == Credit(incomes[k].clientId, OrZero(incomes[k].amount))
  {
    seq(|incomes|, k requires 0 <= k < |incomes| => Credit(incomes[k].clientId, OrZero(incomes[k].amount)))
  }

  /**
   * `topEmployees`' credits for one income: every array entry credits its employee with
   * the full `Number(profit) || 0`; a legacy record credits its `employeeId`; else nobody.
   */
  function IncomeEmployeeCredits(i: Income): (r: seq<Credit>)
    ensures i.employees.Some? ==> (|r| == |i.employees.value| &&
              forall k :: 0 <= k < |r| ==> r[k] == Credit(i.employees.value[k].employeeId, OrZero(i.profit)))
    ensures i.employees.None? && i.employeeId != "" ==> r == [Credit(i.employeeId, OrZero(i.profit))]
    ensures i.employees.None? && i.employeeId == "" ==> r == []
  {
    match i.employees
    case Some(entries) =>
      seq(|entries|, k requires 0 <= k < |entries| => Credit(entries[k].employeeId, OrZero(i.profit)))
    case None =>
      if i.employeeId != "" then [Credit(i.employeeId, OrZero(i.profit))] else []
  }

  /** The credits of all in-range incomes, in `forEach` order. */
  function EmployeeCredits(incomes: seq<Income>): seq<Credit>
  {
    if incomes == [] then []
    else EmployeeCredits(incomes[..|incomes| - 1]) + IncomeEmployeeCredits(incomes[|incomes| - 1])
  }

  /** Distinct keys in first-encounter order, as `Map` keeps its insertion order. */
  function KeysOf(credits: seq<Credit>): seq<string>
  {
    if credits == [] then []
    else
      var keys := KeysOf(credits[..|credits| - 1]);
      var last := credits[|credits| - 1].key;
      if last in keys then keys else keys + [last]
  }

  /** The map after every `set`. */
  function TotalsMap(credits: seq<Credit>): map<string, real>
  {
    if credits == [] then map[]
    else
      var m := TotalsMap(credits[..|credits| - 1]);
      var c := credits[|credits| - 1];
      m[c.key := (if c.key in m then m[c.key] else 0.0) + c.value]
  }

  /** Reference definition: the sum of the values credited to `key`. */
  function TotalFor(credits: seq<Credit>, key: string): real
  {
    if credits == [] then 0.0
    else
      var c := credits[|credits| - 1];
      TotalFor(credits[..|credits| - 1], key) + (if c.key == key then c.value else 0.0)
  }

  /** The sum of all credited values. */
  function CreditSum(credits: seq<Credit>): real
  {
    if credits == [] then 0.0 else CreditSum(credits[..|credits| - 1]) + credits[|credits| - 1].value
  }

  predicate Distinct(keys: seq<string>)
  {
    forall i, j :: 0 <= i < j < |keys| ==> keys[i] != keys[j]
  }

  /** The sum of `m[k]` over a list of keys. */
  function SumOver(keys: seq<string>, m: map<string, real>): real
    requires forall k :: k in keys ==> k in m
  {
    if keys == [] then 0.0 else SumOver(keys[..|keys| - 1], m) + m[keys[|keys| - 1]]
  }

  /**
   * One entry per distinct key, in first-encounter order; each entry's value is the
   * sum of that key's credits.
   */
  lemma {:induction false} AccumulationSpec(credits: seq<Credit>)
    ensures Distinct(KeysOf(credits))
    ensures forall k :: k in KeysOf(credits) <==> k in TotalsMap(credits)
    ensures forall k :: k in TotalsMap(credits) <==> exists c :: c in credits && c.key == k
    ensures forall k :: k in TotalsMap(credits) ==> TotalsMap(credits)[k] == TotalFor(credits, k)
    ensures forall k :: k !in TotalsMap(credits) ==> TotalFor(credits, k) == 0.0
    decreases |credits|
  {
    if credits != [] {
      var prefix := credits[..|credits| - 1];
      var c := credits[|credits| - 1];
      AccumulationSpec(prefix);
      assert forall x :: x in credits <==> x in prefix || x == c by {
        assert credits == prefix + [c];
      }
    }
  }

  lemma {:induction false} SumOverUnchanged(keys: seq<string>, m: map<string, real>, k: string, v: real)
    requires forall x :: x in keys ==> x in m
    requires k !in keys
    ensures SumOver(keys, m[k := v]) == SumOver(keys, m)
    decreases |keys|
  {
    if keys != [] {
      SumOverUnchanged(keys[..|keys| - 1], m, k, v);
    }
  }

  lemma {:induction false} SumOverBump(keys: seq<string>, m: map<string, real>, k: string, d: real)
    requires forall x :: x in keys ==> x in m
    requires Distinct(keys) && k in keys
    ensures SumOver(keys, m[k := m[k] + d]) == SumOver(keys, m) + d
    decreases |keys|
  {
    var prefix := keys[..|keys| - 1];
    var last := keys[|keys| - 1];
    if last == k {
      assert k !in prefix;
      SumOverUnchanged(prefix, m, k, m[k] + d);
    } else {
      assert k in prefix by {
        var j :| 0 <= j < |keys| && keys[j] == k;
        assert prefix[j] == k;
      }
      SumOverBump(prefix, m, k, d);
    }
  }

  /** The keys listed are exactly the keys in the map, each once. */
  lemma {:induction false} KeysMatchMap(credits: seq<Credit>)
    ensures Distinct(KeysOf(credits))
    ensures forall k :: k in KeysOf(credits) <==> k in TotalsMap(credits)
  {
    AccumulationSpec(credits);
  }

  /** One `map.set` step adds its value to the sum over the keys. */
  lemma {:induction false} SumStep(keys: seq<string>, m: map<string, real>, c: Credit, keys': seq<string>, m': map<string, real>)
    requires Distinct(keys)
    requires forall k :: k in keys <==> k in m
    requires keys' == if c.key in keys then keys else keys + [c.key]
    requires m' == m[c.key := (if c.key in m then m[c.key] else 0.0) + c.value]
    ensures forall k :: k in keys' ==> k in m'
    ensures SumOver(keys', m') == SumOver(keys, m) + c.value
  {
    if c.key in keys {
      assert c.key in m;
      SumOverBump(keys, m, c.key, c.value);
    } else {
      assert c.key !in m;
      SumOverAppend(keys, m, c.key, 0.0 + c.value);
    }
  }

  /** A new key appended with its value adds that value to the sum. */
  lemma {:induction false} SumOverAppend(keys: seq<string>, m: map<string, real>, k: string, v: real)
    requires forall x :: x in keys ==> x in m
    requires k !in keys
    ensures forall x :: x in keys + [k] ==> x in m[k := v]
    ensures SumOver(keys + [k], m[k := v]) == SumOver(keys, m) + v
  {
    SumOverUnchanged(keys, m, k, v);
    assert (keys + [k])[..|keys|] == keys;
  }

  /** One more credit: the keys, the map and the sum after it. */
  lemma {:induction false} CreditStep(credits: seq<Credit>)
    requires credits != []
    ensures var prefix := credits[..|credits| - 1];
            var c := credits[|credits| - 1];
            && KeysOf(credits) == (if c.key in KeysOf(prefix) then KeysOf(prefix) else KeysOf(prefix) + [c.key])
            && TotalsMap(credits) == TotalsMap(prefix)[c.key := (if c.key in TotalsMap(prefix) then TotalsMap(prefix)[c.key] else 0.0) + c.value]
            && CreditSum(credits) == CreditSum(prefix) + c.value
  {
  }

  /** The accumulated values add up to the sum of all credits. */
  lemma {:induction false} AccumulatedSum(credits: seq<Credit>)
    ensures forall k :: k in KeysOf(credits) ==> k in TotalsMap(credits)
    ensures SumOver(KeysOf(credits), TotalsMap(credits)) == CreditSum(credits)
    decreases |credits|
  {
    KeysMatchMap(credits);
    if credits != [] {
      var prefix := credits[..|credits| - 1];
      AccumulatedSum(prefix);
      KeysMatchMap(prefix);
      CreditStep(credits);
      SumStep(KeysOf(prefix), TotalsMap(prefix), credits[|credits| - 1], KeysOf(credits), TotalsMap(credits));
    }
  }

  /** `incomesInRange.forEach(... map.set ...)`: the Map's keys in insertion order and its contents. */
  method Accumulate(credits: seq<Credit>) returns (keys: seq<string>, totals: map<string, real>)
    ensures keys == KeysOf(credits) && totals == TotalsMap(credits)
  {
    keys := [];
    totals := map[];
    var n := 0;
    while n < |credits|
      invariant 0 <= n <= |credits|
      invariant keys == KeysOf(credits[..n]) && totals == TotalsMap(credits[..n])
    {
      var c := credits[n];
      assert credits[..n + 1][..n] == credits[..n];
      var previous := if c.key in totals then totals[c.key] else 0.0;
      if c.key !in keys {
        keys := keys + [c.key];
      }
      totals := totals[c.key := previous + c.value];
      n := n + 1;
    }
    assert credits[..n] == credits;
  }

  /** The client totals add up to the period's income-amount total. */
  lemma {:induction false} ClientCreditsTotal(incomes: seq<Income>)
    ensures CreditSum(ClientCredits(incomes)) == FinanceMath.SumBy(incomes, FinanceMath.IncomeAmountOf)
    decreases |incomes|
  {
    if incomes != [] {
      var prefix := incomes[..|incomes| - 1];
      assert ClientCredits(incomes)[..|incomes| - 1] == ClientCredits(prefix);
      ClientCreditsTotal(prefix);
    }
  }

  /** Two entries for the same employee in one record credit it twice. */
  lemma {:induction false} DuplicateEntryCreditsTwice(i: Income, p: Payout)
    requires i.employees == Some([p, p])
    ensures TotalFor(IncomeEmployeeCredits(i), p.employeeId) == 2.0 * OrZero(i.profit)
  {
    var c := Credit(p.employeeId, OrZero(i.profit));
    var cs := IncomeEmployeeCredits(i);
    assert cs == [c, c];
    assert cs[..1] == [c];
    assert [c][..0] == [];
    assert TotalFor([c], p.employeeId) == c.value;
    assert TotalFor(cs, p.employeeId) == TotalFor([c], p.employeeId) + c.value;
  }

  // ---------------------------------------------------------------- ranking

  /** A ranked row: the label shown and the accumulated figure. */
  datatype Ranked = Ranked(name: string, value: real)

  /** `state.clients.find(...)?.name || "Без клиента"`. */
  function ClientLabel(clients: seq<Client>, id: string): (r: string)
    ensures FindClient(clients, id).None? ==> r == "Без клиента"
    ensures FindClient(clients, id).Some? && FindClient(clients, id).value.name != "" ==> r == FindClient(clients, id).value.name
    ensures FindClient(clients, id).Some? && FindClient(clients, id).value.name == "" ==> r == "Без клиента"
    ensures r != ""
  {
    match FindClient(clients, id)
    case Some(c) => if c.name != "" then c.name else "Без клиента"
    case None => "Без клиента"
  }

  /** `state.employees.find(...)?.fullName || "Без исполнителя"`. */
  function EmployeeLabel(roster: seq<Employee>, id: string): (r: string)
    ensures FindEmployee(roster, id).None? ==> r == "Без исполнителя"
    ensures FindEmployee(roster, id).Some? && FindEmployee(roster, id).value.fullName != "" ==> r == FindEmployee(roster, id).value.fullName
    ensures FindEmployee(roster, id).Some? && FindEmployee(roster, id).value.fullName == "" ==> r == "Без исполнителя"
    ensures r != ""
  {
    match FindEmployee(roster, id)
    case Some(e) => if e.fullName != "" then e.fullName else "Без исполнителя"
    case None => "Без исполнителя"
  }

  predicate SortedDesc(rows: seq<Ranked>)
  {
    forall i, j :: 0 <= i < j < |rows| ==> rows[i].value >= rows[j].value
  }

  /**
   * Insert before the first row whose value is not greater: the new row goes ahead of the
   * rows of equal value already in the list (which `SortDesc` has taken from later in its input).
   */
  function Insert(x: Ranked, rows: seq<Ranked>): (r: seq<Ranked>)
    ensures |r| == |rows| + 1
  {
    if rows == [] || rows[0].value <= x.value then [x] + rows
    else [rows[0]] + Insert(x, rows[1..])
  }

  /**
   * `.sort((a, b) => b.value - a.value)`, a stable descending sort (stability is
   * `SortDescStable`): a non-increasing permutation of its input.
   */
  function SortDesc(rows: seq<Ranked>): (r: seq<Ranked>)
    ensures SortedDesc(r)
    ensures multiset(r) == multiset(rows)
    ensures |r| == |rows|
  {
    if rows == [] then []
    else
      var rest := SortDesc(rows[1..]);
      InsertSorted(rows[0], rest);
      InsertPermutes(rows[0], rest);
      assert rows == [rows[0]] + rows[1..];
      Insert(rows[0], rest)
  }

  /** The rows that carry one given value, in their order. */
  function WithValue(rows: seq<Ranked>, v: real): seq<Ranked>
  {
    Seqs.Filter(rows, (r: Ranked) => r.value == v)
  }

  lemma {:induction false} InsertPermutes(x: Ranked, rows: seq<Ranked>)
    ensures multiset(Insert(x, rows)) == multiset(rows) + multiset{x}
    decreases |rows|
  {
    if rows != [] && rows[0].value > x.value {
      InsertPermutes(x, rows[1..]);
      assert rows == [rows[0]] + rows[1..];
    }
  }

  lemma {:induction false} InsertSorted(x: Ranked, rows: seq<Ranked>)
    requires SortedDesc(rows)
    ensures SortedDesc(Insert(x, rows))
    decreases |rows|
  {
    if rows != [] && rows[0].value > x.value {
      InsertSorted(x, rows[1..]);
      var ins := Insert(x, rows[1..]);
      InsertBounded(x, rows[1..], rows[0].value);
      var r := [rows[0]] + ins;
      forall i, j | 0 <= i < j < |r|
        ensures r[i].value >= r[j].value
      {
        assert r[j] == ins[j - 1];
        if 0 < i {
          assert r[i] == ins[i - 1];
        }
      }
    } else {
      var r := [x] + rows;
      forall i, j | 0 <= i < j < |r|
        ensures r[i].value >= r[j].value
      {
        assert r[j] == rows[j - 1];
        if 0 < i {
          assert r[i] == rows[i - 1];
        } else if 1 < j {
          assert rows[0].value >= rows[j - 1].value;
        }
      }
    }
  }

  /** Inserting a row no greater than a bound into rows no greater than it keeps every row under it. */
  lemma {:induction false} InsertBounded(x: Ranked, rows: seq<Ranked>, bound: real)
    requires x.value <= bound
    requires forall i :: 0 <= i < |rows| ==> rows[i].value <= bound
    ensures forall i :: 0 <= i < |Insert(x, rows)| ==> Insert(x, rows)[i].value <= bound
    decreases |rows|
  {
    if rows != [] && rows[0].value > x.value {
      InsertBounded(x, rows[1..], bound);
      var ins := Insert(x, rows[1..]);
      forall i | 0 <= i < |Insert(x, rows)|
        ensures Insert(x, rows)[i].value <= bound
      {
        if 0 < i {
          assert Insert(x, rows)[i] == ins[i - 1];
        }
      }
    } else {
      forall i | 0 <= i < |Insert(x, rows)|
        ensures Insert(x, rows)[i].value <= bound
      {
        if 0 < i {
          assert Insert(x, rows)[i] == rows[i - 1];
        }
      }
    }
  }

  /** Among the rows of any one value, the inserted row comes first and the others keep their order. */
  lemma {:induction false} InsertStable(x: Ranked, rows: seq<Ranked>, v: real)
    ensures WithValue(Insert(x, rows), v) == if x.value == v then [x] + WithValue(rows, v) else WithValue(rows, v)
    decreases |rows|
  {
    if rows != [] && rows[0].value > x.value {
      InsertStable(x, rows[1..], v);
      var ins := Insert(x, rows[1..]);
      var head := if rows[0].value == v then [rows[0]] else [];
      assert ([rows[0]] + ins)[1..] == ins;
      assert WithValue(Insert(x, rows), v) == head + WithValue(ins, v);
      assert WithValue(rows, v) == head + WithValue(rows[1..], v);
      if x.value == v {
        assert head == [];
      }
    } else {
      assert ([x] + rows)[1..] == rows;
    }
  }

  /** The sort is stable: rows with equal values keep their relative order. */
  lemma {:induction false} SortDescStable(rows: seq<Ranked>, v: real)
    ensures WithValue(SortDesc(rows), v) == WithValue(rows, v)
    decreases |rows|
  {
    if rows != [] {
      SortDescStable(rows[1..], v);
      InsertStable(rows[0], SortDesc(rows[1..]), v);
    }
  }

  /** `.slice(0, 5)`: the first five rows, or all of them when there are fewer. */
  function Top5(rows: seq<Ranked>): (r: seq<Ranked>)
    ensures |r| == if |rows| < 5 then |rows| else 5
    ensures r <= rows
    ensures multiset(r) <= multiset(rows)
  {
    if |rows| <= 5 then rows
    else
      assert rows == rows[..5] + rows[5..];
      rows[..5]
  }

  /** The rows of a prefix that carry a value are a prefix of the rows that carry it. */
  lemma {:induction false} PrefixWithValue(rows: seq<Ranked>, n: int, v: real)
    requires 0 <= n <= |rows|
    ensures WithValue(rows[..n], v) <= WithValue(rows, v)
  {
    assert rows == rows[..n] + rows[n..];
    Seqs.FilterConcat(rows[..n], rows[n..], (r: Ranked) => r.value == v);
  }

  /** One row per accumulated key, labelled, in key order. */
  function RowsOf(keys: seq<string>, totals: map<string, real>, labels: map<string, string>): (r: seq<Ranked>)
    requires forall k :: k in keys ==> k in totals && k in labels
    ensures |r| == |keys|
    ensures forall i :: 0 <= i < |keys| ==> r[i] == Ranked(labels[keys[i]], totals[keys[i]])
  {
    seq(|keys|, i requires 0 <= i < |keys| => Ranked(labels[keys[i]], totals[keys[i]]))
  }

  /** The label of every client key. */
  function ClientLabels(keys: seq<string>, clients: seq<Client>): (m: map<string, string>)
    ensures forall k :: k in keys ==> k in m && m[k] == ClientLabel(clients, k)
  {
    map k | k in keys :: ClientLabel(clients, k)
  }

  /** The label of every employee key. */
  function EmployeeLabels(keys: seq<string>, roster: seq<Employee>): (m: map<string, string>)
    ensures forall k :: k in keys ==> k in m && m[k] == EmployeeLabel(roster, k)
  {
    map k | k in keys :: EmployeeLabel(roster, k)
  }

  /** `Array.from(map.entries()).map(...)`: one labelled row per key, in first-seen order. */
  function RowsFor(credits: seq<Credit>, labels: map<string, string>): (r: seq<Ranked>)
    requires forall k :: k in KeysOf(credits) ==> k in labels
    ensures |r| == |KeysOf(credits)|
    ensures forall i :: 0 <= i < |r| ==> r[i] == Ranked(labels[KeysOf(credits)[i]], TotalFor(credits, KeysOf(credits)[i]))
  {
    AccumulationSpec(credits);
    RowsOf(KeysOf(credits), TotalsMap(credits), labels)
  }

  /**
   * The ranked list of `topClients` or `topEmployees`: five rows, or one per key when
   * there are fewer, in non-increasing order, none used more often than the keys give it.
   */
  function Ranking(credits: seq<Credit>, labels: map<string, string>): (r: seq<Ranked>)
    requires forall k :: k in KeysOf(credits) ==> k in labels
    ensures |r| == if |KeysOf(credits)| < 5 then |KeysOf(credits)| else 5
    ensures SortedDesc(r)
    ensures multiset(r) <= multiset(RowsFor(credits, labels))
  {
    Top5(SortDesc(RowsFor(credits, labels)))
  }

  /** Each ranked row is a key's label with the sum of that key's credits. */
  lemma {:induction false} RankingSpec(credits: seq<Credit>, labels: map<string, string>)
    requires forall k :: k in KeysOf(credits) ==> k in labels
    ensures forall r :: r in Ranking(credits, labels) ==>
              exists k :: k in KeysOf(credits) && r == Ranked(labels[k], TotalFor(credits, k))
  {
    var keys := KeysOf(credits);
    var rows := RowsFor(credits, labels);
    forall r | r in Ranking(credits, labels)
      ensures exists k :: k in keys && r == Ranked(labels[k], TotalFor(credits, k))
    {
      assert r in multiset(rows);
      var i :| 0 <= i < |rows| && rows[i] == r;
      assert keys[i] in keys;
    }
  }

  /** The ranking is the top five: a key left out has a total no greater than the fifth row's. */
  lemma {:induction false} RankingTopN(credits: seq<Credit>, labels: map<string, string>)
    requires forall k :: k in KeysOf(credits) ==> k in labels
    ensures forall k :: k in KeysOf(credits) ==>
              Ranked(labels[k], TotalFor(credits, k)) in Ranking(credits, labels)
              || (|Ranking(credits, labels)| == 5 && TotalFor(credits, k) <= Ranking(credits, labels)[4].value)
  {
    var keys := KeysOf(credits);
    var rows := RowsFor(credits, labels);
    var sorted := SortDesc(rows);
    var top := Ranking(credits, labels);
    forall k | k in keys
      ensures Ranked(labels[k], TotalFor(credits, k)) in top || (|top| == 5 && TotalFor(credits, k) <= top[4].value)
    {
      var i :| 0 <= i < |keys| && keys[i] == k;
      assert rows[i] in multiset(sorted);
      var j :| 0 <= j < |sorted| && sorted[j] == rows[i];
      if j < |top| {
        assert top[j] == sorted[j];
      } else {
        assert top == sorted[..5];
        assert sorted[4].value >= sorted[j].value;
      }
    }
  }

  /** Rows with equal totals are ranked in the order their keys were first credited. */
  lemma {:induction false} RankingTies(credits: seq<Credit>, labels: map<string, string>, v: real)
    requires forall k :: k in KeysOf(credits) ==> k in labels
    ensures WithValue(Ranking(credits, labels), v) <= WithValue(RowsFor(credits, labels), v)
  {
    var sorted := SortDesc(RowsFor(credits, labels));
    SortDescStable(RowsFor(credits, labels), v);
    PrefixWithValue(sorted, |Ranking(credits, labels)|, v);
    assert Ranking(credits, labels) == sorted[..|Ranking(credits, labels)|];
  }

  /** `topClients`. */
  method TopClients(inRange: seq<Income>, clients: seq<Client>) returns (top: seq<Ranked>)
    ensures var credits := ClientCredits(inRange);
            top == Ranking(credits, ClientLabels(KeysOf(credits), clients))
  {
    var credits := ClientCredits(inRange);
    var keys, totals := Accumulate(credits);
    AccumulationSpec(credits);
    top := Top5(SortDesc(RowsOf(keys, totals, ClientLabels(keys, clients))));
  }

  /** `topEmployees`. */
  method TopEmployees(inRange: seq<Income>, roster: seq<Employee>) returns (top: seq<Ranked>)
    ensures var credits := EmployeeCredits(inRange);
            top == Ranking(credits, EmployeeLabels(KeysOf(credits), roster))
  {
    var credits := EmployeeCredits(inRange);
    var keys, totals := Accumulate(credits);
    AccumulationSpec(credits);
    top := Top5(SortDesc(RowsOf(keys, totals, EmployeeLabels(keys, roster))));
  }
}
