/** `calculateProfit` and `sumBy` (src/utils/math.js). */
module FinanceMath {
  import opened Js
  import opened Wrappers
  import opened Records
  import Seqs

  /** `items.reduce((acc, item) => acc + (Number(selector(item)) || 0), 0)`, folded from the left. */
  function SumBy<T>(items: seq<T>, selector: T -> Value): (r: real)
    ensures items == [] ==> r == 0.0
  {
    if items == [] then 0.0
    else SumBy(items[..|items| - 1], selector) + OrZero(selector(items[|items| - 1]))
  }

  /** `sumBy` is additive over concatenation. */
  lemma {:induction false} SumByConcat<T>(a: seq<T>, b: seq<T>, selector: T -> Value)
    ensures SumBy(a + b, selector) == SumBy(a, selector) + SumBy(b, selector)
    decreases |b|
  {
    if b == [] {
      assert a + b == a;
    } else {
      var b' := b[..|b| - 1];
      assert (a + b)[..|a + b| - 1] == a + b';
      SumByConcat(a, b', selector);
    }
  }

  /** A one-element list sums to that element's coerced value. */
  lemma {:induction false} SumBySingle<T>(x: T, selector: T -> Value)
    ensures SumBy([x], selector) == OrZero(selector(x))
  {
    assert [x][..0] == [];
  }

  /**
   * Summing a filtered list is summing the whole list with every rejected item's value
   * read as `undefined`, which coerces to 0.
   */
  lemma {:induction false} SumByFilter<T(!new)>(items: seq<T>, p: T -> bool, selector: T -> Value, masked: T -> Value)
    requires forall x :: masked(x) == if p(x) then selector(x) else Undef
    ensures SumBy(Seqs.Filter(items, p), selector) == SumBy(items, masked)
    decreases |items|
  {
    if items != [] {
      var x := items[0];
      var kept := if p(x) then [x] else [];
      assert items == [x] + items[1..];
      SumByFilter(items[1..], p, selector, masked);
      SumByConcat([x], items[1..], masked);
      SumBySingle(x, masked);
      SumByConcat(kept, Seqs.Filter(items[1..], p), selector);
      if p(x) {
        SumBySingle(x, selector);
      }
    }
  }

  /** An element whose selected value is not numeric adds nothing to the sum. */
  lemma {:induction false} SumByNonNumeric<T>(a: seq<T>, x: T, b: seq<T>, selector: T -> Value)
    requires ToNumber(selector(x)).NaN?
    ensures SumBy(a + [x] + b, selector) == SumBy(a + b, selector)
  {
    SumByConcat(a + [x], b, selector);
    SumByConcat(a, [x], selector);
    SumByConcat(a, b, selector);
    SumBySingle(x, selector);
  }

  /** The payout of one employee entry, as the reducers read it. */
  function PayoutAmountOf(p: Payout): Value
  {
    p.payoutAmount
  }

  /** An income's `amount`, as the page totals select it. */
  function IncomeAmountOf(i: Income): Value
  {
    i.amount
  }

  /** An income's stored `profit`. */
  function IncomeProfitOf(i: Income): Value
  {
    i.profit
  }

  /** A variable expense's `amount`. */
  function VariableAmountOf(e: VariableExpense): Value
  {
    e.amount
  }

  /** A fixed expense's `amount`. */
  function FixedAmountOf(e: FixedExpense): Value
  {
    e.amount
  }

  /** `employees.reduce((sum, emp) => sum + (Number(emp.payoutAmount) || 0), 0)`. */
  function PayoutTotal(entries: seq<Payout>): real
  {
    SumBy(entries, PayoutAmountOf)
  }

  /** The payouts a record subtracts: its `employees` array, or else the legacy `employeePayouts`. */
  function EmployeePayouts(income: Income): real
  {
    match income.employees
    case Some(entries) => PayoutTotal(entries)
    case None => OrZero(income.employeePayouts)
  }

  /**
   * `calculateProfit(income)`: the coerced amount less the coerced tax, NP and internal
   * costs, less the payouts of the `employees` array, or, for a record without one, less
   * the coerced legacy `employeePayouts`.
   */
  function CalculateProfit(income: Income): (r: real)
    ensures income.employees.Some? ==>
              r == OrZero(income.amount) - OrZero(income.taxAmount) - OrZero(income.npAmount)
                   - OrZero(income.internalCosts) - PayoutTotal(income.employees.value)
    ensures income.employees.None? ==>
              r == OrZero(income.amount) - OrZero(income.taxAmount) - OrZero(income.npAmount)
                   - OrZero(income.internalCosts) - OrZero(income.employeePayouts)
  {
    OrZero(income.amount) - OrZero(income.taxAmount) - OrZero(income.npAmount)
      - OrZero(income.internalCosts) - EmployeePayouts(income)
  }

  /** With an `employees` array, the legacy `employeePayouts` field is ignored. */
  lemma {:induction false} ProfitIgnoresLegacyPayouts(income: Income, legacy: Value)
    requires income.employees.Some?
    ensures CalculateProfit(income.(employeePayouts := legacy)) == CalculateProfit(income)
  {
  }

  /** Without an array, the coerced legacy `employeePayouts` is subtracted instead. */
  lemma {:induction false} ProfitLegacyPayouts(income: Income)
    requires income.employees.None?
    ensures CalculateProfit(income) == CalculateProfit(income.(employeePayouts := Undef)) - OrZero(income.employeePayouts)
  {
  }

  /** Each added employee entry subtracts its own coerced payout, so a duplicate subtracts twice. */
  lemma {:induction false} ProfitWithExtraEntry(income: Income, entries: seq<Payout>, extra: seq<Payout>)
    requires income.employees == Some(entries)
    ensures CalculateProfit(income.(employees := Some(entries + extra)))
            == CalculateProfit(income) - PayoutTotal(extra)
  {
    SumByConcat(entries, extra, PayoutAmountOf);
  }

  /** An entry listed twice is subtracted twice: there is no deduplication. */
  lemma {:induction false} ProfitDuplicateEntry(income: Income, entries: seq<Payout>, e: Payout)
    requires income.employees == Some(entries)
    ensures CalculateProfit(income.(employees := Some(entries + [e, e])))
            == CalculateProfit(income) - 2.0 * OrZero(e.payoutAmount)
  {
    ProfitWithExtraEntry(income, entries, [e, e]);
    SumByConcat([e], [e], PayoutAmountOf);
    SumBySingle(e, PayoutAmountOf);
    assert [e] + [e] == [e, e];
  }

  /** An empty `employees` array subtracts nothing. */
  lemma {:induction false} ProfitEmptyEmployees(income: Income)
    requires income.employees == Some([])
    ensures CalculateProfit(income)
            == OrZero(income.amount) - OrZero(income.taxAmount) - OrZero(income.npAmount) - OrZero(income.internalCosts)
  {
  }

  /** A record with no tax, NP, internal costs or employees has its coerced amount as profit. */
  lemma {:induction false} ProfitOfBareRecord(income: Income)
    requires income.taxAmount == Undef && income.npAmount == Undef && income.internalCosts == Undef
    requires income.employees.None? && income.employeePayouts == Undef
    ensures CalculateProfit(income) == OrZero(income.amount)
  {
  }

  /** A non-numeric cost field counts as 0, exactly as an absent one. */
  lemma {:induction false} ProfitNonNumericCosts(income: Income, tax: Value, np: Value, costs: Value)
    requires ToNumber(tax).NaN? && ToNumber(np).NaN? && ToNumber(costs).NaN?
    ensures CalculateProfit(income.(taxAmount := tax, npAmount := np, internalCosts := costs))
            == OrZero(income.amount) - EmployeePayouts(income)
  {
  }
}
