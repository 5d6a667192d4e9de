/** The gross-up calculator (src/routes/CalculatorPage.jsx). */
module Calculator {
  import opened Wrappers
  import opened Js

  /** The three figures the calculator shows. */
  datatype Calculation = Calculation(transferAmount: Number, taxAmount: Number, finalAmount: Number)

  /** The guard: both inputs non-empty, the amount above 0 and the percent strictly between 0 and 100. */
  predicate Accepts(amount: Value, taxPercent: Value)
  {
    !(!Truthy(amount) || !Truthy(taxPercent) || AtMost(amount, 0.0) || AtMost(taxPercent, 0.0) || AtLeast(taxPercent, 100.0))
  }

  /** `result`: the amount to transfer so that `amount` remains after `taxPercent` % is withheld. */
  function Compute(amount: Value, taxPercent: Value): (r: Option<Calculation>)
    ensures r.Some? <==> Accepts(amount, taxPercent)
    ensures r.Some? ==> r.value.finalAmount == ToNumber(amount)
  {
    if !Truthy(amount) || !Truthy(taxPercent) || AtMost(amount, 0.0) || AtMost(taxPercent, 0.0) || AtLeast(taxPercent, 100.0) then None
    else
      var a := ToNumber(amount);
      var t := ToNumber(taxPercent);
      var transfer := match t
        case NaN => NaN
        case Fin(p) => Div(a, 1.0 - p / 100.0);
      Some(Calculation(transfer, Sub(transfer, a), a))
  }

  /** For numeric inputs the result exists exactly when amount > 0 and 0 < taxPercent < 100. */
  lemma {:induction false} NumericGuard(x: real, p: real)
    ensures Compute(Num(Fin(x)), Num(Fin(p))).Some? <==> x > 0.0 && 0.0 < p < 100.0
  {
  }

  /**
   * For valid numeric inputs the transfer exceeds the amount, the tax is the transfer's
   * `taxPercent` %, and the transfer minus the tax is the amount received.
   */
  lemma {:induction false} GrossUp(x: real, p: real)
    requires x > 0.0 && 0.0 < p < 100.0
    ensures var c := Compute(Num(Fin(x)), Num(Fin(p))).value;
            && c.transferAmount.Fin? && c.taxAmount.Fin?
            && c.transferAmount.r > x
            && c.taxAmount.r == c.transferAmount.r * p / 100.0
            && c.transferAmount.r - c.taxAmount.r == c.finalAmount.r
            && c.finalAmount == Fin(x)
  {
    var d := 1.0 - p / 100.0;
    assert 0.0 < d < 1.0;
    var t := x / d;
    assert t * d == x;
    assert t > 0.0;
    assert t - x == t * (1.0 - d);
    assert t * (1.0 - d) > 0.0;
    assert t - x == t * p / 100.0 by {
      assert t - x == t - t * d;
    }
  }

  /** 100 000 at 7 % needs a transfer of 107 526.88…, as the page's explanation says. */
  lemma {:induction false} DocumentedExample()
    ensures var c := Compute(Num(Fin(100000.0)), Num(Fin(7.0))).value;
            c.transferAmount.Fin? && 107526.88 <= c.transferAmount.r < 107526.89
  {
    var t := 100000.0 / 0.93;
    assert t * 0.93 == 100000.0;
    assert 107526.88 * 0.93 < 100000.0;
    assert 107526.89 * 0.93 > 100000.0;
    GrossUp(100000.0, 7.0);
  }

  /** An empty field, a zero or negative amount, or a percent of 100 or more gives no result. */
  lemma {:induction false} Refusals(amount: Value, taxPercent: Value)
    ensures amount == Str("") || taxPercent == Str("") ==> Compute(amount, taxPercent).None?
    ensures taxPercent == Num(Fin(100.0)) ==> Compute(amount, taxPercent).None?
    ensures amount == Num(Fin(0.0)) ==> Compute(amount, taxPercent).None?
  {
  }
}
