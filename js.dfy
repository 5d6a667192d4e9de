/**
 * The JavaScript values the finance records carry, and the two coercion idioms the
 * code uses on them: `Number(x) || 0` (NaN collapses to 0) and `Number(x || 0)`
 * (only a falsy value becomes 0; a non-numeric string stays NaN).
 */
module Js {

  /** A JavaScript number: NaN or a finite value. Infinities are not part of this model. */
  datatype Number = NaN | Fin(r: real)

  /** The field values found in stored records and form state. */
  datatype Value = Undef | Null | Bool(b: bool) | Num(n: Number) | Str(s: string)

  /** JavaScript truthiness: undefined, null, false, NaN, 0 and "" are falsy. */
  predicate Truthy(v: Value)
  {
    match v
    case Undef => false
    case Null => false
    case Bool(b) => b
    case Num(n) => n.Fin? && n.r != 0.0
    case Str(s) => s != ""
  }

  predicate IsDigit(c: char) { '0' <= c <= '9' }

  predicate IsSpace(c: char) { c == ' ' || c == '\t' || c == '\n' || c == '\r' }

  /** The string with leading and trailing white space removed. */
  function Trim(s: string): (r: string)
    ensures |r| <= |s|
    ensures r != [] ==> !IsSpace(r[0]) && !IsSpace(r[|r| - 1])
  {
    if s == [] then s
    else if IsSpace(s[0]) then Trim(s[1..])
    else if IsSpace(s[|s| - 1]) then Trim(s[..|s| - 1])
    else s
  }

  /** The number of leading decimal digits of `s`. */
  function DigitRun(s: string): (n: nat)
    ensures n <= |s|
    ensures forall i :: 0 <= i < n ==> IsDigit(s[i])
    ensures n < |s| ==> !IsDigit(s[n])
  {
    if s != [] && IsDigit(s[0]) then 1 + DigitRun(s[1..]) else 0
  }

  /** The value of a string of decimal digits. */
  function DigitsValue(s: string): (r: real)
    requires forall i :: 0 <= i < |s| ==> IsDigit(s[i])
    ensures r >= 0.0
  {
    if s == [] then 0.0
    else
      var prefix := DigitsValue(s[..|s| - 1]);
      assert IsDigit(s[|s| - 1]);
      prefix * 10.0 + ((s[|s| - 1] as int - '0' as int) as real)
  }

  function Pow10(n: nat): (r: real)
    ensures r >= 1.0
  {
    if n == 0 then 1.0 else 10.0 * Pow10(n - 1)
  }

  /** An unsigned decimal literal: digits, optionally a point and more digits, not both parts empty. */
  function ParseUnsigned(t: string): Number
  {
    var i := DigitRun(t);
    if i == |t| then (if i == 0 then NaN else Fin(DigitsValue(t)))
    else if t[i] != '.' then NaN
    else
      var frac := t[i + 1..];
      var j := DigitRun(frac);
      if j != |frac| || (i == 0 && j == 0) then NaN
      else Fin(DigitsValue(t[..i]) + DigitsValue(frac) / Pow10(j))
  }

  /**
   * `Number(s)` for a string: white space around the literal is ignored, an empty
   * or blank string is 0, a sign is allowed, anything else that is not a decimal
   * literal is NaN. Exponents, hexadecimal and "Infinity" are not part of this model.
   */
  function ParseNumber(s: string): (r: Number)
    ensures Trim(s) == "" ==> r == Fin(0.0)
  {
    var t := Trim(s);
    if t == "" then Fin(0.0)
    else if t[0] == '-' then Negate(ParseUnsigned(t[1..]))
    else if t[0] == '+' then ParseUnsigned(t[1..])
    else ParseUnsigned(t)
  }

  /** `Number(v)`. */
  function ToNumber(v: Value): (r: Number)
    ensures v.Num? ==> r == v.n
    ensures v.Undef? ==> r == NaN
  {
    match v
    case Undef => NaN
    case Null => Fin(0.0)
    case Bool(b) => Fin(if b then 1.0 else 0.0)
    case Num(n) => n
    case Str(s) => ParseNumber(s)
  }

  /** `Number(v) || 0`: the number `v` denotes, with NaN collapsed to 0; never NaN. */
  function OrZero(v: Value): (r: real)
    ensures ToNumber(v).NaN? ==> r == 0.0
    ensures ToNumber(v).Fin? ==> r == ToNumber(v).r
  {
    match ToNumber(v)
    case NaN => 0.0
    case Fin(x) => x
  }

  /** `Number(v || 0)`: a falsy value is 0, any other value is converted and may be NaN. */
  function NumberOrZero(v: Value): (r: Number)
    ensures !Truthy(v) ==> r == Fin(0.0)
    ensures Truthy(v) ==> r == ToNumber(v)
  {
    if Truthy(v) then ToNumber(v) else Fin(0.0)
  }

  /** `Number(v || 0)` is `Number(v) || 0` except that a truthy non-numeric value stays NaN. */
  lemma {:induction false} NumberOrZeroAgrees(v: Value)
    ensures NumberOrZero(v).Fin? ==> NumberOrZero(v).r == OrZero(v)
    ensures NumberOrZero(v).NaN? <==> Truthy(v) && ToNumber(v).NaN?
  {
  }

  // NaN-propagating arithmetic, as JavaScript's operators on numbers.

  function Negate(a: Number): Number
  {
    match a
    case NaN => NaN
    case Fin(x) => Fin(-x)
  }

  function Add(a: Number, b: Number): (r: Number)
    ensures r.NaN? <==> a.NaN? || b.NaN?
    ensures r.Fin? ==> r.r == a.r + b.r
  {
    if a.NaN? || b.NaN? then NaN else Fin(a.r + b.r)
  }

  function Sub(a: Number, b: Number): (r: Number)
    ensures r.NaN? <==> a.NaN? || b.NaN?
    ensures r.Fin? ==> r.r == a.r - b.r
  {
    if a.NaN? || b.NaN? then NaN else Fin(a.r - b.r)
  }

  function Mul(a: Number, b: Number): (r: Number)
    ensures r.NaN? <==> a.NaN? || b.NaN?
    ensures r.Fin? ==> r.r == a.r * b.r
  {
    if a.NaN? || b.NaN? then NaN else Fin(a.r * b.r)
  }

  /** Division by a non-zero constant (the code only divides by 100 and by `1 - t/100` with t < 100). */
  function Div(a: Number, d: real): (r: Number)
    requires d != 0.0
    ensures r.NaN? <==> a.NaN?
    ensures r.Fin? ==> r.r == a.r / d
  {
    if a.NaN? then NaN else Fin(a.r / d)
  }

  /** `v < k` for a numeric constant `k`: `v` is converted; NaN compares false. */
  predicate LessThan(v: Value, k: real)
  {
    ToNumber(v).Fin? && ToNumber(v).r < k
  }

  /** `v > k`. */
  predicate GreaterThan(v: Value, k: real)
  {
    ToNumber(v).Fin? && ToNumber(v).r > k
  }

  /** `v <= k`. */
  predicate AtMost(v: Value, k: real)
  {
    ToNumber(v).Fin? && ToNumber(v).r <= k
  }

  /** `v >= k`. */
  predicate AtLeast(v: Value, k: real)
  {
    ToNumber(v).Fin? && ToNumber(v).r >= k
  }

  /** A number stored as a JavaScript value. */
  function FromReal(x: real): (v: Value)
    ensures ToNumber(v) == Fin(x) && OrZero(v) == x
  {
    Num(Fin(x))
  }
}
