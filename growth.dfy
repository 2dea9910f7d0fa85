/** The growth-rate guard `calcular_cagr` (dashboard_analise.py:18-21). */
module Growth {
  import opened Payload

  /** A number produced by Python's `**` on floats: a real, or the complex
      number Python 3 returns for a negative base and a non-integral exponent. */
  datatype Num = Real(value: real) | Complex

  /** The real-valued power `pow(base, exponent)` is not computable here, so it
      is supplied by the caller as a function. */
  type PowerFn = (real, real) -> real

  /** Python's float `base ** exponent`: the real power for a non-negative
      base or an integral exponent, a complex number for a negative base and
      a fractional exponent. */
  function Power(base: real, exponent: real, pow: PowerFn): (r: Num)
    ensures base >= 0.0 ==> r == Real(pow(base, exponent))
    ensures exponent.Floor as real == exponent ==> r == Real(pow(base, exponent))
    ensures r.Complex? <==> base < 0.0 && exponent.Floor as real != exponent
  {
    if base < 0.0 && exponent.Floor as real != exponent then Complex else Real(pow(base, exponent))
  }

  /** `n - k` for a Python real or complex number: a complex number stays
      complex, and adding `k` back to a real difference gives `n`. */
  function Minus(n: Num, k: real): (r: Num)
    ensures r.Complex? <==> n.Complex?
    ensures n.Real? ==> r.value + k == n.value
  {
    match n
    case Real(x) => Real(x - k)
    case Complex => Complex
  }

  /** `1 / periods` is an integer only for one period. */
  lemma ReciprocalIntegral(periods: int)
    requires periods > 0
    ensures (1.0 / periods as real).Floor as real == 1.0 / periods as real <==> periods == 1
  {
  }

  /** Dividing by a positive number keeps the sign. */
  lemma QuotientSign(x: real, y: real)
    requires y > 0.0
    ensures x / y < 0.0 <==> x < 0.0
    ensures x / y > 1.0 <==> x > y
    ensures x / y >= 0.0 <==> x >= 0.0
  {
  }

  /** `calcular_cagr(valor_inicial, valor_final, periodos)`: the compound
      growth rate `(final / initial) ** (1 / periods) - 1`, or None when the
      guard rejects the inputs. The guard's `or` short-circuits, so an initial
      value that is not a number raises only when the final value is present,
      and a final value that is not a number raises only when the division is
      reached. */
  function Cagr(initial: Json, final: Json, periods: int, pow: PowerFn): (r: Outcome<Option<Num>>)
    // None exactly on the guard
    ensures r == Ok(None) <==>
              || initial.JNull?
              || final.JNull?
              || (IsNumber(initial) && (AsNumber(initial).value <= 0.0 || periods <= 0))
    // the TypeErrors of `<=` and `/`
    ensures r.Raise? <==>
              && !initial.JNull?
              && !final.JNull?
              && (!IsNumber(initial) || (AsNumber(initial).value > 0.0 && periods > 0 && !IsNumber(final)))
    // a rate is computed from a positive initial value over at least one period
    ensures r.Ok? && r.value.Some? ==>
              && periods >= 1
              && IsNumber(initial) && IsNumber(final) && AsNumber(initial).value > 0.0
              && (r.value.value.Complex? <==> AsNumber(final).value < 0.0 && periods >= 2)
              && (r.value.value.Real? ==>
                    r.value.value.value ==
                    pow(AsNumber(final).value / AsNumber(initial).value, 1.0 / periods as real) - 1.0)
  {
    if initial.JNull? || final.JNull? then Ok(None)
    else
      var nonPositive :- AtMost(initial, 0.0);
      if nonPositive || periods <= 0 then Ok(None)
      else
        match AsNumber(final)
        case None => Raise
        case Some(f) =>
          var i := AsNumber(initial).value;
          QuotientSign(f, i);
          ReciprocalIntegral(periods);
          Ok(Some(Minus(Power(f / i, 1.0 / periods as real, pow), 1.0)))
  }

  /** An unchanged positive value grows at rate zero, given `1 ** e == 1`. */
  lemma CagrUnchanged(x: real, periods: int, pow: PowerFn)
    requires x > 0.0 && periods > 0
    requires pow(1.0, 1.0 / periods as real) == 1.0
    ensures Cagr(JNum(x), JNum(x), periods, pow) == Ok(Some(Real(0.0)))
  {
    assert x / x == 1.0;
    ReciprocalIntegral(periods);
  }

  /** Over one period the rate is the relative change, given `b ** 1 == b`. */
  lemma CagrOnePeriod(initial: real, final: real, pow: PowerFn)
    requires initial > 0.0
    requires pow(final / initial, 1.0) == final / initial
    ensures Cagr(JNum(initial), JNum(final), 1, pow) == Ok(Some(Real(final / initial - 1.0)))
  {
  }

  /** Doubling over one period is 100% growth. */
  lemma CagrDoubling(pow: PowerFn)
    requires pow(2.0, 1.0) == 2.0
    ensures Cagr(JNum(100.0), JNum(200.0), 1, pow) == Ok(Some(Real(1.0)))
  {
  }

  /** The real roots behave as roots: for a non-negative base and a positive
      exponent, the power exceeds 1 exactly when the base does. */
  ghost predicate RootsOrdered(pow: PowerFn)
  {
    forall x: real, y: real :: 0.0 <= x && 0.0 < y ==> (pow(x, y) > 1.0 <==> x > 1.0)
  }

  /** For a positive initial and non-negative final value, the rate is a real
      number, and it is positive exactly when the value rose. */
  lemma CagrPositiveIffRise(initial: real, final: real, periods: int, pow: PowerFn)
    requires RootsOrdered(pow)
    requires initial > 0.0 && final >= 0.0 && periods > 0
    ensures Cagr(JNum(initial), JNum(final), periods, pow).Ok?
    ensures Cagr(JNum(initial), JNum(final), periods, pow).value.Some?
    ensures Cagr(JNum(initial), JNum(final), periods, pow).value.value.Real?
    ensures Cagr(JNum(initial), JNum(final), periods, pow).value.value.value > 0.0 <==> final > initial
  {
    QuotientSign(final, initial);
    ReciprocalIntegral(periods);
    var e := 1.0 / periods as real;
    assert e > 0.0;
    assert pow(final / initial, e) > 1.0 <==> final / initial > 1.0;
  }
}
