/** Validation of the free-text hour entry. `parseFloat` itself is not modelled; its
    result is one of the values below, and the validation chain applies JavaScript's
    truthiness and IEEE comparison rules to it. */
module Hours {

  /** What `parseFloat` can return: NaN (nothing parsable), an infinity (the text
      "Infinity" or "-Infinity", or a literal too large for a double, such as "1e400" or
      "-1e400") or a finite value. Negative zero is `Finite(0.0)`. */
  datatype ParsedNumber = NaN | PositiveInfinity | NegativeInfinity | Finite(value: real)

  /** `!hours` is true for NaN and for zero. */
  predicate Falsy(n: ParsedNumber) {
    n.NaN? || (n.Finite? && n.value == 0.0)
  }

  /** `hours <= 0`; every comparison with NaN is false. */
  predicate AtMostZero(n: ParsedNumber) {
    n.NegativeInfinity? || (n.Finite? && n.value <= 0.0)
  }

  /** `hours > 24`; every comparison with NaN is false. */
  predicate Above24(n: ParsedNumber) {
    n.PositiveInfinity? || (n.Finite? && n.value > 24.0)
  }

  /** Which of the three re-prompts the chain picks, or the accepted number of hours. */
  datatype HourCheck = NotNumeric | NotMoreThanZero | MoreThan24 | Accepted(hours: real)

  /** The ordered validation chain of the hour-input route. Zero is caught by the first
      test, so it gets the "valid numeric" prompt rather than the "more than 0" one. */
  function ValidateHours(n: ParsedNumber): (r: HourCheck)
    ensures r.Accepted? <==> n.Finite? && 0.0 < n.value <= 24.0
    ensures r.Accepted? ==> r.hours == n.value
    ensures r.NotNumeric? <==> n == NaN || n == Finite(0.0)
    ensures r.NotMoreThanZero? <==> n == NegativeInfinity || (n.Finite? && n.value < 0.0)
    ensures r.MoreThan24? <==> n == PositiveInfinity || (n.Finite? && n.value > 24.0)
  {
    if Falsy(n) then NotNumeric
    else if AtMostZero(n) then NotMoreThanZero
    else if Above24(n) then MoreThan24
    else Accepted(n.value)
  }
}
