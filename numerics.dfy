/**
 * IEEE `double` values as they arise in the metric formulas. Every finite double is
 * modelled by the exact real it denotes (rounding is not modelled); the non-finite
 * values (+Inf, -Inf, NaN), which the formulas produce when they divide by zero, are
 * collapsed into `NonFinite`.
 */
module Numerics {

  datatype Double = Finite(value: real) | NonFinite

  function Sub(a: Double, b: Double): Double {
    if a.Finite? && b.Finite? then Finite(a.value - b.value) else NonFinite
  }

  function Mul(a: Double, b: Double): Double {
    if a.Finite? && b.Finite? then Finite(a.value * b.value) else NonFinite
  }

  /** Division; a zero divisor yields an infinity or NaN in IEEE arithmetic. */
  function Div(a: Double, b: Double): (r: Double)
    ensures r.Finite? <==> a.Finite? && b.Finite? && b.value != 0.0
    ensures r.Finite? ==> r.value * b.value == a.value
  {
    if a.Finite? && b.Finite? && b.value != 0.0 then Finite(a.value / b.value) else NonFinite
  }

  /** `Math.Pow` and `Math.Sqrt`, whose numerics are not modelled. */
  datatype FloatOracles = FloatOracles(pow: (Double, Double) -> Double, sqrt: Double -> Double)
}
