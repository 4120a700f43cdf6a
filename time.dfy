/**
 * Swift's `TimeInterval` (a Double) and the two conversions the player applies to it:
 * `Int(x)`, which truncates toward zero, and `truncatingRemainder(dividingBy:)`.
 * Infinities are not modelled; NaN is, because the engine reports NaN seconds for a
 * duration it does not know yet.
 */
module Time {

  datatype TimeInterval = NaN | Finite(value: real)

  /** `Int(x)` for a finite `x`: rounds toward zero. */
  function Trunc(x: real): (n: int)
    ensures 0.0 <= x ==> n as real <= x < n as real + 1.0
    ensures x < 0.0 ==> n as real - 1.0 < x <= n as real
  {
    if x >= 0.0 then x.Floor else -((-x).Floor)
  }

  /** `x.truncatingRemainder(dividingBy: y)`: the remainder whose sign follows `x`. */
  function TruncatingRemainder(x: real, y: real): real
    requires y != 0.0
  {
    x - y * Trunc(x / y) as real
  }

  /** IEEE addition: NaN absorbs everything. */
  function Add(a: TimeInterval, b: TimeInterval): TimeInterval
  {
    if a.NaN? || b.NaN? then NaN else Finite(a.value + b.value)
  }

  function Mul(a: TimeInterval, b: TimeInterval): TimeInterval
  {
    if a.NaN? || b.NaN? then NaN else Finite(a.value * b.value)
  }

  /** Division by a non-zero constant. */
  function Div(a: TimeInterval, d: real): TimeInterval
    requires d != 0.0
  {
    if a.NaN? then NaN else Finite(a.value / d)
  }

  /** IEEE `>=`: false whenever an operand is NaN. */
  predicate AtLeast(a: TimeInterval, b: TimeInterval)
  {
    a.Finite? && b.Finite? && a.value >= b.value
  }

  /** IEEE `<=`: false whenever an operand is NaN. */
  predicate AtMost(a: TimeInterval, b: TimeInterval)
  {
    a.Finite? && b.Finite? && a.value <= b.value
  }
}
