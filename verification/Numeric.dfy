/** Rounding and clamping as the drivers use them. Floats are modelled as reals. */
module Numeric {

  type uint16 = x: int | 0 <= x < 0x1_0000
  type uint32 = x: int | 0 <= x < 0x1_0000_0000

  function Min(a: int, b: int): int { if a < b then a else b }

  function Max(a: int, b: int): int { if a > b then a else b }

  function MinReal(a: real, b: real): real { if a < b then a else b }

  function MaxReal(a: real, b: real): real { if a > b then a else b }

  /** Nearest integer, halves away from zero. */
  function Round(x: real): int {
    if x >= 0.0 then (x + 0.5).Floor else -((0.5 - x).Floor)
  }

  /** Integer part, towards zero. */
  function Trunc(x: real): int {
    if x >= 0.0 then x.Floor else -((-x).Floor)
  }

  /** A float outside the target range has no defined integer value in Go; here it wraps. */
  function ToUint16(n: int): uint16 { n % 0x1_0000 }

  function ToUint32(n: int): uint32 { n % 0x1_0000_0000 }

  lemma RoundBounds(x: real)
    ensures -0.5 <= Round(x) as real - x <= 0.5
  {
  }

  lemma RoundMonotone(x: real, y: real)
    requires x <= y
    ensures Round(x) <= Round(y)
  {
  }

  /** An integer below (above) x is not passed by rounding x. */
  lemma RoundAgainst(x: real, n: int)
    ensures n as real <= x ==> n <= Round(x)
    ensures x <= n as real ==> Round(x) <= n
  {
  }

  lemma TruncBounds(x: real)
    requires x >= 0.0
    ensures x - 1.0 < Trunc(x) as real <= x && Trunc(x) >= 0
  {
  }

  lemma TruncMonotone(x: real, y: real)
    requires x <= y
    ensures Trunc(x) <= Trunc(y)
  {
  }

  lemma MulMonotone(k: real, a: real, b: real)
    requires 0.0 <= k && a <= b
    ensures k * a <= k * b
  {
  }
}
