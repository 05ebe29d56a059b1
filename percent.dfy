/** The duty-cycle percentage shared by the vibration motors and the DC motors, and the linear ramps they fade and accelerate along. */
module Percent {

  function Max(a: real, b: real): real { if a >= b then a else b }
  function Min(a: real, b: real): real { if a <= b then a else b }

  /** `max(0.0, min(100.0, x))`: the value actually written to a PWM duty cycle. */
  function Clamp(x: real): (r: real)
    ensures 0.0 <= r <= 100.0
    ensures 0.0 <= x <= 100.0 ==> r == x
    ensures x < 0.0 ==> r == 0.0
    ensures x > 100.0 ==> r == 100.0
  {
    Max(0.0, Min(100.0, x))
  }

  /** Clamping keeps the order of its inputs, so a monotone ramp stays monotone. */
  lemma ClampMonotone(a: real, b: real)
    requires a <= b
    ensures Clamp(a) <= Clamp(b)
  {
  }

  /** `total / steps`: how far one step of a ramp moves. */
  function Increment(total: real, steps: nat): real
    requires steps > 0
  {
    total / steps as real
  }

  /** `increment * i`: how far `i` steps of a ramp move. */
  function Scaled(increment: real, i: int): real {
    increment * i as real
  }

  /** `steps` increments add up to the total, and a non-negative total has non-negative increments. */
  lemma IncrementSum(total: real, steps: nat)
    requires steps > 0
    ensures Scaled(Increment(total, steps), steps) == total
    ensures total >= 0.0 ==> Increment(total, steps) >= 0.0
  {
  }

  /** A non-negative increment times more steps is no smaller. */
  lemma ScaleMonotone(inc: real, i: int, j: int)
    requires inc >= 0.0 && i <= j
    ensures Scaled(inc, i) <= Scaled(inc, j)
  {
    assert inc * j as real - inc * i as real == inc * (j - i) as real;
  }
}
