/** The arithmetic the simulated monitors use: the clamp written as
    `Math.max(lo, Math.min(hi, x))`, the random drift `(Math.random() - 0.5) * width`
    and `Math.round`. JavaScript numbers are modelled as reals. */
module Numeric {

  function Max(a: real, b: real): real { if a < b then b else a }

  function Min(a: real, b: real): real { if b < a then b else a }

  /** `Math.max(lo, Math.min(hi, x))`: x moved into [lo, hi], unchanged when
      it is already there. */
  function Clamp(lo: real, hi: real, x: real): (r: real)
    requires lo <= hi
    ensures lo <= r <= hi
    ensures lo <= x <= hi ==> r == x
    ensures x < lo ==> r == lo
    ensures hi < x ==> r == hi
  {
    Max(lo, Min(hi, x))
  }

  /** What `Math.random()` can return. */
  predicate IsUnitRandom(r: real) {
    0.0 <= r < 1.0
  }

  /** `(Math.random() - 0.5) * width`, with the random draw as a parameter. */
  function Drift(r: real, width: real): real {
    (r - 0.5) * width
  }

  /** `Math.round(x)`: the nearest integer, halves rounded up. */
  function Round(x: real): (n: int)
    ensures x - 0.5 < n as real <= x + 0.5
  {
    (x + 0.5).Floor
  }
}
