/**
 * Rust's `usize` on a 64-bit target and the `wrapping_*` operations the
 * benchmark's work items use: arithmetic modulo 2^64 that never traps on
 * overflow, except for division, which panics on a zero divisor.
 */
module Wrapping {

  /** 2^64: the number of distinct `usize` values on a 64-bit target. */
  const Modulus: nat := 0x1_0000_0000_0000_0000

  /** An unsigned machine word. */
  type Usize = x: int | 0 <= x < Modulus

  /** `a.wrapping_add(b)`: the exact sum, less 2^64 when it does not fit. */
  function WrappingAdd(a: Usize, b: Usize): (r: Usize)
    ensures a + b < Modulus ==> r == a + b
    ensures a + b >= Modulus ==> r == a + b - Modulus
  {
    (a + b) % Modulus
  }

  /** `a.wrapping_sub(b)`: the exact difference, plus 2^64 when it underflows. */
  function WrappingSub(a: Usize, b: Usize): (r: Usize)
    ensures b <= a ==> r == a - b
    ensures a < b ==> r == a - b + Modulus
  {
    (a - b) % Modulus
  }

  /**
   * `a.wrapping_mul(b)`: congruent to the exact product modulo 2^64, and
   * equal to it exactly when the product fits in a word.
   */
  function WrappingMul(a: Usize, b: Usize): (r: Usize)
    ensures a * b < Modulus <==> r == a * b
    ensures (a * b - r) % Modulus == 0
  {
    var p := a * b;
    assert 0 <= p;
    p % Modulus
  }

  /**
   * `a.wrapping_div(b)` on unsigned operands: floor division, which cannot
   * overflow. Rust panics when `b == 0`; callers must rule that out.
   */
  function WrappingDiv(a: Usize, b: Usize): (r: Usize)
    requires b != 0
    ensures r * b <= a < r * b + b
  {
    DivBounds(a, b);
    a / b
  }

  /** Floor division of naturals lands between 0 and the dividend. */
  lemma DivBounds(a: nat, b: nat)
    requires b != 0
    ensures 0 <= a / b <= a
    ensures (a / b) * b <= a < (a / b) * b + b
  {
    var q := a / b;
    DivRem(a, b);
    MulGrows(q, b);
  }

  lemma DivRem(a: nat, b: nat)
    requires b != 0
    ensures 0 <= a / b && a == (a / b) * b + a % b && 0 <= a % b < b
  {
  }

  lemma MulGrows(q: nat, b: nat)
    requires b != 0
    ensures q <= q * b
  {
  }
}
