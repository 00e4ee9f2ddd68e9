/** Small arithmetic helpers shared by the back-off schedules. */
module Arith {

  /** `b ** e` for a natural exponent. */
  function Pow(b: real, e: nat): real
    decreases e
  {
    if e == 0 then 1.0 else b * Pow(b, e - 1)
  }

  /** Python's `min` and `max` on two numbers. */
  function MinReal(a: real, b: real): (r: real)
    ensures r <= a && r <= b && (r == a || r == b)
  {
    if a <= b then a else b
  }

  function MaxReal(a: real, b: real): (r: real)
    ensures r >= a && r >= b && (r == a || r == b)
  {
    if a >= b then a else b
  }

  /** Powers of a base of at least one are at least one and grow with the exponent. */
  lemma {:induction false} PowGrows(b: real, e: nat)
    requires b >= 1.0
    ensures 1.0 <= Pow(b, e) <= Pow(b, e + 1)
    decreases e
  {
    if e > 0 {
      PowGrows(b, e - 1);
    }
    assert Pow(b, e + 1) == b * Pow(b, e);
    assert b * Pow(b, e) - Pow(b, e) == (b - 1.0) * Pow(b, e);
  }

  lemma {:induction false} PowMono(b: real, e: nat, f: nat)
    requires b >= 1.0 && e <= f
    ensures Pow(b, e) <= Pow(b, f)
    decreases f - e
  {
    if e < f {
      PowMono(b, e, f - 1);
      PowGrows(b, f - 1);
    }
  }
}
