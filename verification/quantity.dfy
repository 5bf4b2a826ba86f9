/** Coercion of JavaScript numbers into unit counts: truncation toward zero
    followed by clamping at zero. */
module Quantity {

  /** A JavaScript value handed in as a unit count: a finite number, or any
      value `Number.isFinite` rejects (NaN, an infinity, a non-number). */
  datatype Num = Finite(r: real) | NonFinite

  /** `Math.trunc` on a finite number: the integer part, rounded toward zero. */
  function Trunc(x: real): (t: int)
    ensures 0.0 <= x ==> t as real <= x < t as real + 1.0
    ensures x < 0.0 ==> t as real - 1.0 < x <= t as real
  {
    if x >= 0.0 then x.Floor else -((-x).Floor)
  }

  /** `Math.max(0, Math.trunc(x))`: the clamp both quantity paths apply. */
  function ClampUnits(x: real): (q: nat)
    ensures x < 1.0 ==> q == 0
    ensures 1.0 <= x ==> q as real <= x < q as real + 1.0
  {
    var t := Trunc(x);
    if t < 0 then 0 else t
  }

  /** The quantity `actualizarUnidades` stores for the input `u`. */
  function Units(u: Num): (q: nat)
    ensures u.NonFinite? ==> q == 0
    ensures u.Finite? && u.r < 1.0 ==> q == 0
    ensures u.Finite? && 1.0 <= u.r ==> q as real <= u.r < q as real + 1.0
  {
    match u
    case Finite(r) => ClampUnits(r)
    case NonFinite => 0
  }

  /** Negative inputs give zero and fractions are truncated, not rounded. */
  lemma UnitsExamples()
    ensures Units(Finite(-7.0)) == 0
    ensures Units(Finite(2.9)) == 2
    ensures Units(Finite(-0.5)) == 0
    ensures Units(NonFinite) == 0
  {
  }
}
