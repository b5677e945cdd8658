/**
 * Numeric helpers of src/lib/time.ts over integer milliseconds.
 * A JavaScript `number` is modelled as an integer or one of the three
 * non-finite values; values of other types are `NotNumber`.
 */
module Time {

  datatype JsNumber = Finite(value: int) | NaN | Infinity | NegativeInfinity

  /** An `unknown` JavaScript value, as far as `safeNumber` distinguishes it. */
  datatype JsValue = Number(n: JsNumber) | NotNumber

  predicate IsFiniteNumber(v: JsValue) {
    v.Number? && v.n.Finite?
  }

  /** `safeNumber(n, fallback = 0)`. */
  function SafeNumber(v: JsValue, fallback: int := 0): (r: int)
    ensures IsFiniteNumber(v) ==> r == v.n.value
    ensures !IsFiniteNumber(v) ==> r == fallback
  {
    if IsFiniteNumber(v) then v.n.value else fallback
  }

  const MsPerMinute: int := 60000

  /** `addMinutes(date, minutes)`: a new instant, in epoch milliseconds. */
  function AddMinutes(t: int, minutes: int): (r: int)
    ensures r - t == minutes * MsPerMinute
  {
    t + minutes * MsPerMinute
  }

  /** NaN, the infinities and non-numbers all fall back. */
  lemma SafeNumberFallsBack(fallback: int)
    ensures SafeNumber(Number(NaN), fallback) == fallback
    ensures SafeNumber(Number(Infinity), fallback) == fallback
    ensures SafeNumber(Number(NegativeInfinity), fallback) == fallback
    ensures SafeNumber(NotNumber, fallback) == fallback
    ensures SafeNumber(NotNumber) == 0
  {
  }

  /** Adding zero minutes is the identity; adding `a` then `b` minutes adds `a + b`. */
  lemma AddMinutesLaws(t: int, a: int, b: int)
    ensures AddMinutes(t, 0) == t
    ensures AddMinutes(AddMinutes(t, a), b) == AddMinutes(t, a + b)
  {
  }
}
