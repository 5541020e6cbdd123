/** Values shared by the shift model, the statistics and the routes. */
module Common {

  datatype Option<T> = None | Some(value: T)

  /** Calendar day of a shift, already normalised to the start of the day; only compared for equality. */
  type Date = int

  /** Creation instant of a stored shift document. */
  type Timestamp = int

  type UserId = nat

  type ShiftId = nat

  /**
   * The outcome of a JavaScript number division: a finite value, or the
   * non-finite value (Infinity or NaN) that a zero divisor produces.
   */
  datatype Quotient = Finite(value: real) | NonFinite

  /** `n / d` as the source computes it, without a guard on `d`. */
  function Divide(n: real, d: real): (q: Quotient)
    ensures q.Finite? <==> d != 0.0
    ensures q.Finite? ==> q.value * d == n
  {
    if d == 0.0 then NonFinite else Finite(n / d)
  }
}
