/** JavaScript values as the fitness app's logic sees them. */
module JsValues {

  datatype Option<+T> = None | Some(value: T)

  /**
   * A JavaScript number: a finite value, or NaN. Infinities are not part of
   * the model; IEEE-754 rounding is replaced by exact rational arithmetic.
   */
  datatype JsNumber = Num(r: real) | NaN

  /** `!!n`: zero and NaN are falsy. */
  predicate NumberTruthy(n: JsNumber)
  {
    n.Num? && n.r != 0.0
  }

  /** `n < k` for a number literal `k`: every comparison with NaN is false. */
  predicate LessThan(n: JsNumber, k: real)
  {
    n.Num? && n.r < k
  }

  /** `n > k` for a number literal `k`. */
  predicate GreaterThan(n: JsNumber, k: real)
  {
    n.Num? && n.r > k
  }

  /** `n <= k` for a number literal `k`. */
  predicate AtMost(n: JsNumber, k: real)
  {
    n.Num? && n.r <= k
  }

  /** `a + b` on numbers: NaN is absorbing. */
  function Plus(a: JsNumber, b: JsNumber): (c: JsNumber)
    ensures c.Num? <==> a.Num? && b.Num?
    ensures c.Num? ==> c.r - a.r == b.r
  {
    if a.Num? && b.Num? then Num(a.r + b.r) else NaN
  }

  function Min(a: real, b: real): real
  {
    if a <= b then a else b
  }

  function Max(a: int, b: int): int
  {
    if a >= b then a else b
  }
}
