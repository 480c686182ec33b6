/**
  The little of JavaScript number semantics that the front end relies on when it
  divides sizes: a quotient is a finite value, NaN or an infinity. Finite values are
  exact reals here; rounding to the nearest double is not modelled.
*/
module JsNumber {

  datatype Num = Finite(value: real) | NaN | PosInfinity | NegInfinity

  /** `a / b` for finite operands: dividing by zero gives NaN for 0/0 and an
      infinity carrying the sign of the numerator otherwise. */
  function Div(a: real, b: real): (r: Num)
    ensures r.Finite? <==> b != 0.0
    ensures r.Finite? ==> r.value == a / b && r.value * b == a
    ensures b == 0.0 ==> (r == NaN <==> a == 0.0)
    ensures b == 0.0 && a > 0.0 ==> r == PosInfinity
    ensures b == 0.0 && a < 0.0 ==> r == NegInfinity
  {
    if b != 0.0 then Finite(a / b)
    else if a == 0.0 then NaN
    else if a > 0.0 then PosInfinity
    else NegInfinity
  }

  /** `x - n` for a finite `x`. */
  function SubFrom(x: real, n: Num): (r: Num)
    ensures r.Finite? <==> n.Finite?
  {
    match n
    case Finite(v) => Finite(x - v)
    case NaN => NaN
    case PosInfinity => NegInfinity
    case NegInfinity => PosInfinity
  }

  /** `n * k` for a positive finite `k`. */
  function MulPos(n: Num, k: real): (r: Num)
    requires k > 0.0
    ensures r.Finite? <==> n.Finite?
  {
    match n
    case Finite(v) => Finite(v * k)
    case _ => n
  }

  /** JavaScript truthiness of a number: 0, -0 and NaN are falsy. */
  predicate Truthy(n: Num) {
    n != Finite(0.0) && n != NaN
  }

  /** `n > 0`; every comparison with NaN is false. */
  predicate Positive(n: Num) {
    match n
    case Finite(v) => v > 0.0
    case PosInfinity => true
    case _ => false
  }
}
