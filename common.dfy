/** Shared vocabulary: the outcome of an operation that may throw, token identifiers,
    and the number type JavaScript produces when it divides by zero. */
module Common {

  /** A JavaScript call either returns a value or throws an Error carrying a message. */
  datatype Result<+T> = Ok(value: T) | Err(error: string)

  /** An optional argument: `None` is a JavaScript `undefined`. */
  datatype Option<+T> = None | Some(value: T)

  /** Token identifiers are compared by exact string equality. */
  type Token = string

  /** The reserved identifier of the chain's native asset. */
  const EGLD: Token := "EGLD"

  /** A JavaScript number as far as the core can produce one from finite reals:
      a finite value, or the outcome of dividing by zero. */
  datatype JsNumber = Finite(v: real) | PosInfinity | NegInfinity | NaN

  /** IEEE division of two finite operands: `a / 0` is +Infinity, -Infinity or NaN
      by the sign of `a` (signed zeros are not modelled). */
  function JsDivide(a: real, b: real): (r: JsNumber)
    ensures b != 0.0 ==> r == Finite(a / b)
    ensures b == 0.0 ==> (r.PosInfinity? <==> a > 0.0) && (r.NegInfinity? <==> a < 0.0) && (r.NaN? <==> a == 0.0)
  {
    if b != 0.0 then Finite(a / b)
    else if a > 0.0 then PosInfinity
    else if a < 0.0 then NegInfinity
    else NaN
  }

  /** Multiplication by a positive constant `k`: infinities and NaN are absorbing. */
  function JsScale(x: JsNumber, k: real): (r: JsNumber)
    requires k > 0.0
    ensures r.Finite? <==> x.Finite?
    ensures x.Finite? ==> r.v == x.v * k
    ensures !x.Finite? ==> r == x
  {
    match x
    case Finite(v) => Finite(v * k)
    case _ => x
  }
}
