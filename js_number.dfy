/** JavaScript numbers as the visualiser uses them.

    Finite values are exact reals (rounding is not modelled); NaN and the two
    infinities are kept because `parseFloat`, `+` and `Math.min` produce them
    and the source tests for NaN explicitly. A numeric field that is absent
    from a record (`undefined`) behaves like NaN under `+`, `||` and
    `Math.min`, so the model writes it as NaN. */
module JsNumber {

  datatype Option<T> = None | Some(value: T)

  datatype Num = NaN | PosInf | NegInf | Fin(v: real)

  /** `a + b` */
  function Add(a: Num, b: Num): (r: Num)
    ensures r.NaN? <==> a.NaN? || b.NaN? || (a.PosInf? && b.NegInf?) || (a.NegInf? && b.PosInf?)
    ensures a.Fin? && b.Fin? ==> r == Fin(a.v + b.v)
  {
    match (a, b)
    case (NaN, _) => NaN
    case (_, NaN) => NaN
    case (PosInf, NegInf) => NaN
    case (NegInf, PosInf) => NaN
    case (PosInf, _) => PosInf
    case (_, PosInf) => PosInf
    case (NegInf, _) => NegInf
    case (_, NegInf) => NegInf
    case (Fin(x), Fin(y)) => Fin(x + y)
  }

  /** `a * m + c` for a positive finite factor `m` and a finite offset `c` */
  function Affine(a: Num, m: real, c: real): (r: Num)
    requires m > 0.0
    ensures r.NaN? <==> a.NaN?
  {
    match a
    case NaN => NaN
    case PosInf => PosInf
    case NegInf => NegInf
    case Fin(x) => Fin(x * m + c)
  }

  /** `Math.min(c, a)` for a finite `c`: NaN wins, as in JavaScript */
  function MinWith(c: real, a: Num): (r: Num)
    ensures r.NaN? <==> a.NaN?
    ensures !r.NaN? ==> AtMost(r, c)
  {
    match a
    case NaN => NaN
    case PosInf => Fin(c)
    case NegInf => NegInf
    case Fin(x) => Fin(if x < c then x else c)
  }

  /** `Math.max(c, a)` for a finite `c`: NaN wins, as in JavaScript */
  function MaxWith(c: real, a: Num): (r: Num)
    ensures r.NaN? <==> a.NaN?
    ensures !r.NaN? ==> AtLeast(r, c)
  {
    match a
    case NaN => NaN
    case PosInf => PosInf
    case NegInf => Fin(c)
    case Fin(x) => Fin(if x > c then x else c)
  }

  /** `Math.floor(a)` */
  function Floor(a: Num): (r: Num)
    ensures r.NaN? <==> a.NaN?
  {
    match a
    case Fin(x) => Fin(x.Floor as real)
    case _ => a
  }

  /** JavaScript truthiness of a number: everything but 0 and NaN */
  predicate Truthy(a: Num)
  {
    !a.NaN? && a != Fin(0.0)
  }

  /** `a <= c` for a finite `c` (false for NaN, as every comparison with NaN) */
  predicate AtMost(a: Num, c: real)
  {
    a.NegInf? || (a.Fin? && a.v <= c)
  }

  /** `a >= c` for a finite `c` */
  predicate AtLeast(a: Num, c: real)
  {
    a.PosInf? || (a.Fin? && a.v >= c)
  }
}
