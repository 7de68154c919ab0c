/**
 * Just enough of JavaScript's value semantics for the editor's arithmetic:
 * an optional value, and numbers that may be infinite or NaN.
 */
module Js {

  datatype Option<T> = None | Some(value: T)

  /** A JavaScript number: a finite value or one of the IEEE 754 specials.
      Signed zero is not distinguished from zero. */
  datatype Number = Finite(value: real) | PosInfinity | NegInfinity | NaN

  /** `a / b` on finite operands, as IEEE 754 division evaluates it. */
  function Divide(a: real, b: real): (r: Number)
    ensures r.Finite? <==> b != 0.0
    ensures r.Finite? ==> r.value * b == a
    ensures r.NaN? <==> a == 0.0 && b == 0.0
    ensures r.PosInfinity? <==> b == 0.0 && a > 0.0
  {
    if b != 0.0 then Finite(a / b)
    else if a > 0.0 then PosInfinity
    else if a < 0.0 then NegInfinity
    else NaN
  }

  /** `k * x` for a finite `k`: infinities keep or flip their sign, and
      zero times an infinity is NaN. */
  function Scale(k: real, x: Number): (r: Number)
    ensures r.Finite? <==> x.Finite?
    ensures r.Finite? ==> r.value == k * x.value
    ensures r.NaN? <==> x.NaN? || (k == 0.0 && !x.Finite?)
    ensures (x.PosInfinity? || x.NegInfinity?) && k != 0.0 ==>
              r == if (k > 0.0) == x.PosInfinity? then PosInfinity else NegInfinity
  {
    match x
    case Finite(v) => Finite(k * v)
    case PosInfinity => if k > 0.0 then PosInfinity else if k < 0.0 then NegInfinity else NaN
    case NegInfinity => if k > 0.0 then NegInfinity else if k < 0.0 then PosInfinity else NaN
    case NaN => NaN
  }

  /** `x >= k` for a finite `k`; every comparison with NaN is false. */
  predicate AtLeast(x: Number, k: real)
  {
    match x
    case Finite(v) => v >= k
    case PosInfinity => true
    case NegInfinity => false
    case NaN => false
  }
}
