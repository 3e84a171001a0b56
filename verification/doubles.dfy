/** C#'s `double` as far as comparisons go: a finite value, NaN, or one of
    the two infinities. Finite values are modelled as exact reals. */
module Doubles {

  datatype Double = Finite(value: real) | NaN | PositiveInfinity | NegativeInfinity

  /** IEEE `d < b`: false whenever NaN is involved. */
  predicate LessThan(d: Double, b: real)
  {
    match d
    case Finite(x) => x < b
    case NegativeInfinity => true
    case _ => false
  }

  /** IEEE `d > b`. */
  predicate GreaterThan(d: Double, b: real)
  {
    match d
    case Finite(x) => x > b
    case PositiveInfinity => true
    case _ => false
  }

  /** IEEE `d >= b`. */
  predicate AtLeast(d: Double, b: real)
  {
    match d
    case Finite(x) => x >= b
    case PositiveInfinity => true
    case _ => false
  }

  /** IEEE `d <= b`. */
  predicate AtMost(d: Double, b: real)
  {
    match d
    case Finite(x) => x <= b
    case NegativeInfinity => true
    case _ => false
  }
}
