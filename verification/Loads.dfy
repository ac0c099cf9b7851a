/**
 Loads and load differences: real numbers with both infinities, and the value that
 the difference of equal infinities gives. Rounding is not modelled.
 */
module Loads {

  datatype Extended = NegInf | Finite(value: real) | PosInf | NotANumber

  /** A load that takes part in comparisons and sorting. */
  type Load = x: Extended | !x.NotANumber? witness NegInf

  predicate Lt(a: Extended, b: Extended) {
    match (a, b)
    case (NotANumber, _) => false
    case (_, NotANumber) => false
    case (NegInf, _) => !b.NegInf?
    case (_, PosInf) => !a.PosInf?
    case (Finite(x), Finite(y)) => x < y
    case _ => false
  }

  predicate Le(a: Extended, b: Extended) {
    Lt(a, b) || (a == b && !a.NotANumber?)
  }

  function Sub(a: Extended, b: Extended): Extended {
    match (a, b)
    case (NotANumber, _) => NotANumber
    case (_, NotANumber) => NotANumber
    case (Finite(x), Finite(y)) => Finite(x - y)
    case (Finite(_), PosInf) => NegInf
    case (Finite(_), NegInf) => PosInf
    case (PosInf, PosInf) => NotANumber
    case (NegInf, NegInf) => NotANumber
    case (PosInf, _) => PosInf
    case (NegInf, _) => NegInf
  }

  function Plus(a: Load, x: real): Load {
    if a.Finite? then Finite(a.value + x) else a
  }
}
