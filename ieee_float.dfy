/**
 * Single-precision floating point as the estimator's checks see it: a finite
 * value (kept exactly, as a real), a NaN, or a signed infinity.  The special
 * values follow IEEE 754; rounding, overflow of finite results and the sign of
 * zero are not modelled.
 */
module IeeeFloat {

  datatype Float = Finite(v: real) | NaN | PosInf | NegInf

  const Zero: Float := Finite(0.0)
  const One: Float := Finite(1.0)

  /** x squared. */
  function Sq(x: real): real
  {
    x * x
  }

  /** The value is above zero. */
  predicate Positive(a: Float)
  {
    a.PosInf? || (a.Finite? && a.v > 0.0)
  }

  /** The value is zero. */
  predicate IsZero(a: Float)
  {
    a.Finite? && a.v == 0.0
  }

  /** The infinity whose sign is the product of the signs of two non-zero operands. */
  function InfOfSigns(positiveA: bool, positiveB: bool): Float
  {
    if positiveA == positiveB then PosInf else NegInf
  }

  function Neg(a: Float): Float
  {
    match a
    case Finite(x) => Finite(-x)
    case NaN => NaN
    case PosInf => NegInf
    case NegInf => PosInf
  }

  /** a + b when at least one operand is not finite. */
  function AddSpecial(a: Float, b: Float): Float
  {
    if a.NaN? || b.NaN? then NaN
    else if (a.PosInf? && b.NegInf?) || (a.NegInf? && b.PosInf?) then NaN
    else if a.PosInf? || b.PosInf? then PosInf
    else NegInf
  }

  function Add(a: Float, b: Float): Float
  {
    match a
    case Finite(x) => (match b case Finite(y) => Finite(x + y) case _ => AddSpecial(a, b))
    case _ => AddSpecial(a, b)
  }

  function Sub(a: Float, b: Float): Float
  {
    Add(a, Neg(b))
  }

  /** a * b when at least one operand is not finite: infinity times zero is NaN. */
  function MulSpecial(a: Float, b: Float): Float
  {
    if a.NaN? || b.NaN? then NaN
    else if IsZero(a) || IsZero(b) then NaN
    else InfOfSigns(Positive(a), Positive(b))
  }

  function Mul(a: Float, b: Float): Float
  {
    match a
    case Finite(x) =>
      (match b
       // a zero factor is spelled out apart, for the prover
       case Finite(y) => if x == 0.0 || y == 0.0 then Zero else Finite(x * y)
       case _ => MulSpecial(a, b))
    case _ => MulSpecial(a, b)
  }

  /** a / b when at least one operand is not finite. */
  function DivSpecial(a: Float, b: Float): Float
  {
    if a.NaN? || b.NaN? then NaN
    else if a.Finite? then Zero
    else if b.Finite? then InfOfSigns(Positive(a), !(b.v < 0.0))
    else NaN
  }

  function Div(a: Float, b: Float): Float
  {
    match a
    case Finite(x) =>
      (match b
       case Finite(y) =>
         if y == 0.0 then (if x == 0.0 then NaN else InfOfSigns(x > 0.0, true))
         else if x == 0.0 then Zero
         else Finite(x / y)
       case _ => DivSpecial(a, b))
    case _ => DivSpecial(a, b)
  }

  function Abs(a: Float): Float
  {
    match a
    case Finite(x) => Finite(if x < 0.0 then -x else x)
    case NaN => NaN
    case _ => PosInf
  }

  /** sqrtf, with the root of a finite non-negative argument left to `root`. */
  function Sqrt(root: real -> real, a: Float): Float
  {
    match a
    case Finite(x) => if x < 0.0 then NaN else Finite(root(x))
    case PosInf => PosInf
    case _ => NaN
  }

  /** The ordered comparison a < b: false whenever either side is a NaN. */
  predicate Less(a: Float, b: Float)
  {
    if a.NaN? || b.NaN? then false
    else if a.Finite? && b.Finite? then a.v < b.v
    else if a.NegInf? then !b.NegInf?
    else b.PosInf? && !a.PosInf?
  }

  /** a <= b, false whenever either side is a NaN. */
  predicate LessEq(a: Float, b: Float)
  {
    Less(a, b) || (a == b && !a.NaN?)
  }
}
