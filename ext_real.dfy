/**
 * Python floats as the model uses them: finite reals and the two infinities
 * (`float('inf')`, `-float('inf')`).  NaN is never produced by the modelled code
 * paths and is not represented.
 */
module ExtReal {

  datatype Ext = Fin(r: real) | PosInf | NegInf

  /** Python's `a <= b` on floats. */
  predicate Le(a: Ext, b: Ext)
  {
    match (a, b)
    case (NegInf, _) => true
    case (_, PosInf) => true
    case (Fin(x), Fin(y)) => x <= y
    case _ => false
  }

  /** Python's `a < b` on floats. */
  predicate Lt(a: Ext, b: Ext)
  {
    !Le(b, a)
  }

  lemma LeTotalOrder(a: Ext, b: Ext, c: Ext)
    ensures Le(a, a)
    ensures Le(a, b) || Le(b, a)
    ensures Le(a, b) && Le(b, a) ==> a == b
    ensures Le(a, b) && Le(b, c) ==> Le(a, c)
  {
  }

  function Neg(a: Ext): Ext
  {
    match a
    case Fin(x) => Fin(-x)
    case PosInf => NegInf
    case NegInf => PosInf
  }

  /** Python's `abs`. */
  function Abs(a: Ext): (r: Ext)
    ensures Le(Fin(0.0), r)
    ensures r == a || r == Neg(a)
  {
    match a
    case Fin(x) => Fin(if x < 0.0 then -x else x)
    case _ => PosInf
  }

  /** `numpy.sign`: -1, 0 or 1. */
  function Sign(a: Ext): (s: int)
    ensures s == 1 <==> Lt(Fin(0.0), a)
    ensures s == -1 <==> Lt(a, Fin(0.0))
    ensures s == 0 <==> a == Fin(0.0)
  {
    match a
    case Fin(x) => if x > 0.0 then 1 else if x < 0.0 then -1 else 0
    case PosInf => 1
    case NegInf => -1
  }

  /** `sorted((a, b))`: the two values in ascending order. */
  function Sorted2(a: Ext, b: Ext): (p: (Ext, Ext))
    ensures Le(p.0, p.1)
    ensures (p.0 == a && p.1 == b) || (p.0 == b && p.1 == a)
  {
    if Le(a, b) then (a, b) else (b, a)
  }

  /** `sorted((a, b), reverse=True)`: the two values in descending order. */
  function SortedDesc2(a: Ext, b: Ext): (p: (Ext, Ext))
    ensures Le(p.1, p.0)
    ensures (p.0 == a && p.1 == b) || (p.0 == b && p.1 == a)
  {
    if Le(b, a) then (a, b) else (b, a)
  }
}
