/**
 JavaScript numbers as the gates see them: `NaN`, the infinities, and integers. A comparison with
 `NaN` is false whichever way it is written, which is what lets an unchecked `NaN` delete a gate.
 */
module JsNumber {
  datatype Num = NaN | NegInf | PosInf | Fin(n: int)

  predicate IsFinite(x: Num) { x.Fin? }

  predicate Lt(x: Num, y: Num) {
    match (x, y)
    case (NaN, _) => false
    case (_, NaN) => false
    case (Fin(a), Fin(b)) => a < b
    case (NegInf, _) => !y.NegInf?
    case (_, NegInf) => false
    case (PosInf, _) => false
    case (_, PosInf) => true
  }

  predicate Same(x: Num, y: Num) { x == y && !x.NaN? }

  predicate Le(x: Num, y: Num) { Lt(x, y) || Same(x, y) }

  predicate Gt(x: Num, y: Num) { Lt(y, x) }

  predicate Ge(x: Num, y: Num) { Le(y, x) }

  function Add(x: Num, y: Num): Num {
    match (x, y)
    case (NaN, _) => NaN
    case (_, NaN) => NaN
    case (Fin(a), Fin(b)) => Fin(a + b)
    case (Fin(_), _) => y
    case (_, Fin(_)) => x
    case (_, _) => if x == y then x else NaN
  }

  function Negate(x: Num): Num {
    match x
    case NaN => NaN
    case NegInf => PosInf
    case PosInf => NegInf
    case Fin(a) => Fin(-a)
  }

  function Sub(x: Num, y: Num): Num { Add(x, Negate(y)) }

  /** A positive integer factor. */
  function Times(x: Num, k: int): Num
    requires k > 0
  {
    if x.Fin? then Fin(x.n * k) else x
  }

  function MinOf(x: Num, y: Num): Num {
    if x.NaN? || y.NaN? then NaN else if Lt(y, x) then y else x
  }

  /** Anything with `NaN` is `NaN`, and no comparison with it holds. */
  lemma NaNSpreads(x: Num, y: Num)
    requires x.NaN? || y.NaN?
    ensures Add(x, y).NaN? && Sub(x, y).NaN? && MinOf(x, y).NaN?
    ensures !Lt(x, y) && !Le(x, y) && !Gt(x, y) && !Ge(x, y) && !Same(x, y)
  {
  }

  /** The other numbers are ordered, the infinities at the ends; negation reverses the order. */
  lemma Ordered(x: Num, y: Num, z: Num)
    requires !x.NaN? && !y.NaN? && !z.NaN?
    ensures (Lt(x, y) && x != y && !Lt(y, x)) || (Lt(y, x) && x != y && !Lt(x, y)) || (x == y && !Lt(x, y) && !Lt(y, x))
    ensures Lt(x, y) && Lt(y, z) ==> Lt(x, z)
    ensures Le(NegInf, x) && Le(x, PosInf) && (x.Fin? && y.Fin? ==> (Lt(x, y) <==> x.n < y.n))
    ensures Lt(x, y) <==> Lt(Negate(y), Negate(x))
    ensures Le(MinOf(x, y), x) && Le(MinOf(x, y), y) && (MinOf(x, y) == x || MinOf(x, y) == y)
  {
  }

  /** Infinities absorb, opposite ones leave nothing, and finite numbers add up. */
  lemma Sums(x: Num, y: Num)
    requires !x.NaN? && !y.NaN?
    ensures Add(x, y) == Add(y, x) && Sub(x, y) == Negate(Sub(y, x))
    ensures Add(x, y).NaN? <==> (x == PosInf && y == NegInf) || (x == NegInf && y == PosInf)
    ensures Add(x, y) == PosInf <==> (x == PosInf && y != NegInf) || (y == PosInf && x != NegInf)
    ensures x.Fin? && y.Fin? ==> Add(x, y) == Fin(x.n + y.n) && Sub(x, y) == Fin(x.n - y.n)
  {
  }
}
