/** JavaScript values the tracker handles: `null`/`undefined` versus a value,
    and IEEE numbers as far as the tracker can observe them (NaN, the two
    infinities, finite values). Finite values are modelled as exact reals. */
module JsValues {

  /** `null` (or `undefined`) versus a present value. */
  datatype Option<+T> = None | Some(value: T)

  /** A JavaScript number, such as `parseFloat` returns. */
  datatype Num = NaN | Infinity(negative: bool) | Finite(value: real)

  /** `isNaN(n)` */
  predicate IsNaN(n: Num) {
    n.NaN?
  }

  /** JavaScript `a < b`: false whenever either side is NaN. */
  predicate Less(a: Num, b: Num)
  {
    match (a, b)
    case (NaN, _) => false
    case (_, NaN) => false
    case (Finite(x), Finite(y)) => x < y
    case (Infinity(neg), Finite(_)) => neg
    case (Finite(_), Infinity(neg)) => !neg
    case (Infinity(negA), Infinity(negB)) => negA && !negB
  }

  /** JavaScript `a - b`. */
  function Sub(a: Num, b: Num): (r: Num)
    ensures a.NaN? || b.NaN? ==> r.NaN?
    ensures a.Finite? && b.Finite? ==> r.Finite? && r.value + b.value == a.value
  {
    match (a, b)
    case (NaN, _) => NaN
    case (_, NaN) => NaN
    case (Finite(x), Finite(y)) => Finite(x - y)
    case (Infinity(neg), Finite(_)) => Infinity(neg)
    case (Finite(_), Infinity(neg)) => Infinity(!neg)
    case (Infinity(negA), Infinity(negB)) => if negA == negB then NaN else Infinity(negA)
  }

  /** JavaScript `a / d` for a positive finite divisor `d`. */
  function DivPositive(a: Num, d: real): (r: Num)
    requires 0.0 < d
    ensures r.NaN? <==> a.NaN?
    ensures a.Finite? ==> r.Finite? && r.value * d == a.value
  {
    match a
    case NaN => NaN
    case Infinity(neg) => Infinity(neg)
    case Finite(x) => Finite(x / d)
  }

  /** Lemma: JavaScript `<` on NaN-free finite numbers is the order of the
      reals, and never holds with NaN on either side. */
  lemma LessMeaning(a: Num, b: Num)
    ensures a.NaN? || b.NaN? ==> !Less(a, b)
    ensures a.Finite? && b.Finite? ==> (Less(a, b) <==> a.value < b.value)
    ensures Less(a, b) ==> !Less(b, a)
  {
  }

  /** Truncation toward zero, as JavaScript's `%` uses for its quotient. */
  function Trunc(x: real): (k: int)
    ensures 0.0 <= x ==> k as real <= x < k as real + 1.0
    ensures x < 0.0 ==> k as real - 1.0 < x <= k as real
  {
    if 0.0 <= x then x.Floor else -((-x).Floor)
  }

  /** `a` and `b` differ by a whole number of turns of 360. */
  predicate CongruentMod360(a: real, b: real) {
    ((a - b) / 360.0).Floor as real == (a - b) / 360.0
  }

  /** JavaScript `x % 360` on a finite `x`: the remainder takes the sign of
      `x` and is smaller than 360 in magnitude. */
  function Remainder360(x: real): (r: real)
    ensures 0.0 <= x ==> 0.0 <= r < 360.0
    ensures x < 0.0 ==> -360.0 < r <= 0.0
    ensures CongruentMod360(x, r)
    ensures 0.0 <= x < 360.0 ==> r == x
    ensures 360.0 <= x < 720.0 ==> r == x - 360.0
  {
    var k := Trunc(x / 360.0);
    x - 360.0 * k as real
  }

  /** Taking one whole turn off `a` keeps it congruent to `b`. */
  lemma CongruentLessOneTurn(a: real, b: real)
    requires CongruentMod360(a, b)
    ensures CongruentMod360(a - 360.0, b)
  {
  }
}
