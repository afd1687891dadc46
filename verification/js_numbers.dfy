/** JavaScript numbers where the code can leave the reals: division by
    zero gives an infinity or NaN, and NaN then passes through arithmetic
    and `Math.min`/`Math.max` and compares false with everything. Only the
    operations the reputation score uses are given, with one finite operand
    where the code only ever has one. */
module JsNumbers {

  datatype JsNumber = Finite(value: real) | Infinity(negative: bool) | NaN

  /** `a / b` for finite `a` and `b`. */
  function Div(a: real, b: real): (r: JsNumber)
    ensures r.Finite? <==> b != 0.0
    ensures r.Finite? ==> r.value * b == a
    ensures r.NaN? <==> a == 0.0 && b == 0.0
    ensures r.Infinity? ==> (r.negative <==> a < 0.0)
  {
    if b != 0.0 then Finite(a / b)
    else if a == 0.0 then NaN
    else Infinity(a < 0.0)
  }

  /** `x * c` for a finite `c`: an infinity times zero is NaN. */
  function Times(x: JsNumber, c: real): (r: JsNumber)
    ensures r.NaN? <==> x.NaN? || (x.Infinity? && c == 0.0)
    ensures x.Finite? ==> r == Finite(x.value * c)
    ensures x.Infinity? && c > 0.0 ==> r == x
  {
    match x
    case Finite(v) => Finite(v * c)
    case Infinity(neg) => if c == 0.0 then NaN else Infinity(if c > 0.0 then neg else !neg)
    case NaN => NaN
  }

  /** `x + c` for a finite `c`. */
  function Plus(x: JsNumber, c: real): (r: JsNumber)
    ensures r.NaN? <==> x.NaN?
    ensures r.Infinity? <==> x.Infinity?
    ensures x.Finite? ==> r == Finite(x.value + c)
    ensures x.Infinity? ==> r == x
  {
    match x
    case Finite(v) => Finite(v + c)
    case _ => x
  }

  /** `Math.min(x, c)` for a finite `c`: NaN if `x` is NaN. */
  function MinOf(x: JsNumber, c: real): (r: JsNumber)
    ensures r.NaN? <==> x.NaN?
    ensures x.Finite? || x == Infinity(false) ==> r.Finite? && r.value <= c
    ensures x.Finite? ==> r.value <= x.value && (r.value == x.value || r.value == c)
    ensures x == Infinity(false) ==> r == Finite(c)
    ensures x == Infinity(true) ==> r == x
  {
    match x
    case Finite(v) => if v <= c then x else Finite(c)
    case Infinity(neg) => if neg then x else Finite(c)
    case NaN => NaN
  }

  /** `Math.max(x, c)` for a finite `c`: NaN if `x` is NaN. */
  function MaxOf(x: JsNumber, c: real): (r: JsNumber)
    ensures r.NaN? <==> x.NaN?
    ensures x.Finite? || x == Infinity(true) ==> r.Finite? && r.value >= c
    ensures x.Finite? ==> r.value >= x.value && (r.value == x.value || r.value == c)
    ensures x == Infinity(true) ==> r == Finite(c)
    ensures x == Infinity(false) ==> r == x
  {
    match x
    case Finite(v) => if v >= c then x else Finite(c)
    case Infinity(neg) => if neg then Finite(c) else x
    case NaN => NaN
  }

  /** `x < c` for a finite `c`: false whenever `x` is NaN. */
  function Less(x: JsNumber, c: real): (b: bool)
    ensures x.NaN? ==> !b
    ensures x.Finite? ==> (b <==> x.value < c)
    ensures x.Infinity? ==> (b <==> x.negative)
  {
    match x
    case Finite(v) => v < c
    case Infinity(neg) => neg
    case NaN => false
  }
}
