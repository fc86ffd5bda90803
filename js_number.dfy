/**
 * JavaScript numbers as the label code meets them: `Number(token)` can give NaN or an
 * infinity, and every comparison with NaN is false. Finite values are exact reals; binary
 * floating point rounding is not modelled.
 */
module JsNumber {
  import opened Text

  datatype Num = NaN | Inf(positive: bool) | Fin(v: real)

  /** `a < b`. */
  predicate Lt(a: Num, b: Num) {
    if a.NaN? || b.NaN? then false
    else if a.Inf? then !a.positive && b != Inf(false)
    else if b.Inf? then b.positive
    else a.v < b.v
  }

  /** `a <= b`: false as soon as either side is NaN. */
  predicate Le(a: Num, b: Num) {
    !a.NaN? && !b.NaN? && (a == b || Lt(a, b))
  }

  /** `a > b`. */
  predicate Gt(a: Num, b: Num) {
    Lt(b, a)
  }

  function Neg(a: Num): Num {
    match a
    case NaN => NaN
    case Inf(p) => Inf(!p)
    case Fin(x) => Fin(-x)
  }

  /** `a + b`, with `Infinity + -Infinity` giving NaN. */
  function Add(a: Num, b: Num): Num {
    if a.NaN? || b.NaN? then NaN
    else if a.Inf? && b.Inf? then (if a == b then a else NaN)
    else if a.Inf? then a
    else if b.Inf? then b
    else Fin(a.v + b.v)
  }

  function Sub(a: Num, b: Num): Num {
    Add(a, Neg(b))
  }

  /** `a / 2`. */
  function Half(a: Num): Num {
    match a
    case Fin(x) => Fin(x / 2.0)
    case _ => a
  }

  /** `Math.max(a, b)`: NaN if either argument is NaN. */
  function Max(a: Num, b: Num): (r: Num)
    ensures !a.NaN? && !b.NaN? ==> Le(a, r) && Le(b, r) && (r == a || r == b)
    ensures a.NaN? || b.NaN? ==> r.NaN?
  {
    if a.NaN? || b.NaN? then NaN else if Lt(a, b) then b else a
  }

  /** `Math.min(a, b)`: NaN if either argument is NaN. */
  function Min(a: Num, b: Num): (r: Num)
    ensures !a.NaN? && !b.NaN? ==> Le(r, a) && Le(r, b) && (r == a || r == b)
    ensures a.NaN? || b.NaN? ==> r.NaN?
  {
    if a.NaN? || b.NaN? then NaN else if Lt(b, a) then b else a
  }

  /** `Number.isInteger(a)`. */
  predicate IsInteger(a: Num) {
    a.Fin? && a.v == a.v.Floor as real
  }

  /**
   * The two conversions between numbers and text that the label code uses: `x.toFixed(6)`
   * (`fixed`) and `Number(token)` (`parse`). Both are left abstract; the properties that need
   * them name what they take for granted of them.
   */
  datatype NumberText = NumberText(fixed: real -> string, parse: string -> Num)

  /** Every fixed-point rendering is a single blank-free token. */
  ghost predicate Readable(nt: NumberText) {
    forall r: real :: IsToken(nt.fixed(r))
  }

  /**
   * Parsing the rendering of `r` gives `r` back: the rounding to six decimals loses nothing at
   * that value. This can hold only at some values, so it is asked of the values a property uses.
   */
  ghost predicate ExactAt(nt: NumberText, r: real) {
    nt.parse(nt.fixed(r)) == Fin(r)
  }

  /** Parsing the decimal text of an integer gives that integer. */
  ghost predicate ExactInt(nt: NumberText, k: int) {
    nt.parse(IntToString(k)) == Fin(k as real)
  }
}
