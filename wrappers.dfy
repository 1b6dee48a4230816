/** Small value types shared by every component model. */
module Wrappers {

  /** A value that may be absent (JavaScript `null` / `undefined`). */
  datatype Option<+T> = None | Some(value: T) {
    function GetOr(default: T): T {
      match this
      case Some(v) => v
      case None => default
    }
  }

  /**
   * The value of a JavaScript `number` as the forms and parsers see it:
   * `NaN`, one of the infinities, or a finite number (kept exact).
   */
  datatype JsNumber = NaN | PosInfinity | NegInfinity | Finite(r: real) {
    /** `Number.isFinite` */
    predicate IsFinite() { Finite? }

    /** `Number.isInteger`: finite and without a fractional part */
    predicate IsInteger() { Finite? && r.Floor as real == r }
  }
}
