/** Value types shared by the whole model. */
module Common {

  /** A value that may be missing: `None` stands for JavaScript's `undefined`. */
  datatype Option<T> = None | Some(value: T)

  /** A JavaScript number, as far as the model tells numbers apart. */
  datatype JsNumber = Finite(value: real) | NaN | PosInfinity | NegInfinity

  /** The numbers that `||` treats as false (0, -0 and NaN). */
  predicate Falsy(n: JsNumber) {
    n == NaN || n == Finite(0.0)
  }
}
