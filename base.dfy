/** Small wrapper datatypes shared by every module of the model. */
module Base {

  /** An optional value; `None` stands for JavaScript's `undefined` where a property is read. */
  datatype Option<+T> = None | Some(value: T)

  /** The value of an operation that may throw: `Err` carries what would be thrown. */
  datatype Result<+T, +E> = Ok(value: T) | Err(error: E)

  /** The outcome of a check that returns nothing or throws. */
  datatype Outcome<+E> = Pass | Fail(error: E)

  /** An octet, as held by a Node.js `Buffer`. */
  newtype byte = x: int | 0 <= x < 256
}
