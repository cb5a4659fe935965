/** Option and Result: the model's stand-ins for JavaScript's `undefined` and for thrown errors. */
module Wrappers {

  /** An optional value: `None` stands for a property that is absent (`undefined`). */
  datatype Option<+T> = None | Some(value: T)

  /** The outcome of an operation that may throw: `Err` carries what was thrown. */
  datatype Result<+T, +E> = Ok(value: T) | Err(error: E)
}
