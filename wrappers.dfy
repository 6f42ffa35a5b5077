/** Go's `(value, error)` return pairs, as a datatype. */
module Wrappers {

  /** `Ok(value)` stands for a nil error; `Err(message)` for a non-nil error with its message. */
  datatype Result<+T> = Ok(value: T) | Err(message: string)
}
