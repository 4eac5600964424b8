/** Go-style optional values and (value, error) returns. */
module Results {

  /** A Go pointer or interface value that may be nil. */
  datatype Option<+T> = None | Some(value: T)

  /** A Go `(T, error)` pair: exactly one of the two is meaningful. */
  datatype Result<+T> = Ok(value: T) | Err(msg: string)
}
