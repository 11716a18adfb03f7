/** Nullable values and error-returning results, as the Go code expresses them
    with pointers and `(value, error)` pairs. */
module Wrappers {

  /** A Go pointer that may be nil: `None` is nil, `Some(v)` points at `v`. */
  datatype Option<+T> = None | Some(value: T)

  /** A Go `(value, error)` return where exactly one side is meaningful. */
  datatype Result<+T, +E> = Ok(value: T) | Err(error: E)
}
