/** Failure-compatible wrappers used throughout the model.
    `Option` stands for a Java reference that may be null; `Result` for a call
    that either returns normally or throws. */
module Results {

  /** A possibly-null reference: `None` is Java's `null`. */
  datatype Option<+T> = None | Some(value: T)

  /** The outcome of a Java call: a returned value, or the exception it threw. */
  datatype Result<+R, +E> = Ok(value: R) | Err(error: E)
}
