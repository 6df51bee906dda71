/** Failure-compatible wrappers used across the pipeline model. */
module Results {

  /** A value that may be absent; `None` stands for a stage record that was never written. */
  datatype Option<+T> = None | Some(value: T)

  /** The outcome of a step that may raise: `Err` carries what was raised. */
  datatype Result<+T, +E> = Ok(value: T) | Err(error: E)
}
