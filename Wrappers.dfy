/** Small wrapper datatypes shared by the model. */
module Wrappers {

  /** A value that may be missing: a Go pointer that may be nil. */
  datatype Option<+T> = None | Some(value: T)

  /** A value or an error: a Go function returning (T, error). */
  datatype Result<+T, +E> = Ok(value: T) | Err(error: E)

  /** How a Go computation ends: it returns normally, or it panics
      (in this model only with a run-time "index out of range"). */
  datatype Completion<+T> = Returns(value: T) | Panics
}
