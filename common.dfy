/** Small failure-carrying datatypes shared by the models of the desktop window and the image exporter. */
module Common {

  /** Python's `Optional[T]`: `None` or a value. */
  datatype Option<+T> = None | Some(value: T)

  /** A computation that either produces a value or raises an exception. */
  datatype Result<+T, +E> = Success(value: T) | Failure(error: E)

  /** A check that either returns normally (`None` in Python) or raises an exception. */
  datatype Outcome<+E> = Pass | Fail(error: E)
}
