/** Absent values and error returns, used wherever the source has `null`/`undefined` or throws. */
module Options {

  datatype Option<+T> = None | Some(value: T)

  datatype Result<+T, +E> = Success(value: T) | Failure(error: E)
}
