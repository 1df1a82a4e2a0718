/** Failure-carrying values shared by the whole model: a JavaScript value that may be
    `null`/`undefined` is an `Option`, and an operation that may throw returns a `Result`. */
module Results {

  datatype Option<+T> = None | Some(value: T)

  datatype Result<+T, +E> = Success(value: T) | Failure(error: E)
}
