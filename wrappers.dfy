/** Failure-carrying datatypes shared by the backend and frontend models. */
module Wrappers {

  datatype Option<+T> = None | Some(value: T)

  /** A backend operation that either produces a value or raises. */
  datatype Result<+T, +E> = Ok(value: T) | Err(error: E)

  /** How one browser request settles: the response body, or a failure whose
      response body may carry a `detail` field. */
  datatype Outcome<+T> = Succeeded(data: T) | Failed(detail: Option<string>)
}
