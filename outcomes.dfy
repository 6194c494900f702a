/** Option and Result values used where the JavaScript code returns
    `undefined` or throws. */
module Outcomes {
  datatype Option<+T> = None | Some(value: T)

  datatype Result<+T, +E> = Success(value: T) | Failure(error: E)
}
