/** Success/failure values used where the handler raises an exception. */
module Wrappers {

  datatype Result<+T, +E> = Success(value: T) | Failure(error: E)

}
