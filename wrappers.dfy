/** The outcome of an operation that the original aborts with a fatal error. */
module Wrappers {

  datatype Result<T, E> = Success(value: T) | Failure(error: E)
}
