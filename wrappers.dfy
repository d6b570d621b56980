/** Values for JavaScript's optional values and thrown errors. */
module Wrappers {

  /** A value that may be absent (`undefined` or `null` in the source). */
  datatype Option<+T> = None | Some(value: T)

  /** What a `throw` carries: the message and, for the API helpers, an HTTP status. */
  datatype Failure = Failure(message: string, status: Option<int>)

  /** The outcome of a call that either returns a value or throws. */
  datatype Result<+T> = Ok(value: T) | Throw(failure: Failure)

  /** `throw new Error(message)`: a failure without a status. */
  function Raise<T>(message: string): Result<T>
  {
    Throw(Failure(message, None))
  }

  /** `throw { message, status }`: a failure that carries a status. */
  function RaiseStatus<T>(message: string, status: int): Result<T>
  {
    Throw(Failure(message, Some(status)))
  }
}
