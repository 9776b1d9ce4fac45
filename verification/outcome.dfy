/**
 * How a service call ends: with a value, or with one of the exceptions the
 * services throw.
 */
module Outcome {

  datatype Option<+T> = None | Some(value: T)

  /**
   * `NotFound` is ResourceNotFoundException and `BadApiRequest` is
   * BadApiRequestException, both with their message. `Uncaught` is a Java
   * runtime exception the code does not throw on purpose (a null
   * dereference, an index out of bounds), named by its class.
   */
  datatype Error =
    | NotFound(message: string)
    | BadApiRequest(message: string)
    | Uncaught(exception: string)

  datatype Result<+T> = Success(value: T) | Failure(error: Error)
}
