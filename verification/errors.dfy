/** Failure-carrying results shared by the event guard, the decorated pool and the generator pool.
    Each exception the PHP code throws becomes an `Error` value returned to the caller. */
module Errors {

  /** The exceptions raised synchronously by the modelled code. */
  datatype Error =
    | InvalidArgument     // \InvalidArgumentException: unsupported item, unlisted event name
    | AlreadyStarted      // starting a pool twice
    | PoolAlreadyStarted  // \RuntimeException: decorating a pool that has already started

  datatype Option<+T> = None | Some(value: T)

  datatype Result<+T> = Ok(value: T) | Err(error: Error)

  datatype Outcome = Pass | Fail(error: Error)
}
