/** Optional values, results with an error, and pass/fail outcomes: the
    model's stand-ins for Java's null and for the exceptions the security
    manager, the session manager and the realm throw. */
module Wrappers {

  datatype Option<+T> = None | Some(value: T)

  datatype Result<+T, +E> = Success(value: T) | Failure(error: E)

  datatype Outcome<+E> = Pass | Fail(error: E)
}
