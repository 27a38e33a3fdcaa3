/** Wrappers: Go's nil pointers become Option, and the
    panics of the test server become a failed Outcome or Result. */
module Wrappers {

  datatype Option<+T> = None | Some(value: T)

  datatype Result<+T, +E> = Ok(value: T) | Err(error: E)

  datatype Outcome<+E> = Pass | Fail(error: E)
}
