/** Failure-carrying values used throughout the model: an absent
    dictionary key or a Python `None` is an `Option`, and a call that may
    raise is a `Result` whose `Err` carries the exception's message. */
module Wrappers {

  datatype Option<+T> = None | Some(value: T)

  datatype Result<+R, +E> = Ok(value: R) | Err(error: E)
}
