/** Failure-carrying datatypes: the model's stand-in for Python's KeyError and
    friends, and for values that may be missing (awkward's None). */
module Wrappers {

  datatype Option<+T> = None | Some(value: T)

  datatype Result<+T, +E> = Ok(value: T) | Err(error: E)
}
