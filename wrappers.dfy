module Wrappers {

  /** An optional value, as for an options field that may be unset. */
  datatype Option<+T> = None | Some(value: T)

  /** The success-or-error result used where the client would otherwise terminate the process. */
  datatype Result<+T, +E> = Ok(value: T) | Err(error: E)
}
