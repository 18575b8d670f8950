/** Small failure-carrying datatypes shared by the other modules. */
module Wrappers {

  /** A value that may be absent: Go's comma-ok lookups and nil-able errors. */
  datatype Option<+T> = None | Some(value: T)

  /** Either a value or a human-readable error message. */
  datatype Result<+T> = Ok(value: T) | Err(message: string)
}
