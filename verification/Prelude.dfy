/** Shared vocabulary of the model. */
module Prelude {

  datatype Option<+T> = None | Some(value: T)

  datatype Result<+T, +E> = Ok(value: T) | Err(error: E)

  type Byte = n: nat | n < 256

  /** Power bits 111: no hold strength, but a request to the firmware. */
  const RESERVED_CODE: nat := 7
}
