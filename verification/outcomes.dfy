/** The two failure-carrying shapes the model needs. */
module Outcomes {

  datatype Option<+T> = None | Some(value: T)

  /** A computation that either yields a value or fails with a message. */
  datatype Result<+T> = Ok(value: T) | Err(error: string)
}
