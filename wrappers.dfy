/** Option and Result, the failure-carrying datatypes the rest of the model uses
    for JavaScript's `undefined` and for thrown errors. */
module Wrappers {

  datatype Option<+T> = None | Some(value: T)

  /** `Err(message)` stands for a thrown `Error` whose `message` is the payload. */
  datatype Result<+T> = Ok(value: T) | Err(error: string)
}
