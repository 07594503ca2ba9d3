/** Option and Result: the error paths of the JavaScript code (a failed match,
    a thrown Error) as values. */
module Wrappers {

  datatype Option<+T> = None | Some(value: T)

  /** `Err` stands for a thrown `Error`; its message text is not modelled. */
  datatype Result<+T> = Ok(value: T) | Err
}
