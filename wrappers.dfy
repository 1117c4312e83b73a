/** Small value wrappers shared by the other modules.
    `Option` stands for a Python value that may be `None`; `Result` for a call
    that either returns a value or raises an exception that escapes it. */
module Wrappers {

  datatype Option<+T> = None | Some(value: T)

  /** `Raised` carries no payload: no caller in the model inspects the
      exception, it only matters whether one escaped. */
  datatype Result<+T> = Ok(value: T) | Raised
}
