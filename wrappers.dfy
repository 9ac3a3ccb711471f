/** Option and Result, and the Python exceptions the simulator can raise. */
module Wrappers {

  datatype Option<+T> = None | Some(value: T)

  /** The exceptions the modelled code raises, by their Python class. */
  datatype Error =
    | KeyError(key: string)
    | ValueError(message: string)
    | IndexError
    | TypeError
    | NotImplementedError(dimension: int)

  datatype Result<+T> = Ok(value: T) | Err(error: Error)
}
