/** Option and Result, and the Python exceptions the modelled code raises or catches. */
module Wrappers {

  datatype Option<+T> = None | Some(value: T) {
    function GetOr(default: T): T {
      if Some? then value else default
    }
  }

  datatype Result<+T, +E> = Ok(value: T) | Err(error: E)

  /** The exceptions that can surface from the modelled code. */
  datatype Exception =
    | ClientError      // the chat or generation request itself failed
    | JsonDecodeError  // response text that is not JSON
    | TypeError        // an operation applied to a value of the wrong type
    | ValidationError  // pydantic rejected the response mapping
    | IndexError       // a list index out of range
}
