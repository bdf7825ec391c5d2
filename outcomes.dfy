/**
 * Optional values, and the Python exceptions the modelled code lets escape.
 */
module Outcomes {

  datatype Option<+T> = None | Some(value: T)

  /** The built-in exceptions a step function raises on a malformed value
      store; `key` names the configuration entry involved. */
  datatype Error =
    | KeyError(key: string)        // `config[key]` with `key` absent
    | AttributeError(key: string)  // a string method called on a non-string value
    | TypeError(key: string)       // `len` or `+` applied to a value of the wrong type

  datatype Result<+T> = Ok(value: T) | Err(error: Error)
}
