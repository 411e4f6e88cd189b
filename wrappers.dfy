/** Option and Result, used for the JavaScript values `undefined`/`null`
    and for calls into the ledger that may throw. */
module Wrappers {

  datatype Option<+T> = None | Some(value: T)

  datatype Result<+T, +E> = Ok(value: T) | Err(error: E)
}
