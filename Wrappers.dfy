/** Option and Result, used for the absent answer of the language-model backend
    and for requests the task manager cannot serve. */
module Wrappers {

  datatype Option<+T> = None | Some(value: T)

  datatype Result<+R, +E> = Ok(value: R) | Err(error: E)
}
