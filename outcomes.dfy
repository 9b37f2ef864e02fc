/** Failure-carrying values shared by every module of the model.
    A Rust `anyhow::Result<T>` is modelled by its success value or by the
    text its error displays, which is all the session ever does with it. */
module Outcomes {

  datatype Option<+T> = None | Some(value: T)

  datatype Result<+T> = Ok(value: T) | Err(error: string)
}
