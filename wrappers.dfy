/** Option and Result, the shapes the model uses for JavaScript's `undefined`/`null` and for promises
    that reject with an `Error`. */
module Wrappers {

  datatype Option<+T> = None | Some(value: T)

  /** A settled promise: `Ok` when it resolved, `Err` with the error's message when it rejected. */
  datatype Result<+T> = Ok(value: T) | Err(error: string)
}
