/** Option and Result, the two failure-carrying shapes the model uses for
    JavaScript's `null`/`undefined` and for thrown errors. */
module Wrappers {

  datatype Option<+T> = None | Some(value: T)

  /** A computation that returns a value or throws an error. */
  datatype Result<+T, +E> = Ok(value: T) | Err(error: E)

  /** An optional property of an update: `Keep` is `undefined` (leave the
      stored value alone), `SetTo` writes the value given. */
  datatype Update<+T> = Keep | SetTo(value: T)
}
