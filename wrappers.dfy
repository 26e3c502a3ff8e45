/** The two wrapper types used throughout the model: `Option` for the
    JavaScript `undefined`, `Result` for a thrown `Error`. */
module Wrappers {

  datatype Option<+T> = None | Some(value: T)

  datatype Result<+T, +E> = Ok(value: T) | Err(error: E)
}
