/** Failure-carrying datatypes shared by the resolver and the command line front end.
    `Result` mirrors Rust's `Result<T, E>`, with the same constructor names. */
module Wrappers {

  /** A value that may be missing, as Rust's `Option`. */
  datatype Option<+T> = None | Some(value: T)

  /** Either a computed value or the error that stopped the computation. */
  datatype Result<+T, +E> = Ok(value: T) | Err(error: E)
}
