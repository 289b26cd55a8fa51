/** Option and Result values, standing in for Rust's `Option<T>` and `Result<T, E>`
    where the error is carried as its display string. */
module Wrappers {

  datatype Option<+T> = None | Some(value: T)

  datatype Result<+T> = Ok(value: T) | Err(error: string)
}
