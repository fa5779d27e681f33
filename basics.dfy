/** Option and Result values used in place of JavaScript's null/undefined and thrown errors. */
module Basics {

  datatype Option<+T> = None | Some(value: T)

  datatype Result<+T, +E> = Ok(value: T) | Err(error: E)

}
