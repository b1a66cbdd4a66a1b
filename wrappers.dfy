/** Option and Result values shared by the checkout-form model. */
module Wrappers {

  datatype Option<+T> = None | Some(value: T)

  /** Outcome of a schema parse: the parsed value, or the issues that reject it. */
  datatype Result<+R, +E> = Ok(value: R) | Err(error: E)
}
