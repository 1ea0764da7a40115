/** Option and Result values used for the source's `None`, failed lookups and raised errors. */
module Wrappers {

  datatype Option<+T> = None | Some(value: T)

  /** `Err` stands for an exception the source raises (a ValidationError, a 404, an IntegrityError). */
  datatype Result<+T, +E> = Ok(value: T) | Err(error: E)
}
