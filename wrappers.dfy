/** Option and Result values for lookups that may find nothing and for
    operations that raise. */
module Wrappers {

  datatype Option<+T> = None | Some(value: T)

  /** `Err` stands for a Python exception propagating out of the call. */
  datatype Result<+T, +E> = Ok(value: T) | Err(error: E)
}
