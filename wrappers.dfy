/** Failure-compatible values for the outcomes of the external collaborators
    (the OCR engine, the page fetch) and for optional request fields. */
module Wrappers {

  datatype Option<+T> = None | Some(value: T)

  /** `Ok(v)` is a call that returned `v`; `Err(msg)` is a call that raised
      an exception whose string form is `msg`. */
  datatype Result<+T, +E> = Ok(value: T) | Err(error: E)
}
