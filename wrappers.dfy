/** Option and Result values used for Python's `None` and for raised exceptions. */
module Wrappers {

  /** `None` stands for Python's `None`. */
  datatype Option<+T> = None | Some(value: T)

  /** `Err` carries the text of an exception (`str(e)`) that the source raises. */
  datatype Result<+T> = Ok(value: T) | Err(error: string)
}
