/** Failure-carrying values, standing in for Python's optional values and raised exceptions. */
module Wrappers {

  datatype Option<+T> = None | Some(value: T)

  /** `Err` carries the text `str(e)` of the exception the Python code would raise. */
  datatype Result<+T> = Ok(value: T) | Err(message: string)
}
