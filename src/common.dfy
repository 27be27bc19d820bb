/** Shared wrappers: Python's None-or-value and the value-or-exception outcome of a call. */
module Common {

  /** A value that may be missing (Python `None`, an absent key or attribute). */
  datatype Option<+T> = None | Some(value: T)

  /** A call that either returns a value or raises; `error` is the exception's `str()`. */
  datatype Result<+T> = Ok(value: T) | Err(error: string)
}
