/** Failure-carrying wrappers shared by the model: an optional value (Python's
    `None` or a value) and a result that is either a value or an error. */
module Common {

  /** A value that may be missing, as a Python `Optional[...]`. */
  datatype Option<+T> = None | Some(value: T)

  /** Either a value or the error that stopped the computation; models an
      exception that propagates out of a Python function. */
  datatype Result<+T, +E> = Ok(value: T) | Err(error: E)
}
