/** Outcome types shared by the modules: a call either returns a value or raises. */
module Results {

  /** The value a call returns, or the exception it raises. */
  datatype Result<T, E> = Ok(value: T) | Err(error: E)

  /** A value that may be absent. */
  datatype Option<T> = None | Some(value: T)
}
