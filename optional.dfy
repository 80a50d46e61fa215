// Python's `None` next to a value, and the error-or-value result of operations that can fail.
module Optional {
  datatype Option<T> = None | Some(value: T)

  datatype Result<T, E> = Ok(value: T) | Err(error: E)
}
