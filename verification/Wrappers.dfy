module Options {
  datatype Option<+T> = None | Some(value: T)
}

/** The source's exceptions become an error value. */
module Results {
  datatype Result<+T, +E> = Ok(value: T) | Err(error: E)
}
