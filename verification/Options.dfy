/** Optional values and outcomes that can be errors. */
module Options {
  datatype Option<T> = None | Some(value: T)
  datatype Result<T, E> = Ok(value: T) | Err(error: E)
}
