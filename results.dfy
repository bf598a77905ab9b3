/** Optional values and results with an error, as the Rust code uses `Option` and `Result`. */
module Results {
  datatype Option<T> = None | Some(value: T)

  datatype Result<T, E> = Ok(value: T) | Err(error: E)
}
