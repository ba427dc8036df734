/** Optional values and results with an error, used wherever the Python code
    returns None or raises. */
module Maybe {

  datatype Option<+T> = None | Some(value: T)

  datatype Result<+T, +E> = Ok(value: T) | Err(error: E)
}
