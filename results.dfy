/** Option and Result values, used wherever the source returns None, raises or
    reports an error instead of producing a value. */
module Results {

  datatype Option<+T> = None | Some(value: T)

  datatype Result<+T, +E> = Ok(value: T) | Err(error: E)
}
