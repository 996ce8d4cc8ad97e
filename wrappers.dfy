/** Outcomes of operations that can fail: a value, or the error the Python
    code would raise at that point. */
module Wrappers {

  datatype Option<T> = None | Some(value: T)

  datatype Result<T, E> = Ok(value: T) | Err(error: E)
}
