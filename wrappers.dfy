/** Optional values and results with an error, used for JavaScript's absent
    fields (`null`/`undefined`) and for thrown errors. */
module Wrappers {

  datatype Option<+T> = None | Some(value: T)

  datatype Result<+T, +E> = Ok(value: T) | Err(error: E)
}
