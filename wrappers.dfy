/** Optional values and error-carrying results shared by the whole model.
    `None` also stands for JavaScript's `undefined` where a field may be absent. */
module Wrappers {

  datatype Option<+T> = None | Some(value: T)

  datatype Result<+R, +E> = Ok(value: R) | Err(error: E)
}
