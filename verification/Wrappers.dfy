/** Result and option types shared by every component. */
module Wrappers {

  datatype Option<+T> = None | Some(value: T)

  /** A call either returns a value or raises one of the component's errors. */
  datatype Result<+T, +E> = Ok(value: T) | Err(error: E)
}
