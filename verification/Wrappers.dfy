/** The two small result types shared by every module of the model. */
module Wrappers {
  datatype Option<+T> = None | Some(value: T)

  /** A command either answers or is refused with the error its service or script raises. */
  datatype Result<+T, +E> = Ok(value: T) | Refused(error: E)
}
