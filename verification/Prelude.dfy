/** The two datatypes every other module uses in place of `undefined` and of thrown errors. */
module Prelude {

  datatype Option<+T> = None | Some(value: T)

  datatype Result<+T, +E> = Success(value: T) | Failure(error: E)
}
