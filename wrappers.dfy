/** Option and Result types shared by the modules of this model: a Java
    reference that may be null becomes an Option, and a method that may
    throw a checked exception returns a Result. */
module Wrappers {

  datatype Option<+T> = None | Some(value: T)

  datatype Result<+T, +E> = Success(value: T) | Failure(error: E)
}
