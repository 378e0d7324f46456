/** Option and Result values, used for the null/absent cases and for
    operations that either produce a value or fail with an error. */
module Wrappers {

  datatype Option<+T> = None | Some(value: T)

  datatype Result<+T, +E> = Success(value: T) | Failure(error: E)
}
