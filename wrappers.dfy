/** The success/failure result used where the program either produces a value
    or aborts with an error (an `Err` or an `unwrap` on `None`). */
module Wrappers {

  datatype Result<+T, +E> = Success(value: T) | Failure(error: E)

}
