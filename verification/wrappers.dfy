/** Option and Result, both usable with `:-`, standing in for Rust's
    `Option<T>` and `Result<T, Error>`. */
module Wrappers {

  datatype Option<+T> = None | Some(value: T)

  /** `Success(v)` is Rust's `Ok(v)`, `Failure(e)` is `Err(e)`. */
  datatype Result<+T, +E> = Success(value: T) | Failure(error: E) {

    predicate IsFailure() {
      Failure?
    }

    function PropagateFailure<U>(): Result<U, E>
      requires Failure?
    {
      Failure(error)
    }

    function Extract(): T
      requires Success?
    {
      value
    }
  }

  /** The `ensure!(cond, err)` macro: succeed when `cond` holds, fail with `err` otherwise. */
  function Need<E>(cond: bool, error: E): (r: Result<(), E>)
    ensures r.Success? <==> cond
    ensures r.Failure? ==> r.error == error
  {
    if cond then Success(()) else Failure(error)
  }
}
