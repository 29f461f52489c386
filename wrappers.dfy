/** Option and Result, the two failure-compatible wrappers the proxy pipeline
    is written with. `Result` supports `:-`, which plays the part of the
    future's `and_then` chaining: an `Err` short-circuits the rest. */
module Wrappers {

  datatype Option<+T> = None | Some(value: T)

  datatype Result<+T, +E> = Ok(value: T) | Err(error: E) {

    predicate IsFailure() {
      Err?
    }

    function PropagateFailure<U>(): Result<U, E>
      requires Err?
    {
      Err(error)
    }

    function Extract(): T
      requires Ok?
    {
      value
    }
  }
}
