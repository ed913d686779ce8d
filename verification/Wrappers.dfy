/** Option and Result, the latter for calls that raise in the source. */
module Wrappers {
  datatype Option<+T> = None | Some(value: T)

  datatype Result<+T> = Ok(value: T) | Err(message: string) {
    predicate IsFailure() { Err? }
    function PropagateFailure<U>(): Result<U> requires Err? { Err(message) }
    function Extract(): T requires Ok? { value }
  }
}
