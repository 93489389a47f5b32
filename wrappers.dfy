/** Option and Result, the failure-carrying values used across the model. */
module Wrappers {

  datatype Option<+T> = None | Some(value: T)

  datatype Result<+R, +E> = Success(value: R) | Failure(error: E)

  /** Python truthiness of an optional string: None and "" are both false. */
  predicate Truthy(s: Option<string>)
  {
    s.Some? && s.value != ""
  }
}
