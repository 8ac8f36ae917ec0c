/** Outcomes of the library's operations: a value, or the runtime fault the Python code would raise. */
module Outcomes {

  /** The faults the helpers can raise. */
  datatype Error =
    | DivisionByZero    // ZeroDivisionError: average of an empty list, Newton step at a zero derivative
    | IndexOutOfRange   // IndexError: the polygon area of an empty coordinate array
    | UnknownUnit       // the explicit "Unknown unit" exception of the inter-vector angle

  datatype Result<T> = Success(value: T) | Failure(error: Error)

  datatype Option<T> = None | Some(value: T)
}
