/** Failure-carrying datatypes shared by every module of the model.
    Python signals failure by raising an exception; here an operation that
    can raise returns a `Result` whose `Failure` names the exception. */
module Wrappers {

  datatype Option<+T> = None | Some(value: T)

  datatype Result<+T, +E> = Success(value: T) | Failure(error: E)

  /** The Python exceptions the modelled code can raise. */
  datatype PyException =
    | KeyError(key: string)   // dictionary lookup of a missing key
    | IndexError              // indexing past the end of a list or array
    | TypeError               // arithmetic on an operand of the wrong type
    | ValueError              // numpy shape mismatch or empty reduction
    | ZeroDivisionError       // true division by zero
}
