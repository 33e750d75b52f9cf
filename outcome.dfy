/** The exceptions the modelled Python code can raise, and a result type that
    carries either a value or one of them. */
module Outcome {

  /** The Python exception kinds that reach a caller of the modelled code. */
  datatype PyError =
    | ZeroDivisionError      // float division by zero
    | ValueError             // tuple unpacking of a list of the wrong length
    | NotImplementedError(message: string)

  datatype Result<+T> = Success(value: T) | Failure(error: PyError) {

    predicate IsFailure() {
      Failure?
    }

    function PropagateFailure<U>(): Result<U>
      requires Failure?
    {
      Failure(error)
    }

    function Extract(): T
      requires Success?
    {
      value
    }
  }
}
