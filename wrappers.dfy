/** Failure-compatible wrappers shared by every module of the model.
    A Java `null` argument is `None`; a thrown exception is `Err`. */
module Wrappers {

  datatype Option<+T> = None | Some(value: T)

  /** The exception classes the core throws, each with its message. */
  datatype Error =
    | IllegalArgument(message: string)
    | IllegalState(message: string)
      /** the store's unique constraint on (customer_id, asset_name) rejected an insert */
    | UniqueViolation(message: string)

  datatype Result<+T> = Ok(value: T) | Err(error: Error) {

    predicate IsFailure() {
      Err?
    }

    function PropagateFailure<U>(): Result<U>
      requires Err?
    {
      Err(error)
    }

    function Extract(): T
      requires Ok?
    {
      value
    }
  }

  /** The outcome of a `void` method: it returns normally or throws. */
  datatype Outcome = Pass | Fail(error: Error) {

    predicate IsFailure() {
      Fail?
    }

    function PropagateFailure<U>(): Result<U>
      requires Fail?
    {
      Err(error)
    }
  }
}
