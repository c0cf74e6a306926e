/** Calls that may raise. */
module Flows {

  /** The outcome of a call that may raise. */
  datatype Flow<+T> = Returned(value: T) | Raised {
    predicate IsFailure() {
      Raised?
    }

    function PropagateFailure<U>(): Flow<U>
      requires IsFailure()
    {
      Raised
    }

    function Extract(): T
      requires !IsFailure()
    {
      value
    }
  }

  datatype Unit = Unit
}
