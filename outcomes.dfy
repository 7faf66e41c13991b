/** Failure-compatible wrappers shared by the whole model. */
module Outcomes {

  /** An optional value (std::optional, or a lookup that may find nothing). */
  datatype Option<+T> = None | Some(value: T) {
    predicate IsFailure() { None? }

    function PropagateFailure<U>(): Option<U>
    {
      None
    }

    function Extract(): T
      requires Some?
    {
      value
    }
  }

  /** How a piece of the C++ code ends: it returns a value, it throws a
      std::exception, or it reaches undefined behaviour (after which the
      program's behaviour is not defined at all, so nothing is modelled
      beyond the fact that it was reached). The first failure wins. */
  datatype Outcome<+T> = Done(value: T) | Thrown | Undefined {
    predicate IsFailure() { !Done? }

    function PropagateFailure<U>(): Outcome<U>
    {
      if Thrown? then Thrown else Undefined
    }

    function Extract(): T
      requires Done?
    {
      value
    }
  }
}
