/** Failure-compatible optional values, used wherever the modelled code can
    come back with "nothing": a store read that finds no document, a
    `parseInt` that yields NaN, a reader that meets malformed input. */
module Wrappers {

  datatype Option<+T> = None | Some(value: T) {

    predicate IsFailure() {
      None?
    }

    function PropagateFailure<U>(): Option<U>
      requires None?
    {
      None
    }

    function Extract(): T
      requires Some?
    {
      value
    }

  }
}
