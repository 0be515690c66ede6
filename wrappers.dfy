/** The optional-value datatype shared by the modules of this model. */
module Wrappers {

  /** A value that may be absent; failure-compatible, so `:-` propagates `None`. */
  datatype Option<+T> = None | Some(value: T) {

    predicate IsFailure() {
      None?
    }

    function PropagateFailure<U>(): Option<U>
      requires None?
    {
      None
    }

    function Extract(): T
      requires Some?
    {
      value
    }
  }
}
