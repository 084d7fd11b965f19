/** Values that stand for a Python `Optional[...]` and for a collaborator call that may raise. */
module Outcomes {

  /** `None` or a present value, as `Optional[T]`. */
  datatype Option<+T> = None | Some(value: T)

  /** What a call into a store or resolver does: it returns a value, or it raises. */
  datatype Fallible<+T> = Returned(value: T) | Raised
}
