/** What every part of the model uses. */
module Basics {

  /** A value or its absence; `:-` passes the absence on. */
  datatype Option<+T> = None | Some(value: T) {
    predicate IsFailure() { None? }
    function PropagateFailure<U>(): Option<U> requires None? { None }
    function Extract(): T requires Some? { value }
  }

  const U64: nat := 0x1_0000_0000_0000_0000
  const MAX64: nat := U64 - 1
}
