/** Failure-compatible wrappers shared by the whole model. */
module Outcomes {

  /** A Go pointer that may be nil, or a map lookup that may miss. */
  datatype Option<+T> = None | Some(value: T)

  /** The result of a Go computation that either returns a value or panics
      (a nil dereference, an index out of range, an explicit panic). A panic
      ends the whole program, so nothing after it is modelled. */
  datatype Fallible<+T> = Ok(value: T) | Panic(reason: string)
}
