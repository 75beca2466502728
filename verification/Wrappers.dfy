/** What all modules share: a Go pointer or map lookup that may be missing, and how a Go call ends. */
module Wrappers {
  datatype Option<+T> = None | Some(value: T)

  /** A call returns nil, returns an error, or panics. */
  datatype Outcome = Ok | Err | Panic
}
