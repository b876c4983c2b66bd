/** Stand-ins for Java's null and for a call that may raise. */
module Wrappers {

  /** A reference that may be null. */
  datatype Option<+T> = None | Some(value: T)

  /** How a Java call ends: it returns a value normally, or completes
      abruptly by raising an exception that its caller does not catch. */
  datatype Completion<+T> = Normal(value: T) | Abrupt
}
