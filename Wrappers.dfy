/** Small value wrappers shared by both services. */
module Wrappers {

  /** A value that may be absent; stands for a Java reference that may be null. */
  datatype Option<+T> = None | Some(value: T)

  /** The result of a remote or delegated call: it either fails (any exception,
      timeout or non-success status) or succeeds with a value. */
  datatype Outcome<+T> = Failure | Success(value: T)
}
