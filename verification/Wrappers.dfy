module Wrappers {
  /** A value, or nothing: Python's `None`, or the exception a call would raise. */
  datatype Option<+T> = None | Some(value: T)
}
