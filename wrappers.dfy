/** Shared helper datatypes used by several pattern models. */
module Wrappers {

  /** A value that may be absent (a null pointer, a failed parse). */
  datatype Option<+T> = None | Some(value: T)
}
