/** Shared helper: the optional value used wherever the Java source allows `null`. */
module Wrappers {

  /** `None` stands for a Java `null` reference, `Some(v)` for a non-null one. */
  datatype Option<+T> = None | Some(value: T)
}
