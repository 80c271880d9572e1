/** The optional value that a parse of a form field yields. */
module Wrappers {

  /** `None` stands for a parse that produced NaN (an empty or non-numeric field). */
  datatype Option<+T> = None | Some(value: T)
}
