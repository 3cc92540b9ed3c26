/** The optional-value wrapper used for JavaScript's `undefined`. */
module Wrappers {

  /** A value that may be absent: `None` stands for `undefined`. */
  datatype Option<+T> = None | Some(value: T)
}
