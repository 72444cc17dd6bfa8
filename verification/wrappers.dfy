/** The optional value used wherever a JavaScript read can yield `undefined`. */
module Wrappers {

  /** `None` stands for `undefined`, `Some(v)` for a value that is present. */
  datatype Option<+T> = None | Some(value: T)
}
