/** The optional value used for Go's nullable `*Errors` handle. */
module Wrappers {

  /** `None` stands for the nil pointer, `Some(v)` for a pointer to `v`. */
  datatype Option<+T> = None | Some(value: T)
}
