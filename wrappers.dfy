/** The optional value used for Go's nullable pointers in the response envelopes. */
module Wrappers {

  /** `None` stands for a nil pointer (an omitted slot), `Some(v)` for a pointer to `v`. */
  datatype Option<+T> = None | Some(value: T)
}
