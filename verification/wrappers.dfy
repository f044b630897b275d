/** The C code's nullable pointers, as an option type. */
module Wrappers {

  /** `None` stands for a NULL pointer, `Some(v)` for a pointer to `v`. */
  datatype Option<+T> = None | Some(value: T)
}
