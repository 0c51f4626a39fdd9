/** Rust's `Option`, used for optional fields and lookups throughout the model. */
module Wrappers {
  datatype Option<+T> = None | Some(value: T)
}
