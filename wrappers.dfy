/** The optional value used for a node's recorded operation (Rust's `Option`). */
module Wrappers {
  datatype Option<+T> = None | Some(value: T)
}
