/** The optional value that Rust's `Option` provides. */
module Wrappers {

  datatype Option<+T> = None | Some(value: T)
}
