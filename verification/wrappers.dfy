/** The optional value shared by both halves of the model. */
module Wrappers {

  /** The conventional Some/None datatype, standing for Rust's `Option`. */
  datatype Option<+T> = None | Some(value: T)
}
