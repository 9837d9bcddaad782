/** The optional value shared by the pixel buffer and the scene (Rust's Option). */
module Wrappers {
  datatype Option<+T> = None | Some(value: T)
}
