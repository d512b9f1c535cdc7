/** The optional value the engine returns where Rust uses `Option`, and where a
    panic (an `unwrap` on nothing, a `panic!`, an overflow) ends the computation. */
module Wrappers {
  datatype Option<T> = None | Some(value: T)
}
