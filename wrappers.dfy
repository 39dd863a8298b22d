/** Rust's `Option`, the absence result every extractor of the value model returns. */
module Wrappers {

  datatype Option<+T> = None | Some(value: T)
}
