/** Optional values, as Rust's `Option` is used by the modelled code. */
module Wrappers {

  datatype Option<+T> = None | Some(value: T)
}
