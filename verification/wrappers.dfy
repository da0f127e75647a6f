/** Small shared types: bytes as numbers, and values that may be absent. */
module Wrappers {
  type byte = x: int | 0 <= x < 256

  datatype Option<+T> = None | Some(value: T)
}
