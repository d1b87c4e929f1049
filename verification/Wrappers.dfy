/** Values that may be absent, for the source's nil. */
module Wrappers {
  datatype Option<+T> = None | Some(value: T)
}

module Bytes {
  type byte = x: int | 0 <= x < 256
}
