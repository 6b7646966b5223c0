/** Small value types shared by the whole model. */
module Basics {

  /** Swift's optional: `nil` or a wrapped value. */
  datatype Option<T> = None | Some(value: T)

  /** An octet of a response body. */
  newtype Byte = b: int | 0 <= b < 256

  /** A response body (`Data`). */
  type Bytes = seq<Byte>
}
