/** Small value wrappers shared by the other modules. */
module Wrappers {

  /** An optional value: `None` stands for Go's `nil`. */
  datatype Option<+T> = None | Some(value: T)

  /** Unsigned integer widths used by the wire messages. */
  newtype uint16 = x: int | 0 <= x < 0x1_0000
  newtype uint32 = x: int | 0 <= x < 0x1_0000_0000
  newtype uint64 = x: int | 0 <= x < 0x1_0000_0000_0000_0000

  /** A byte string; Go's `[]byte` once `nil` has been split off with `Option`. */
  type Bytes = seq<bv8>
}
