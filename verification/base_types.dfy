/** Fixed-width unsigned integer types used by the C++ sources, as subset types of int. */
module BaseTypes {
  type uint8 = x: int | 0 <= x < 0x100
  type uint16 = x: int | 0 <= x < 0x1_0000
  type uint32 = x: int | 0 <= x < 0x1_0000_0000
}

/** A value that may be absent; stands for a pointer that may be NULL. */
module Wrappers {
  datatype Option<+T> = None | Some(value: T)
}
