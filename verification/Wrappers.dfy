/** Types shared by the models. */
module Wrappers {

  datatype Option<+T> = None | Some(value: T)

  /** Unsigned 64-bit values; arithmetic on them wraps at WRAP where the source's does. */
  const WRAP := 0x1_0000_0000_0000_0000
  type u64 = x: int | 0 <= x < WRAP
}
