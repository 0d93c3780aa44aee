/** Optional values, in place of the source's nil pointers, nil errors and "ok" flags. */
module Wrappers {

  datatype Option<+T> = None | Some(value: T)

  type byte = x: int | 0 <= x < 256

  /** Truncating conversion of an integer to a byte, as byte(x) does for any sign. */
  function ToByte(x: int): byte {
    x % 256
  }
}
