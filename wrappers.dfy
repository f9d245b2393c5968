/** Option and Result, used for the absent resolver and for property errors. */
module Wrappers {

  datatype Option<T> = None | Some(value: T)

  datatype Result<T, E> = Ok(value: T) | Err(error: E)

  /** 32-bit unsigned integers: D-Bus `u` values, uid_t and `unsigned int`. */
  newtype uint32 = x: int | 0 <= x < 0x1_0000_0000
}
