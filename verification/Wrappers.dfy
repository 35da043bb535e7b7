/** Result carriers shared by every module. */
module Wrappers {
  datatype Option<+T> = None | Some(value: T)

  datatype Result<+T, +E> = Ok(value: T) | Err(error: E)
}

/** Scalars that the cache only moves: an f32 is known by its bit pattern. */
module Scalars {
  newtype F32 = bits: int | 0 <= bits < 0x1_0000_0000
}
