/** Types that several modules share. */
module Prelude {

  datatype Option<T> = None | Some(value: T)

  // Fixed-width unsigned integers. Where an operation wraps or truncates, that is written out.
  type u8 = x: int | 0 <= x < 0x100
  type u16 = x: int | 0 <= x < 0x1_0000
  type u32 = x: int | 0 <= x < 0x1_0000_0000
}
