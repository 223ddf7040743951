// Types that several components share.

module Common {

  datatype Option<+T> = None | Some(value: T)

  type byte = x: int | 0 <= x < 256
  type uint64 = x: int | 0 <= x < 0x1_0000_0000_0000_0000

  const MAX_UINT64: uint64 := 0xFFFF_FFFF_FFFF_FFFF
}
