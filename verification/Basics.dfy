/** Names that several modules share. */
module Basics {
  type Tid = nat

  datatype Option<+T> = None | Some(value: T)

  const TWO32: nat := 0x1_0000_0000

  /** An unsigned 32-bit result. */
  function U32(x: int): nat { x % TWO32 }
}
