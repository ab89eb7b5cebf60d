/** Shared result types, machine-integer bounds and clock type. */
module Prelude {
  datatype Option<+T> = None | Some(value: T)

  datatype Result<+T, +E> = Ok(value: T) | Err(error: E)

  const I64_MAX: int := 0x7FFF_FFFF_FFFF_FFFF
  const USIZE_MAX: int := 0xFFFF_FFFF_FFFF_FFFF

  /** A monotonic or wall-clock reading, in milliseconds. */
  type Instant = int

  type Byte = b: nat | b < 256

  function SaturatingAdd(a: nat, b: nat): (r: nat)
    ensures a + b <= USIZE_MAX ==> r == a + b
    ensures a <= USIZE_MAX ==> a <= r <= USIZE_MAX
    ensures a <= USIZE_MAX && a + b > USIZE_MAX ==> r == USIZE_MAX
  {
    if a + b <= USIZE_MAX then a + b else USIZE_MAX
  }

  function SaturatingSub(a: nat, b: nat): (r: nat)
    ensures b <= a ==> r + b == a
    ensures a < b ==> r == 0
  {
    if b <= a then a - b else 0
  }

  function Min(a: int, b: int): (r: int)
    ensures r <= a && r <= b && (r == a || r == b)
  {
    if a <= b then a else b
  }
}
