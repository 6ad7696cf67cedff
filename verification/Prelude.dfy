/** Types every other module uses. */
module Prelude {
  type byte = b: int | 0 <= b < 256

  /** The largest `usize` of a 64-bit host. */
  const USIZE_MAX: nat := 0xFFFF_FFFF_FFFF_FFFF

  /** The largest payload of a packet. */
  const MAX_PAYLOAD: nat := 1024 * 1024

  datatype Option<+T> = None | Some(value: T)

  datatype Result<+T, +E> = Ok(value: T) | Err(error: E)

  function Min(a: int, b: int): (m: int)
    ensures m <= a && m <= b && (m == a || m == b)
  {
    if a <= b then a else b
  }

  function Max(a: int, b: int): (m: int)
    ensures m >= a && m >= b && (m == a || m == b)
  {
    if a >= b then a else b
  }

  /** `usize::saturating_add`. */
  function SaturatingAdd(a: nat, b: nat): (r: nat)
    ensures a + b <= USIZE_MAX ==> r == a + b
    ensures r <= a + b
  {
    Min(a + b, USIZE_MAX)
  }

  /** The little-endian `u32` four bytes spell. */
  function U32Le(b: seq<byte>): (n: nat)
    requires |b| == 4
    ensures n < 0x1_0000_0000
  {
    var b0: int, b1: int, b2: int, b3: int := b[0], b[1], b[2], b[3];
    b0 + 256 * b1 + 65536 * b2 + 16777216 * b3
  }

  /** `u32::to_le_bytes`. */
  function U32ToLe(n: nat): (b: seq<byte>)
    requires n < 0x1_0000_0000
    ensures |b| == 4 && U32Le(b) == n
  {
    var n1, n2, n3 := n / 256, n / 65536, n / 16777216;
    assert n1 / 256 == n2 && n2 / 256 == n3 < 256;
    assert n == n % 256 + 256 * n1 && n1 == n1 % 256 + 256 * n2 && n2 == n2 % 256 + 256 * n3;
    [n % 256, n1 % 256, n2 % 256, n3]
  }
}
