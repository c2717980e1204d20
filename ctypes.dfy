/** Fixed-width integers of the C ABI that the library passes to and from libbpf,
    and byte buffers. Rust's integer casts are written out explicitly. */
module CTypes {

  newtype u8 = x: int | 0 <= x < 0x100
  newtype u32 = x: int | 0 <= x < 0x1_0000_0000
  newtype i32 = x: int | -0x8000_0000 <= x < 0x8000_0000
  newtype i64 = x: int | -0x8000_0000_0000_0000 <= x < 0x8000_0000_0000_0000

  /** A Rust `&[u8]` / `Vec<u8>`. */
  type Bytes = seq<u8>

  const U32_MAX: u32 := 0xFFFF_FFFF
  const I32_MIN: i32 := -0x8000_0000

  /** `vec![0; n]`: n zero bytes. */
  function Zeros(n: nat): (z: Bytes)
    ensures |z| == n
    ensures forall i :: 0 <= i < n ==> z[i] == 0
  {
    seq(n, _ => 0)
  }

  /** Rust's `-x` on an `i32` in a release build: two's complement, so that
      the one value without a positive counterpart, `i32::MIN`, stays put. */
  function Neg(x: i32): i32
  {
    if x == I32_MIN then I32_MIN else -x
  }

  /** Rust's `x as i32` on an `i64` (a C `long`): keeps the low 32 bits and
      reinterprets them as signed. */
  function TruncI32(x: i64): (r: i32)
    ensures (r as int - x as int) % 0x1_0000_0000 == 0
    ensures I32_MIN as int <= x as int < 0x8000_0000 ==> r as int == x as int
  {
    var low := (x as int) % 0x1_0000_0000;
    if low < 0x8000_0000 then low as i32 else (low - 0x1_0000_0000) as i32
  }

  /** Rust's `n as u32` on a `usize` length: keeps the low 32 bits. */
  function TruncU32(n: nat): (r: u32)
    ensures (r as int - n) % 0x1_0000_0000 == 0
    ensures n < 0x1_0000_0000 ==> r as int == n
  {
    (n % 0x1_0000_0000) as u32
  }
}
