/** Fixed-width integers of the Go and Python sources and their wrap-around. */
module Machine {

  const U32_LIMIT: int := 0x1_0000_0000
  const U64_LIMIT: int := 0x1_0000_0000_0000_0000

  type byte = x: int | 0 <= x < 256
  type u32 = x: int | 0 <= x < U32_LIMIT
  type i32 = x: int | -0x8000_0000 <= x < 0x8000_0000
  type u64 = x: int | 0 <= x < U64_LIMIT

  /** Go's `a + b` on uint32: the sum modulo 2^32. */
  function AddU32(a: u32, b: u32): (r: u32)
    ensures a + b < U32_LIMIT ==> r == a + b
    ensures a + b >= U32_LIMIT ==> r == a + b - U32_LIMIT
  {
    (a + b) % U32_LIMIT
  }

  /** Go's `a * b` on uint32. */
  function MulU32(a: u32, b: u32): u32
  {
    (a * b) % U32_LIMIT
  }

  /** Go's `a + b` on uint64. */
  function AddU64(a: u64, b: u64): (r: u64)
    ensures a + b < U64_LIMIT ==> r == a + b
    ensures a + b >= U64_LIMIT ==> r == a + b - U64_LIMIT
  {
    (a + b) % U64_LIMIT
  }

  /** Go's conversion `uint32(x)` of an int32: two's complement reinterpretation. */
  function U32OfI32(x: i32): (r: u32)
    ensures x >= 0 ==> r == x
    ensures x < 0 ==> r == x + U32_LIMIT
  {
    if x >= 0 then x else x + U32_LIMIT
  }

  /** Go's conversion `uint32(n)` of a length: truncation modulo 2^32. */
  function U32OfNat(n: nat): (r: u32)
    ensures n < U32_LIMIT ==> r == n
  {
    n % U32_LIMIT
  }

  /** Adding to a sum already reduced modulo 2^64 reduces the larger sum. */
  lemma WrapStep64(x: int, r: u64, b: u64)
    requires r == x % U64_LIMIT
    ensures AddU64(r, b) == (x + b) % U64_LIMIT
  {
  }

  lemma SmallMod64(b: u64)
    ensures b % U64_LIMIT == b
  {
  }

  /** Adding to a sum already reduced modulo 2^32 reduces the larger sum. */
  lemma WrapStep32(x: int, r: u32, b: u32)
    requires r == x % U32_LIMIT
    ensures AddU32(r, b) == (x + b) % U32_LIMIT
  {
  }

  lemma SmallMod32(x: int)
    requires 0 <= x < U32_LIMIT
    ensures x % U32_LIMIT == x
  {
  }
}
