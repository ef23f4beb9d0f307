/** Types and small functions shared by the other modules. */
module Prelude {
  datatype Option<+T> = None | Some(value: T)

  datatype Result<+T> = Ok(value: T) | Err(error: string)

  const U32_LIMIT: int := 0x1_0000_0000
  const U64_LIMIT: int := 0x1_0000_0000_0000_0000

  const U256_LIMIT: int := 0x1_0000000000000000_0000000000000000_0000000000000000_0000000000000000

  type u32 = x: int | 0 <= x < U32_LIMIT
  type u64 = x: int | 0 <= x < U64_LIMIT

  type u256 = x: int | 0 <= x < U256_LIMIT

  type byte = x: int | 0 <= x < 256
  type Bytes = seq<byte>

  /** A 32-byte value: a SHA-256 digest or a secret key. */
  type Bytes32 = b: seq<byte> | |b| == 32 witness seq(32, i => 0)

  function Min(a: int, b: int): int {
    if a <= b then a else b
  }

  function Max(a: int, b: int): int {
    if a >= b then a else b
  }

  /** Unsigned subtraction that stops at zero. */
  function SaturatingSub(a: nat, b: nat): nat {
    if a >= b then a - b else 0
  }

  /** 64-bit addition that stops at the largest value. */
  function SaturatingAdd64(a: u64, b: u64): u64 {
    if a + b < U64_LIMIT then a + b else U64_LIMIT - 1
  }

  /** 256-bit addition that stops at the largest value. */
  function SaturatingAdd256(a: u256, b: u256): u256 {
    if a + b < U256_LIMIT then a + b else U256_LIMIT - 1
  }

  /** 32-bit addition of one: wraps around at the largest value. */
  function WrappingInc32(a: u32): u32 {
    if a == U32_LIMIT - 1 then 0 else a + 1
  }

  /** 32-bit atomic decrement: wraps around below zero. */
  function WrappingDec32(a: u32): u32 {
    if a == 0 then U32_LIMIT - 1 else a - 1
  }

  // ---- Products, one fact at a time -------------------------------------------------------

  lemma MulDistributes(x: int, y: int, z: int)
    ensures x * (y + z) == x * y + x * z
  {
  }

  lemma MulNotNegative(x: nat, y: nat)
    ensures x * y >= 0
  {
  }

  /** A later multiple is at least one step further. */
  lemma NextMultiple(every: nat, a: int, b: int)
    ensures a < b ==> every * a + every <= every * b
  {
    if a < b {
      var k := b - a - 1;
      MulNotNegative(every, k);
      MulDistributes(every, a + 1, k);
      MulDistributes(every, a, 1);
    }
  }

  /** A product grows with its factor. */
  lemma MulMonotone(x: nat, a: int, b: int)
    requires a <= b
    ensures x * a <= x * b
  {
    MulNotNegative(x, b - a);
    MulDistributes(x, a, b - a);
  }
}
