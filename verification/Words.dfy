/** Machine words: 64-bit and 256-bit arithmetic that wraps or saturates. */
module Words {
  const U64_SIZE: nat := 0x1_0000_0000_0000_0000
  const U256_SIZE: nat := 0x1_0000_0000_0000_0000_0000_0000_0000_0000_0000_0000_0000_0000_0000_0000_0000_0000

  type U64 = x: nat | x < U64_SIZE
  type U256 = x: nat | x < U256_SIZE

  function WrappingAdd64(a: U64, b: U64): U64 {
    if a + b < U64_SIZE then a + b else a + b - U64_SIZE
  }

  function WrappingSub64(a: U64, b: U64): U64 {
    if a >= b then a - b else a - b + U64_SIZE
  }

  function WrappingAdd(a: U256, b: U256): U256 {
    if a + b < U256_SIZE then a + b else a + b - U256_SIZE
  }

  /** A sum of words added up with wrapping additions. */
  function Wrapped(sum: nat): U256 {
    sum % U256_SIZE
  }

  function WrappingMul(a: nat, b: nat): U256 {
    if a * b < U256_SIZE then a * b else a * b % U256_SIZE
  }

  function SaturatingAdd(a: nat, b: nat): U256 {
    if a + b < U256_SIZE then a + b else U256_SIZE - 1
  }

  function SaturatingSub(a: nat, b: nat): nat {
    if a < b then 0 else a - b
  }

  function SaturatingMul(a: nat, b: nat): U256 {
    if a * b < U256_SIZE then a * b else U256_SIZE - 1
  }

  function Max(a: nat, b: nat): nat {
    if a < b then b else a
  }
}
