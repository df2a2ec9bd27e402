/** Result types and machine-integer bounds shared by every module. */
module Wrappers {

  datatype Option<+T> = None | Some(value: T)

  datatype Result<+T, +E> = Ok(value: T) | Err(error: E)

  /** One past the largest `u64`. */
  const U64: nat := 0x1_0000_0000_0000_0000

  /** The largest `i64`. */
  const I64_MAX: nat := 0x7FFF_FFFF_FFFF_FFFF

  /** The low 64 bits. */
  function Wrap64(n: nat): nat {
    n % U64
  }

  /** `u64` addition of a release build: it wraps. */
  function Add64(a: nat, b: nat): nat {
    Wrap64(a + b)
  }

  /** `u64` multiplication of a release build: it wraps. */
  function Mul64(a: nat, b: nat): nat {
    Wrap64(a * b)
  }

  /** `u64::saturating_sub`. */
  function SatSub(a: nat, b: nat): nat {
    if a >= b then a - b else 0
  }

  function Max(a: nat, b: nat): nat {
    if a >= b then a else b
  }

  function Min(a: nat, b: nat): nat {
    if a <= b then a else b
  }
}
