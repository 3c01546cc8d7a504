/** Machine integers of the two programs, and the wrapping and saturating
    operations the code applies to them. */
module Numbers {
  const U32_MODULUS: int := 0x1_0000_0000
  const U64_MODULUS: int := 0x1_0000_0000_0000_0000
  const HALF_U32: int := 0x8000_0000

  type u8 = x: int | 0 <= x < 0x100
  type u16 = x: int | 0 <= x < 0x1_0000
  type u32 = x: int | 0 <= x < U32_MODULUS
  type u64 = x: int | 0 <= x < U64_MODULUS
  type i16 = x: int | -0x8000 <= x < 0x8000

  datatype Option<+T> = None | Some(value: T)

  datatype Result<+T> = Success(value: T) | Failure

  /** `u32::wrapping_sub`. */
  function WrappingSub(a: u32, b: u32): u32 {
    if a >= b then a - b else a - b + U32_MODULUS
  }

  /** `u32::wrapping_add`. */
  function WrappingAdd(a: u32, b: u32): u32 {
    if a + b < U32_MODULUS then a + b else a + b - U32_MODULUS
  }

  /** `u64::wrapping_add`. */
  function WrappingAdd64(a: u64, b: u64): u64 {
    if a + b < U64_MODULUS then a + b else a + b - U64_MODULUS
  }

  /** `u64::wrapping_sub`. */
  function WrappingSub64(a: u64, b: u64): u64 {
    if a >= b then a - b else a - b + U64_MODULUS
  }

  /** `u64::saturating_add`; on the targets of both programs `usize` is 64 bits wide. */
  function SaturatingAdd(a: u64, b: nat): u64 {
    Saturate(a + b)
  }

  /** The value a saturating counter shows after counting `n`. */
  function Saturate(n: nat): u64 {
    if n < U64_MODULUS then n else U64_MODULUS - 1
  }

  /** Silent samples. */
  function Zeros(n: nat): seq<i16> {
    seq(n, _ => 0)
  }

  function Min(a: int, b: int): int { if a <= b then a else b }

  function Max(a: int, b: int): int { if a >= b then a else b }

  /** `usize::div_ceil`. */
  function DivCeil(a: nat, b: nat): nat
    requires b > 0
  {
    (a + b - 1) / b
  }

  /** `u16::abs_diff`. */
  function AbsDiff(a: int, b: int): nat { if a >= b then a - b else b - a }

  /** The first key of an ordered set. */
  ghost function Least(keys: set<nat>): (k: nat)
    requires keys != {}
    ensures k in keys && forall j <- keys :: k <= j
  {
    var j :| j in keys;
    if keys == {j} then j else
      var k := Least(keys - {j});
      assert keys == (keys - {j}) + {j};
      Min(j, k)
  }

  method FindLeast(keys: set<nat>) returns (least: nat)
    requires keys != {}
    ensures least == Least(keys)
  {
    least :| least in keys;
    var rest := keys - {least};
    while rest != {}
      invariant rest <= keys && least in keys
      invariant forall j <- keys :: j in rest || least <= j
      decreases rest
    {
      var j :| j in rest;
      rest := rest - {j};
      if j < least {
        least := j;
      }
    }
  }
}
