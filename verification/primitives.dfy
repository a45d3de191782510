/**
 * Machine integers, identities and origins shared by the three pallets.
 *
 * The runtime works with fixed-width unsigned integers: balances are u128,
 * request and alert ids u64, the fee rate u32.  Dafny integers are unbounded,
 * so each width is a subset type and every checked or saturating operation
 * of the source is written out explicitly below.
 */
module Primitives {

  const U32_MAX: int := 0xFFFF_FFFF
  const U64_MAX: int := 0xFFFF_FFFF_FFFF_FFFF
  const U128_MAX: int := 0xFFFF_FFFF_FFFF_FFFF_FFFF_FFFF_FFFF_FFFF

  type u8 = x: int | 0 <= x < 256
  type u32 = x: int | 0 <= x <= U32_MAX
  type u64 = x: int | 0 <= x <= U64_MAX
  type u128 = x: int | 0 <= x <= U128_MAX

  /** Accounts are opaque identities; only equality matters. */
  type AccountId = nat

  /** Block heights, supplied by the host with every call. */
  type BlockNumber = nat

  /** A 32-byte hash (the runtime's `T::Hash`). */
  type H256 = s: seq<u8> | |s| == 32 witness seq(32, _ => 0)

  /** The origin a dispatchable is called with: root, a signed account, or none. */
  datatype Origin = Root | Signed(who: AccountId) | Unsigned

  datatype Option<T> = None | Some(value: T)

  datatype Result<T, E> = Ok(value: T) | Err(error: E)

  /** `u128::saturating_add`: clamps at the maximum instead of wrapping. */
  function SaturatingAdd(a: u128, b: u128): (r: u128)
    ensures a + b <= U128_MAX ==> r == a + b
    ensures a + b > U128_MAX ==> r == U128_MAX
    ensures a <= r && b <= r
  {
    if a + b <= U128_MAX then a + b else U128_MAX
  }

  /** `u128::saturating_sub`: clamps at zero. */
  function SaturatingSub(a: u128, b: u128): (r: u128)
    ensures b <= a ==> r == a - b
    ensures a < b ==> r == 0
    ensures r <= a
  {
    if b <= a then a - b else 0
  }

  /** `u128::saturating_mul`. */
  function SaturatingMul(a: u128, b: u128): (r: u128)
    ensures a * b <= U128_MAX ==> r == a * b
    ensures a * b > U128_MAX ==> r == U128_MAX
    ensures r <= a * b
  {
    if a * b <= U128_MAX then a * b else U128_MAX
  }

  /** `u64::saturating_add(1)`, used to bump the id counters. */
  function SaturatingIncrement(n: u64): (r: u64)
    ensures n < U64_MAX ==> r == n + 1
    ensures n == U64_MAX ==> r == n
  {
    if n < U64_MAX then n + 1 else n
  }
}
