/** Machine words and the two result shapes every component uses. */
module Common {
  const U64_MAX: int := 0xFFFF_FFFF_FFFF_FFFF

  type U64 = n: int | 0 <= n <= U64_MAX

  datatype Option<+T> = None | Some(value: T)

  datatype Result<+T, +E> = Ok(value: T) | Err(error: E)

  /** `u64::checked_add(1)`. */
  function CheckedSucc(n: U64): Option<U64> {
    if n == U64_MAX then None else Some(n + 1)
  }

  /** `u64::saturating_add`. */
  function SaturatingAdd(a: U64, b: U64): U64 {
    if a + b > U64_MAX then U64_MAX else a + b
  }

  function Last<T>(s: seq<T>): T
    requires |s| > 0
  {
    s[|s| - 1]
  }
}
