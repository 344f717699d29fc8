/** Small value types shared by every component. */
module Common {

  datatype Option<+T> = None | Some(value: T)

  datatype Result<+T, +E> = Ok(value: T) | Err(error: E)

  /** `u64::MAX` (and `usize::MAX` on the supported 64-bit targets). */
  const U64_MAX: int := 0xFFFF_FFFF_FFFF_FFFF

  /** `u32::MAX`. */
  const U32_MAX: int := 0xFFFF_FFFF

  type U32 = n: int | 0 <= n <= U32_MAX

  type U64 = n: int | 0 <= n <= U64_MAX

  /** `u64::saturating_add`. */
  function SatAdd(a: nat, b: nat): (r: nat) {
    if a + b > U64_MAX then U64_MAX else a + b
  }

  /** `u64::saturating_sub`. */
  function SatSub(a: nat, b: nat): (r: nat) {
    if a < b then 0 else a - b
  }

  /** Characters with the Unicode `White_Space` property. */
  predicate IsWhitespace(c: char) {
    var n := c as int;
    || 9 <= n <= 13 || n == 0x20 || n == 0x85 || n == 0xA0 || n == 0x1680
    || 0x2000 <= n <= 0x200A || n == 0x2028 || n == 0x2029 || n == 0x202F || n == 0x205F || n == 0x3000
  }

  /** `s.trim().is_empty()`. */
  predicate Blank(s: string) {
    forall i :: 0 <= i < |s| ==> IsWhitespace(s[i])
  }
}
