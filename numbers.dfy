/**
 * JavaScript number operations the core applies to integral values: `Math.round`,
 * the `ToInt32` conversion behind the bitwise operators, `>>` and `& 255`.
 * Numbers are exact reals and integers here; rounding errors of binary64 are not modelled.
 */
module Numbers {

  const TwoTo31: int := 0x8000_0000
  const TwoTo32: int := 0x1_0000_0000

  /** `Math.round(x)`: the nearest integer, halves rounded towards +infinity. */
  function Round(x: real): (r: int)
    ensures x - 0.5 < r as real <= x + 0.5
  {
    (x + 0.5).Floor
  }

  /** Rounding a value between two integers stays between them. */
  lemma RoundBetween(x: real, lo: int, hi: int)
    requires lo as real <= x <= hi as real
    ensures lo <= Round(x) <= hi
  {
    var r := Round(x);
    assert (lo - 1) as real < r as real;
    assert r as real < (hi + 1) as real;
  }

  /** `Math.max(lo, Math.min(hi, x))`. */
  function Clamp(x: real, lo: real, hi: real): (r: real)
    requires lo <= hi
    ensures lo <= r <= hi
    ensures lo <= x <= hi ==> r == x
    ensures x < lo ==> r == lo
    ensures hi < x ==> r == hi
  {
    if x < lo then lo else if hi < x then hi else x
  }

  /** ECMAScript ToInt32 on an integral value: wrap-around into the signed 32-bit range. */
  function ToInt32(n: int): (r: int)
    ensures -TwoTo31 <= r < TwoTo31
    ensures (n - r) % TwoTo32 == 0
    ensures -TwoTo31 <= n < TwoTo31 ==> r == n
  {
    (n + TwoTo31) % TwoTo32 - TwoTo31
  }

  function Pow2(k: nat): (p: nat)
    ensures p >= 1
  {
    if k == 0 then 1 else 2 * Pow2(k - 1)
  }

  /**
   * `n >> k` for 0 <= k < 32: the sign-propagating shift of the 32-bit value, that is
   * the floor of ToInt32(n) / 2^k (Dafny's division by a positive divisor rounds down).
   */
  function ShiftRight(n: int, k: nat): int
    requires k < 32
  {
    ToInt32(n) / Pow2(k)
  }

  /** `n & 255`: the low byte of the two's-complement 32-bit value. */
  function LowByte(n: int): (r: int)
    ensures 0 <= r < 256
    ensures 0 <= n < 256 ==> r == n
  {
    ToInt32(n) % 256
  }
}
