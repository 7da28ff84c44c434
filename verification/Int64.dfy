/** Go's 64-bit `int`. */
module Int64 {
  const INT64_LIMIT := 0x8000_0000_0000_0000

  /** Two's-complement wrap-around. */
  function WrapInt64(n: int): int {
    (n + INT64_LIMIT) % (2 * INT64_LIMIT) - INT64_LIMIT
  }
}
