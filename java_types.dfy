/** The Java value types the crawling entities use: 32-bit `int` with its
    wrap-around addition, and `LocalDateTime` as a count of nanoseconds on the
    local time line, with `Duration.between(a, b).getSeconds()`. */
module JavaTypes {

  const Int32Min: int := -0x8000_0000
  const Int32Max: int := 0x7fff_ffff
  const Int32Modulus: int := 0x1_0000_0000

  newtype int32 = x: int | -0x8000_0000 <= x < 0x8000_0000

  /** `a + b` on Java `int`: the one 32-bit value congruent to the exact sum
      modulo 2^32, which is the exact sum whenever that fits. */
  function AddInt32(a: int32, b: int32): (r: int32)
    ensures (a as int + b as int - r as int) % Int32Modulus == 0
    ensures Int32Min <= a as int + b as int <= Int32Max ==> r as int == a as int + b as int
  {
    var sum := a as int + b as int;
    if sum > Int32Max then (sum - Int32Modulus) as int32
    else if sum < Int32Min then (sum + Int32Modulus) as int32
    else sum as int32
  }

  /** The largest count plus one wraps to the smallest. */
  lemma AddInt32Overflows()
    ensures AddInt32(0x7fff_ffff, 1) == -0x8000_0000
  {
  }

  /** A point of local date and time, in nanoseconds. */
  type LocalDateTime = int

  const NanosPerSecond: int := 1_000_000_000

  /** `Duration.between(start, end).getSeconds()`: the whole seconds of the
      span, rounded down (so a negative span of half a second gives -1). */
  function DurationSeconds(start: LocalDateTime, end: LocalDateTime): (s: int)
    ensures s * NanosPerSecond <= end - start < (s + 1) * NanosPerSecond
  {
    (end - start) / NanosPerSecond
  }
}
