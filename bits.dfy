/**
 * Read-modify-write helpers on 32-bit register words: the driver's
 * `reg |= m` (set bits) and `reg &= ~m` (clear bits).
 */
module Bits {

  /** `reg |= m`: every bit of `m` is set, every other bit is kept. */
  function SetBits(w: bv32, m: bv32): (r: bv32)
    ensures r & m == m
    ensures r & !m == w & !m
  {
    w | m
  }

  /** `reg &= ~m`: every bit of `m` is cleared, every other bit is kept. */
  function ClearBits(w: bv32, m: bv32): (r: bv32)
    ensures r & m == 0
    ensures r & !m == w & !m
  {
    w & !m
  }

  /** Setting bits twice is setting them once. */
  lemma SetBitsIdempotent(w: bv32, m: bv32)
    ensures SetBits(SetBits(w, m), m) == SetBits(w, m)
  {
  }

  /** Clearing bits twice is clearing them once. */
  lemma ClearBitsIdempotent(w: bv32, m: bv32)
    ensures ClearBits(ClearBits(w, m), m) == ClearBits(w, m)
  {
  }

  /** Clearing what was just set leaves the word as if only the clear had happened. */
  lemma ClearAfterSet(w: bv32, m: bv32)
    ensures ClearBits(SetBits(w, m), m) == ClearBits(w, m)
  {
  }
}
