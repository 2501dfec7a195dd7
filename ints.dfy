/** Rust's fixed-width integers `i64` and `u64`, and the `as` casts between them. */
module Ints {

  const TwoTo63: int := 0x8000_0000_0000_0000
  const TwoTo64: int := 0x1_0000_0000_0000_0000

  /** A value of Rust's `i64`. */
  type I64 = i: int | -0x8000_0000_0000_0000 <= i < 0x8000_0000_0000_0000

  /** A value of Rust's `u64`. */
  type U64 = n: int | 0 <= n < 0x1_0000_0000_0000_0000

  /** `x as i64`: keeps the low 64 bits of `x` and reads them as a two's-complement number. */
  function WrapToI64(x: int): (r: I64)
    ensures (r - x) % TwoTo64 == 0
  {
    (x + TwoTo63) % TwoTo64 - TwoTo63
  }

  /** `i as u64`: reads the 64 bits of `i` as an unsigned number. */
  function AsU64(i: I64): (r: U64)
    ensures (r - i) % TwoTo64 == 0
  {
    i % TwoTo64
  }

  /** A `u64` keeps its value under `as i64` when it fits, and otherwise loses exactly 2^64. */
  lemma WrapU64(v: U64)
    ensures WrapToI64(v) == if v < TwoTo63 then v else v - TwoTo64
  {
    if v < TwoTo63 {
      assert 0 <= v + TwoTo63 < TwoTo64;
    } else {
      assert TwoTo64 <= v + TwoTo63 < 2 * TwoTo64;
      assert (v + TwoTo63) % TwoTo64 == v + TwoTo63 - TwoTo64;
    }
  }

  /** Casting a `u64` to `i64` and back to `u64` gives the original value. */
  lemma U64RoundTrip(v: U64)
    ensures AsU64(WrapToI64(v)) == v
  {
    WrapU64(v);
    if v >= TwoTo63 {
      assert (v - TwoTo64) % TwoTo64 == v;
    }
  }
}
