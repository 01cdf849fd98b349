/** Fixed-width integers of the source and the `as` casts between them. */
module Ints {

  const TWO_TO_THE_32: int := 0x1_0000_0000
  const TWO_TO_THE_63: int := 0x8000_0000_0000_0000
  const TWO_TO_THE_64: int := 0x1_0000_0000_0000_0000

  type i64 = x: int | -0x8000_0000_0000_0000 <= x < 0x8000_0000_0000_0000
  type u64 = x: int | 0 <= x < 0x1_0000_0000_0000_0000
  type u32 = x: int | 0 <= x < 0x1_0000_0000

  /** `v as u64` for an `i64`: two's-complement reinterpretation. */
  function I64AsU64(v: i64): (r: u64)
    ensures v >= 0 ==> r == v
    ensures v < 0 ==> r == v + TWO_TO_THE_64
  {
    if v >= 0 then v else v + TWO_TO_THE_64
  }

  /** `v as i64` for a `u64`: two's-complement reinterpretation. */
  function U64AsI64(v: u64): (r: i64)
    ensures v < TWO_TO_THE_63 ==> r == v
    ensures v >= TWO_TO_THE_63 ==> r == v - TWO_TO_THE_64
  {
    if v < TWO_TO_THE_63 then v else v - TWO_TO_THE_64
  }

  /** The two casts are inverse to each other. */
  lemma CastsRoundTrip(a: i64, b: u64)
    ensures U64AsI64(I64AsU64(a)) == a
    ensures I64AsU64(U64AsI64(b)) == b
  {
  }
}
