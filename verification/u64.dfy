/** Unsigned 64-bit machine integers, as far as the identifiers need them:
    the value range and the overflow-checked addition. */
module U64 {
  import opened Wrappers

  /** The largest value of the type, 2^64 - 1. */
  const MAX: int := 0xFFFF_FFFF_FFFF_FFFF

  type u64 = x: int | 0 <= x <= MAX

  /** Addition that refuses to wrap around: `None` when the exact sum
      does not fit in 64 bits. */
  function CheckedAdd(a: u64, b: u64): (r: Option<u64>)
    ensures r.Some? <==> a + b <= MAX
    ensures r.Some? ==> r.value == a + b
  {
    if a + b <= MAX then Some(a + b) else None
  }

  /** Adding one overflows exactly at the maximum value. */
  lemma CheckedIncrement(a: u64)
    ensures CheckedAdd(a, 1).None? <==> a == MAX
    ensures a < MAX ==> CheckedAdd(a, 1) == Some(a + 1)
  {
  }
}
