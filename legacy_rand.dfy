/** Bounded and ranged sampling as the older revision of the library (the root `src/`
    crate) has them: `next_lim` has no zero check, and an empty or inverted range
    returns its start without drawing. The sampling loops are those of `Bounded`. */
module LegacyRand {
  import opened Words
  import opened Lemire
  import opened Rand
  import opened Bounded

  /** `RandLim<u64>::next_lim` without a zero check: `lim == 0` draws once and returns 0,
      which is not below the limit (see `ZeroLimitEscapes`). */
  method NextLimU64(rand: Source64, lim: u64) returns (v: u64)
    requires lim > 0 ==> Reaches64(rand.stream, rand.drawn, lim)
    modifies rand
    ensures lim == 0 ==> v == 0 && rand.drawn == old(rand.drawn) + 1
    ensures lim > 0 ==> v < lim && Lim64Outcome(rand.stream, old(rand.drawn), rand.drawn, lim, v)
  {
    v := Sample64(rand, lim);
  }

  /** `RandLim<u128>::next_lim` without a zero check: `lim == 0` takes the 64-bit path,
      draws once and returns 0. */
  method NextLimU128(rand: Source64, lim: u128) returns (v: u128)
    requires lim > 0 ==> Reaches128(rand.stream, rand.drawn, lim)
    modifies rand
    ensures lim == 0 ==> v == 0 && rand.drawn == old(rand.drawn) + 1
    ensures lim > 0 ==> v < lim && Lim128Outcome(rand.stream, old(rand.drawn), rand.drawn, lim, v)
  {
    v := Sample128(rand, lim);
  }

  /** `RandRange<u64>::next_range`: an empty or inverted range returns `start` without
      drawing; otherwise `start` plus a bounded draw of the span, inside the range. */
  method NextRangeU64(rand: Source64, start: u64, end: u64) returns (v: u64)
    requires start < end ==> Reaches64(rand.stream, rand.drawn, end - start)
    modifies rand
    ensures start >= end ==> v == start && rand.drawn == old(rand.drawn)
    ensures start < end ==> start <= v < end
    ensures start < end ==> Lim64Outcome(rand.stream, old(rand.drawn), rand.drawn, end - start, v - start)
  {
    if start >= end {
      return start;
    }
    var span := end - start;
    var random := NextLimU64(rand, span);
    v := start + random;
  }

  /** `RandRange<u128>::next_range`: the same over `u128`. */
  method NextRangeU128(rand: Source64, start: u128, end: u128) returns (v: u128)
    requires start < end ==> Reaches128(rand.stream, rand.drawn, end - start)
    modifies rand
    ensures start >= end ==> v == start && rand.drawn == old(rand.drawn)
    ensures start < end ==> start <= v < end
    ensures start < end ==> Lim128Outcome(rand.stream, old(rand.drawn), rand.drawn, end - start, v - start)
  {
    if start >= end {
      return start;
    }
    var span := end - start;
    var random := NextLimU128(rand, span);
    v := start + random;
  }

  /** With no zero check, `next_lim(0)` returns a value that is not in `0..0`: whatever
      the generator, one draw is consumed and 0 comes back. */
  method ZeroLimitEscapes(rand: Source64) returns (v: u64)
    modifies rand
    ensures rand.drawn == old(rand.drawn) + 1
    ensures v == 0 && !(v < 0 as u64)
  {
    v := NextLimU64(rand, 0);
  }
}
