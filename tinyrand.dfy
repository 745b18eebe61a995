/** Bounded and ranged sampling (`RandLim`, `RandRange`) for `u64` and `u128`, as the
    current revision of the library has them: a zero limit and an empty or inverted
    range panic before anything is drawn. The sampling loops are those of `Bounded`. */
module TinyRand {
  import opened Words
  import opened Outcome
  import opened Lemire
  import opened Rand
  import opened Bounded

  /** `RandLim<u64>::next_lim`: `assert_ne!(0, lim)`, then Lemire's loop. */
  method NextLimU64(rand: Source64, lim: u64) returns (r: Result<u64>)
    requires lim > 0 ==> Reaches64(rand.stream, rand.drawn, lim)
    modifies rand
    ensures lim == 0 <==> r.Err?
    ensures lim == 0 ==> r.panic == ZeroLimit && rand.drawn == old(rand.drawn)
    ensures lim > 0 ==> r.Ok? && r.value < lim && Lim64Outcome(rand.stream, old(rand.drawn), rand.drawn, lim, r.value)
  {
    if lim == 0 {
      return Err(ZeroLimit);
    }
    var v := Sample64(rand, lim);
    r := Ok(v);
  }

  /** `RandLim<u128>::next_lim`: `assert_ne!(0, lim)`, then the 64-bit method for a limit
      that fits in 64 bits and the cutoff loop otherwise. */
  method NextLimU128(rand: Source64, lim: u128) returns (r: Result<u128>)
    requires lim > 0 ==> Reaches128(rand.stream, rand.drawn, lim)
    modifies rand
    ensures lim == 0 <==> r.Err?
    ensures lim == 0 ==> r.panic == ZeroLimit && rand.drawn == old(rand.drawn)
    ensures lim > 0 ==> r.Ok? && r.value < lim && Lim128Outcome(rand.stream, old(rand.drawn), rand.drawn, lim, r.value)
  {
    if lim == 0 {
      return Err(ZeroLimit);
    }
    var v := Sample128(rand, lim);
    r := Ok(v);
  }

  /** `RandRange<u64>::next_range`: panics unless `start < end`, otherwise `start` plus a
      bounded draw of the span; the result lies in the range and cannot overflow. */
  method NextRangeU64(rand: Source64, start: u64, end: u64) returns (r: Result<u64>)
    requires start < end ==> Reaches64(rand.stream, rand.drawn, end - start)
    modifies rand
    ensures start >= end <==> r.Err?
    ensures start >= end ==> r.panic == EmptyRange && rand.drawn == old(rand.drawn)
    ensures start < end ==> r.Ok? && start <= r.value < end
    ensures start < end ==> Lim64Outcome(rand.stream, old(rand.drawn), rand.drawn, end - start, r.value - start)
  {
    if start >= end {
      return Err(EmptyRange);
    }
    var span := end - start;
    var random := NextLimU64(rand, span);
    r := Ok(start + random.value);
  }

  /** `RandRange<u128>::next_range`: the same over `u128`. */
  method NextRangeU128(rand: Source64, start: u128, end: u128) returns (r: Result<u128>)
    requires start < end ==> Reaches128(rand.stream, rand.drawn, end - start)
    modifies rand
    ensures start >= end <==> r.Err?
    ensures start >= end ==> r.panic == EmptyRange && rand.drawn == old(rand.drawn)
    ensures start < end ==> r.Ok? && start <= r.value < end
    ensures start < end ==> Lim128Outcome(rand.stream, old(rand.drawn), rand.drawn, end - start, r.value - start)
  {
    if start >= end {
      return Err(EmptyRange);
    }
    var span := end - start;
    var random := NextLimU128(rand, span);
    r := Ok(start + random.value);
  }
}
