/** Random durations: `RandRange<Duration>` and `from_nanos`, the inverse of
    `Duration::as_nanos` over the full `u128` range. A `Duration` is a whole number of
    seconds (`u64`) and a nanosecond part below one second. */
module Durations {
  import opened Words
  import opened Outcome
  import opened Lemire
  import opened Rand
  import TinyRand

  const NANOS_PER_SEC: int := 1_000_000_000

  type Nanos = x: int | 0 <= x < NANOS_PER_SEC

  datatype Duration = Duration(secs: u64, nanos: Nanos)

  const ZERO: Duration := Duration(0, 0)
  const MAX: Duration := Duration(MAX_64, NANOS_PER_SEC - 1)

  /** `Duration::MAX.as_nanos()`. */
  const MAX_NANOS: int := MAX_64 * NANOS_PER_SEC + NANOS_PER_SEC - 1

  /** `Duration::as_nanos`: the total number of nanoseconds, which always fits in 128 bits. */
  function AsNanos(d: Duration): (n: u128)
    ensures n / NANOS_PER_SEC == d.secs && n % NANOS_PER_SEC == d.nanos
    ensures n <= MAX_NANOS
  {
    MulMonotone(d.secs, MAX_64, NANOS_PER_SEC);
    DivModUnique(d.secs * NANOS_PER_SEC + d.nanos, NANOS_PER_SEC, d.secs, d.nanos);
    d.secs * NANOS_PER_SEC + d.nanos
  }

  /** `from_nanos`: seconds `(n / 10^9) as u64` (the cast keeps the low 64 bits) and the
      remainder as nanoseconds. */
  function FromNanos(n: u128): (d: Duration)
    ensures d.nanos == n % NANOS_PER_SEC
    ensures n / NANOS_PER_SEC < TWO_64 ==> d.secs == n / NANOS_PER_SEC
  {
    Duration(Low64(n / NANOS_PER_SEC), n % NANOS_PER_SEC)
  }

  /** Round trip: `from_nanos(d.as_nanos()) == d` for every duration. */
  lemma FromNanosRoundTrip(d: Duration)
    ensures FromNanos(AsNanos(d)) == d
  {
  }

  /** `from_nanos(n)` is exact (`as_nanos` gives `n` back) exactly when `n` is at most
      `Duration::MAX.as_nanos()`; above it the seconds are truncated. */
  lemma {:induction false} FromNanosExactIff(n: u128)
    ensures AsNanos(FromNanos(n)) == n <==> n <= MAX_NANOS
  {
    var q, rem := n / NANOS_PER_SEC, n % NANOS_PER_SEC;
    if n <= MAX_NANOS {
      if q > MAX_64 {
        MulMonotone(MAX_64 + 1, q, NANOS_PER_SEC);
        assert false;
      }
      assert n == q * NANOS_PER_SEC + rem;
    } else {
      var d := FromNanos(n);
      assert AsNanos(d) <= MAX_NANOS;
    }
  }

  /** The source's reversibility cases: zero, 1 ns, 1 us, 1 ms, 1 s and `Duration::MAX`. */
  lemma FromNanosCases()
    ensures FromNanos(AsNanos(ZERO)) == ZERO
    ensures FromNanos(1) == Duration(0, 1)
    ensures FromNanos(1_000) == Duration(0, 1_000)
    ensures FromNanos(1_000_000) == Duration(0, 1_000_000)
    ensures FromNanos(1_000_000_000) == Duration(1, 0)
    ensures FromNanos(AsNanos(MAX)) == MAX
  {
    FromNanosRoundTrip(ZERO);
    FromNanosRoundTrip(MAX);
  }

  /** The derived ordering of `Duration`: by seconds, then by nanoseconds. */
  predicate Less(a: Duration, b: Duration)
  {
    a.secs < b.secs || (a.secs == b.secs && a.nanos < b.nanos)
  }

  /** The ordering agrees with the nanosecond counts. */
  lemma {:induction false} LessIff(a: Duration, b: Duration)
    ensures Less(a, b) <==> AsNanos(a) < AsNanos(b)
  {
    if a.secs < b.secs {
      MulMonotone(a.secs + 1, b.secs, NANOS_PER_SEC);
    } else if b.secs < a.secs {
      MulMonotone(b.secs + 1, a.secs, NANOS_PER_SEC);
    }
  }

  /** `Duration - Duration` when it does not underflow: the difference of the counts. */
  function Sub(a: Duration, b: Duration): (d: Duration)
    requires AsNanos(b) <= AsNanos(a)
    ensures AsNanos(d) == AsNanos(a) - AsNanos(b)
  {
    FromNanosExactIff(AsNanos(a) - AsNanos(b));
    FromNanos(AsNanos(a) - AsNanos(b))
  }

  /** `Duration + Duration` when it does not overflow: the sum of the counts. */
  function Add(a: Duration, b: Duration): (d: Duration)
    requires AsNanos(a) + AsNanos(b) <= MAX_NANOS
    ensures AsNanos(d) == AsNanos(a) + AsNanos(b)
  {
    FromNanosExactIff(AsNanos(a) + AsNanos(b));
    FromNanos(AsNanos(a) + AsNanos(b))
  }

  /** `(end - start).as_nanos()` for a non-empty range: positive. */
  function Span(start: Duration, end: Duration): (s: u128)
    requires Less(start, end)
    ensures s > 0 && s == AsNanos(end) - AsNanos(start)
  {
    LessIff(start, end);
    AsNanos(end) - AsNanos(start)
  }

  /** `RandRange<Duration>::next_range`: panics unless `start < end`; otherwise draws a
      nanosecond offset below the span with the 128-bit `next_lim` and adds it to `start`.
      The result lies in `[start, end)` and is `start` plus the bounded draw's value. */
  method NextRange(rand: Source64, start: Duration, end: Duration) returns (r: Result<Duration>)
    requires Less(start, end) ==> Reaches128(rand.stream, rand.drawn, Span(start, end))
    modifies rand
    ensures !Less(start, end) <==> r.Err?
    ensures !Less(start, end) ==> r.panic == EmptyRange && rand.drawn == old(rand.drawn)
    ensures Less(start, end) ==> r.Ok? && !Less(r.value, start) && Less(r.value, end)
    ensures Less(start, end) ==> Lim128Outcome(rand.stream, old(rand.drawn), rand.drawn,
      Span(start, end), AsNanos(r.value) - AsNanos(start))
  {
    if !Less(start, end) {
      return Err(EmptyRange);
    }
    LessIff(start, end);
    var span := AsNanos(Sub(end, start));
    assert span == Span(start, end);
    var random := TinyRand.NextLimU128(rand, span);
    FromNanosExactIff(random.value);
    var offset := FromNanos(random.value);
    var d := Add(start, offset);
    LessIff(d, start);
    LessIff(d, end);
    r := Ok(d);
  }

  /** The span of `ZERO..MAX` does not fit in 64 bits, so a full-range duration takes the
      wide branch of the 128-bit `next_lim`. */
  lemma FullSpanIsWide()
    ensures Span(ZERO, MAX) == MAX_NANOS > MAX_64
  {
  }
}
