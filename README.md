# tinyrand: bounded sampling, width derivation, leaf generators and mocks

This project models the integer core of `tinyrand`, a small allocation-free random number
library, and proves properties of it. It covers both revisions found in the repository:
the current crate under `tinyrand/` and the older crate under `src/`.

What is modelled:

- **Words and width derivation** (`Words`, `Rand64`, `Rand128`). A generator has one native
  word. Narrower words truncate a single draw. A 128-bit word from a 64-bit source splices
  two draws, with the first draw in the high half.
- **Generators as word sources** (`Rand`). `Source64` and `Source128` stand for any
  generator. A source is described by the stream of words it returns (`stream(k)` is the
  word of the `k`-th call) and the number of calls made so far. `next_u64` is the required
  method. `next_u128` and `next_bool` are the trait's default methods, which are the same in
  both revisions.
- **Bounded sampling** (`Lemire`, `Bounded`). `next_lim` uses Lemire's multiply-and-reject
  method for 64-bit limits. Wider limits use reject-above-cutoff, then reduce modulo the
  limit. `Lemire` holds the arithmetic and the counting theorems. `Bounded` holds the
  loops, proved against `Lim64Outcome` and `Lim128Outcome`, which say exactly which draws a
  call consumes and what it returns.
- **The two revisions' entry points**:
  - `TinyRand` is the current crate. A zero limit panics with "zero limit" and an empty or
    inverted range panics with "empty range", both before anything is drawn. A panic is
    modelled as an `Err` value.
  - `LegacyRand` is the older crate. It has no zero check, and an empty or inverted range
    returns its start.
- **Durations** (`Durations`). `from_nanos` is the inverse of `as_nanos`. `next_range` over
  durations works through the 128-bit `next_lim`.
- **`Probability` and `next_bool`** (`Probability`). The checked constructor and the
  conversions are modelled. So is the exact integer cutoff `(p * u64::MAX as f64) as u64`:
  `u64::MAX as f64` is 2^64, and the cast truncates and saturates.
- **Leaf generators**, each a class with its one word of state and a ghost record of its
  origin and draw count:
  - `CounterRng` is the wrapping counter.
  - `XorshiftRng` is the 13/7/17 xorshift.
  - `SplitMixRng` is the two-multiply mixer.
  - `WyrandRng` is the Weyl-sequence generator with the 128-bit "mum" output. It models both
    `tinyrand/src/wyrand.rs` and the older `src/wyrand.rs`, which have the same state,
    step, output, default (state 0) and seeding.
- **Mocks** (`Mocks`, `TestMocks`). `Mock` and `TestMock` hold an invocation `State` and a
  delegate. Each call passes the state before the call and increments it afterwards. The
  modelled delegates are the pre-canned closures `counter(a..b)`, `fixed(v)` and
  `echo(&cell)`, plus any closure that computes its word from the state. `Cell` models both
  `RefCell<u64>` with `RefCellExt` and the older `U64Cell`. The older `src/mock.rs` (count
  named `invocations`) and the current `tinyrand/src/mock.rs` (count named
  `next_u64_invocations`) share one model. `state()` and the count getter are reads of the
  `state` field.
- **The library's own cases** (`LibraryCases` and the scenario methods in each module): the
  worked values the repository's tests check, stated as contracts.

The two revisions differ on empty and inverted ranges (`start >= end`). The current crate
panics with "empty range" (`tinyrand/src/lib.rs:165,174`, `tinyrand/src/duration.rs:10`), so
`TinyRand` and `Durations` return `Err(EmptyRange)`. The older crate returns `start` before
drawing (`src/lib.rs:158-160`), and `LegacyRand` does the same.

Where a comment and the code disagree, the model follows the code:

- A comment in `next_bool` says the clamp guarantees that p = 1.0 is never true. The code and
  the tests make p = 1.0 always true: the cutoff saturates to `u64::MAX`. `BoolEndpoints`
  states the code's behaviour.

## Model

| member | source | states |
|---|---|---|
| Words.Low16 | tinyrand/src/rand64.rs:16-18 | `as u16` keeps a value that already fits in 16 bits |
| Words.Low32 | tinyrand/src/rand64.rs:22-24 | `as u32` keeps a value that already fits in 32 bits |
| Words.Low64 | tinyrand/src/rand128.rs:27 | `as u64` keeps a value that already fits in 64 bits |
| Words.High64 | tinyrand/src/lib.rs:129 | `(x >> 64) as u64` is the quotient by 2^64: `r * 2^64 <= x < (r + 1) * 2^64` |
| Words.Splice | tinyrand/src/lib.rs:28-31 | `hi << 64 \| lo` has `hi` as its high half and `lo` as its low half, so the shift-or loses nothing |
| Words.SpliceHalves | tinyrand/src/rand64.rs:28-30 | every 128-bit word is the splice of its own two halves |
| Words.SpliceInjective | tinyrand/src/rand64.rs:28-30 | different pairs of draws splice to different 128-bit words |
| Words.TruncationComposes | tinyrand/src/rand128.rs:15-23 | truncating 128 bits to 64 and then to 16 or 32 keeps the same low bits as truncating at once |
| Lemire.Full | tinyrand/src/lib.rs:120 | the 128-bit product of a draw and the limit never overflows and equals `x * lim` |
| Lemire.Candidate | tinyrand/src/lib.rs:129 | the high word of `x * lim` is below `lim` and is `floor(x * lim / 2^64)` |
| Lemire.Threshold64 | tinyrand/src/lib.rs:123 | `lim.wrapping_neg() % lim` equals `2^64 mod lim` and is below `lim` |
| Lemire.FastPathSound | tinyrand/src/lib.rs:121-128 | the source's test (`low >= lim`, else loop while `low < threshold`) accepts exactly the draws that the plain rule `low >= threshold` accepts, and `low >= lim` always accepts |
| Lemire.PowerOfTwoNeverRejects | tinyrand/src/lib.rs:121-128 | when `lim` divides 2^64, every draw is accepted |
| Lemire.AcceptedRun | tinyrand/src/lib.rs:116-131 | zero bias as a count: for each result `r < lim`, the accepted draws yielding `r` are exactly `2^64 / lim` consecutive words, the same number for every `r` (both directions) |
| Lemire.AcceptedRunInRange | tinyrand/src/lib.rs:116-131 | each result's run of accepted draws lies within the 64-bit words |
| Lemire.Cutoff128 | tinyrand/src/lib.rs:151-155 | `cutoff_u128(lim)` is `u128::MAX - 2^128 mod lim`; `cutoff + 1` is a multiple of `lim`; fewer than `lim` words lie above it |
| Lemire.AcceptedBlocks | tinyrand/src/lib.rs:140-146 | a 128-bit draw is accepted exactly when it lies in one of the complete blocks `[k * lim, (k + 1) * lim)` below the cutoff, so each residue is accepted equally often |
| Lemire.CutoffSpotValues | tinyrand/src/tests.rs:207-212 | `cutoff_u128(1) == cutoff_u128(2) == u128::MAX` and `cutoff_u128(3) == u128::MAX - 1` |
| Lemire.OutcomeBelowLimit | tinyrand/src/lib.rs:133-149 | every outcome of a bounded draw is below the limit, whatever the stream |
| Lemire.Lim64OutcomeUnique | tinyrand/src/lib.rs:116-131 | from a given stream position, a 64-bit bounded draw has one outcome: the same draws consumed and the same value |
| Lemire.Lim128OutcomeUnique | tinyrand/src/lib.rs:133-149 | the same determinism for 128-bit limits |
| Lemire.PowerOfTwoOneDraw | tinyrand/src/lib.rs:120-129 | for a power-of-two limit, a bounded draw consumes exactly one word and returns its candidate |
| Probability.New | tinyrand/src/lib.rs:72-76 | succeeds exactly for values in [0, 1] and keeps the value; fails with "cannot be less than 0" exactly for negatives and NaN, and with "cannot be greater than 1" exactly above 1 |
| Probability.NewUnchecked | tinyrand/src/lib.rs:84-86 | stores any value, out-of-range and NaN included, and converting back returns it |
| Probability.ConversionRoundTrip | tinyrand/src/lib.rs:89-101 | `From<f64>` succeeds exactly in [0, 1], and converting back to `f64` returns the original value |
| Probability.ConversionCases | tinyrand/src/tests.rs:173-205 | 0, EPSILON, 1 - EPSILON and 1 convert back unchanged; -EPSILON and 1 + EPSILON fail with the matching messages; unchecked -EPSILON and 1 + EPSILON round-trip |
| Probability.BoolCutoff | tinyrand/src/lib.rs:45 | the cutoff is 0 for NaN and for p <= 0, and `u64::MAX` for p >= 1 (the cast saturates) |
| Probability.BoolFromDrawIff | tinyrand/src/lib.rs:46-51 | after clamping `u64::MAX` to `u64::MAX - 1`, a draw gives `true` exactly when it is below the cutoff, or when the cutoff is `u64::MAX` |
| Probability.BoolEndpoints | tinyrand/src/lib.rs:47-51 | p = 0.0 is false and p = 1.0 is true for every draw, `u64::MAX` included |
| Probability.CutoffMonotone | tinyrand/src/lib.rs:45 | a larger probability never has a smaller cutoff, so a draw that is true at p is true at every q >= p |
| Probability.NextBoolCases | tinyrand/src/tests.rs:214-244 | the sixteen (draw, probability) outcomes of the `next_bool` test table |
| Rand.Source64.constructor | tinyrand/src/lib.rs:22-25 | a generator starts with no draws made and yields its own stream |
| Rand.Source64.NextU64 | tinyrand/src/lib.rs:24-25 | one draw: returns the next word of the stream, and the count goes up by one |
| Rand.Source64.NextU128 | tinyrand/src/lib.rs:28-31 | exactly two draws, spliced with the first in the high half |
| Rand.Source64.NextBool | tinyrand/src/lib.rs:41-52 | exactly one draw; the result is true exactly when the draw is below the cutoff or the cutoff is `u64::MAX` |
| Rand.Source128.constructor | tinyrand/src/rand128.rs:10-11 | a 128-bit native generator starts with no draws made and yields its own stream |
| Rand.Source128.NextU128 | tinyrand/src/rand128.rs:10-11 | one native draw: the next 128-bit word of the stream |
| Rand64.NextU16 | tinyrand/src/rand64.rs:16-18 | the low 16 bits of exactly one 64-bit draw |
| Rand64.NextU32 | tinyrand/src/rand64.rs:22-24 | the low 32 bits of exactly one 64-bit draw |
| Rand64.NextU128 | tinyrand/src/rand64.rs:28-30 | exactly two draws: the first is the high half of the result and the second the low half |
| Rand64.SpliceOneThenTwo | tinyrand/src/rand64.rs:28-30 | draws 1 then 2 give `0x0000_0000_0000_0001__0000_0000_0000_0002` after two draws |
| Rand128.NextU16 | tinyrand/src/rand128.rs:15-17 | the low 16 bits of exactly one 128-bit draw |
| Rand128.NextU32 | tinyrand/src/rand128.rs:21-23 | the low 32 bits of exactly one 128-bit draw |
| Rand128.NextU64 | tinyrand/src/rand128.rs:27 | the low 64 bits of exactly one 128-bit draw |
| Rand128.CyclingSource | tinyrand/src/rand128.rs:13-27 | a native source cycling 5, 6, 7 gives 5, 6, 7 through the three narrower widths, and the draw count goes 1, 2, 3 |
| Bounded.Sample64 | tinyrand/src/lib.rs:120-129 | the multiply-and-reject loop returns a value below `lim`: the candidate of the first accepted draw, with every earlier draw rejected; `lim == 0` makes one draw and gives 0 |
| Bounded.Sample128 | tinyrand/src/lib.rs:137-147 | a limit that fits in 64 bits takes the 64-bit path; a wider one takes the cutoff path; either way the `Lim128Outcome` holds and the value is below `lim` |
| Bounded.SampleWide | tinyrand/src/lib.rs:140-146 | the wide path returns the first spliced pair at most `cutoff_u128(lim)`, reduced modulo `lim` |
| Bounded.DrawAtMost | tinyrand/src/lib.rs:141-146 | the loop consumes `2i + 2` draws and stops at the first 128-bit word at most the cutoff; the `i` words before it are all above the cutoff |
| Bounded.WideOutcome | tinyrand/src/lib.rs:141-146 | the first pair at most the cutoff, after `i` rejected pairs, is the wide outcome and consumes `2i + 2` draws |
| TinyRand.NextLimU64 | tinyrand/src/lib.rs:116-131 | a zero limit fails with "zero limit" without drawing; otherwise the result is below `lim` and is the Lemire outcome of the draws consumed |
| TinyRand.NextLimU128 | tinyrand/src/lib.rs:133-149 | a zero limit fails with "zero limit" without drawing; otherwise the result is below `lim` and is the 128-bit outcome |
| TinyRand.NextRangeU64 | tinyrand/src/lib.rs:162-169 | fails with "empty range" exactly when `start >= end`, without drawing; otherwise the result lies in `[start, end)` and is `start` plus the bounded draw over the span |
| TinyRand.NextRangeU128 | tinyrand/src/lib.rs:171-179 | the same over `u128` |
| LegacyRand.NextLimU64 | src/lib.rs:111-125 | without a zero check: `lim == 0` draws once and returns 0; otherwise the result is below `lim` and is the Lemire outcome |
| LegacyRand.NextLimU128 | src/lib.rs:127-142 | without a zero check: `lim == 0` takes the 64-bit path, draws once and returns 0; otherwise the 128-bit outcome below `lim` |
| LegacyRand.NextRangeU64 | src/lib.rs:155-164 | an empty or inverted range returns `start` without drawing; otherwise the result lies in `[start, end)` and is `start` plus the bounded draw |
| LegacyRand.NextRangeU128 | src/lib.rs:166-176 | the same over `u128` |
| LegacyRand.ZeroLimitEscapes | src/lib.rs:113-123 | `next_lim(0)` consumes one draw and returns 0, a value outside `0..0` |
| Durations.AsNanos | tinyrand/src/duration.rs:11 | the nanosecond count fits in 128 bits, its quotient by 10^9 is the seconds and its remainder the sub-second nanoseconds, and it is at most `Duration::MAX.as_nanos()` |
| Durations.FromNanos | tinyrand/src/duration.rs:21-26 | the nanoseconds are `n mod 10^9`, and the seconds are `n / 10^9` whenever that fits in 64 bits |
| Durations.FromNanosRoundTrip | tinyrand/src/duration.rs:21-26 | `from_nanos(d.as_nanos()) == d` for every duration |
| Durations.FromNanosExactIff | tinyrand/src/duration.rs:23 | `from_nanos(n)` converts back to `n` exactly when `n <= Duration::MAX.as_nanos()`; above that the seconds are truncated |
| Durations.FromNanosCases | tinyrand/src/duration/tests.rs:8-24 | ZERO, 1 ns, 1 µs, 1 ms, 1 s and `Duration::MAX` round-trip |
| Durations.LessIff | tinyrand/src/duration.rs:10 | the derived ordering of durations agrees with their nanosecond counts (both directions) |
| Durations.Sub | tinyrand/src/duration.rs:11 | `end - start`, when it does not underflow, has the difference of the counts as its count |
| Durations.Add | tinyrand/src/duration.rs:13 | `start + offset`, when it does not overflow, has the sum of the counts as its count |
| Durations.Span | tinyrand/src/duration.rs:11 | the nanosecond span of a non-empty range is positive and is the difference of the counts |
| Durations.NextRange | tinyrand/src/duration.rs:9-14 | fails with "empty range" exactly when `start >= end`, without drawing; otherwise the result lies in `[start, end)` and is `start` plus the 128-bit bounded draw over the span, in nanoseconds |
| Durations.FullSpanIsWide | tinyrand/src/duration.rs:11-12 | the span of `ZERO..MAX` exceeds `u64::MAX`, so the wide 128-bit path is needed |
| CounterRng.Step | tinyrand/src/counter.rs:35 | `wrapping_add(1)`: one more, except that `u64::MAX` wraps to 0 |
| CounterRng.IterateClosedForm | tinyrand/src/counter.rs:33-37 | after `k` draws from seed `s`, the state is `(s + k) mod 2^64` |
| CounterRng.CounterPeriod | tinyrand/src/counter.rs:35 | after 2^64 draws the counter is back at its start |
| CounterRng.WrapCases | tinyrand/src/counter/tests.rs:13-22 | from `u64::MAX - 3` the words are `MAX-3, MAX-2, MAX-1, MAX, 0, 1` |
| CounterRng.Counter.New | tinyrand/src/counter.rs:19-21 | `new(seed)` (and `seed(seed)`, the same body) starts the sequence at `seed` |
| CounterRng.Counter.Default | tinyrand/src/counter.rs:24-29 | `default()` starts at 0 |
| CounterRng.Counter.NextU64 | tinyrand/src/counter.rs:33-37 | returns the current value and stores its wrapping successor; the `k`-th word is `(origin + k) mod 2^64` |
| CounterRng.FromZero | tinyrand/src/counter/tests.rs:4-11 | the default counter draws 0, 1, 2, 3 |
| XorshiftRng.SeedState | tinyrand/src/xorshift.rs:30-33 | any nonzero seed is stored unchanged; the stored state is never 0 (the zero seed's value is pinned by `XorshiftRng.SeedCases`) |
| XorshiftRng.StepZeroIff | tinyrand/src/xorshift.rs:16-23 | the step and the output each map only 0 to 0 (both directions) |
| XorshiftRng.ZeroStaysZero | tinyrand/src/xorshift.rs:16-23 | state 0 is a fixed point: it stays 0 and every word is 0 |
| XorshiftRng.NonzeroStaysNonzero | tinyrand/src/xorshift.rs:16-23 | a nonzero state never reaches 0 and never yields the word 0 |
| XorshiftRng.Xorshift.Default | tinyrand/src/xorshift.rs:7-12 | `default()` has state 1 |
| XorshiftRng.Xorshift.Seed | tinyrand/src/xorshift.rs:26-33 | `seed(s)` has the state of the zero-seed replacement rule |
| XorshiftRng.Xorshift.Construct | tinyrand/src/xorshift/tests.rs:9-15 | the tests' raw constructor stores any state, 0 included |
| XorshiftRng.Xorshift.NextU64 | tinyrand/src/xorshift.rs:16-23 | stores `t ^ (t >> 7)` for `t = s ^ (s << 13)`, returns that ^ (that << 17) without storing it; the `k`-th word is `Draw(origin, k)` |
| XorshiftRng.SeededNeverZero | tinyrand/src/xorshift/tests.rs:3-7 | every word drawn from `default()` or from any `seed(s)` is nonzero |
| XorshiftRng.SeedCases | tinyrand/src/xorshift/tests.rs:25-38 | `seed(0)` stores `u64::MAX >> 1`, `seed(1)` stores 1, `seed(u64::MAX)` stores `u64::MAX` |
| XorshiftRng.ZeroStateDrawsZero | tinyrand/src/xorshift/tests.rs:17-23 | a generator built in state 0 draws 0 twice |
| SplitMixRng.SeedState | tinyrand/src/splitmix.rs:28-33 | any nonzero seed is stored unchanged; the stored state is never 0 (the zero seed's value is pinned by `SplitMixRng.SeedCases`) |
| SplitMixRng.SeedCases | tinyrand/src/splitmix/tests.rs:27-40 | `seed(0)` stores `u64::MAX >> 1`, `seed(1)` stores 1, `seed(u64::MAX)` stores `u64::MAX` |
| SplitMixRng.FoldZeroIff | tinyrand/src/splitmix.rs:18 | the fold `s ^ (s >> 32)` of a 64-bit state is 0 exactly when the state is 0 |
| SplitMixRng.LowProductNonzero | tinyrand/src/splitmix.rs:18-19 | the odd first multiplier keeps the low half of a nonzero product nonzero |
| SplitMixRng.StepZeroIff | tinyrand/src/splitmix.rs:17-19 | the stored step maps only 0 to 0 (both directions) |
| SplitMixRng.ZeroStaysZero | tinyrand/src/splitmix.rs:16-22 | state 0 is a fixed point: it stays 0 and every word is 0 |
| SplitMixRng.NonzeroStaysNonzero | tinyrand/src/splitmix.rs:16-22 | a nonzero state never reaches 0 |
| SplitMixRng.SeededStateNeverZero | tinyrand/src/splitmix.rs:25-33 | a generator from `default()` or `seed(s)` never enters state 0 |
| SplitMixRng.DefaultFirstDraw | tinyrand/src/splitmix/tests.rs:5-9 | from `default()` the first stored state is `0xff51_afd7_ed55_8ccd` and the first word is `0x4c8b_acd9_8835_596e`, which is nonzero |
| SplitMixRng.ZeroSeedFirstDraw | tinyrand/src/splitmix/tests.rs:29-31 | the first word from `seed(0)` is `0x3aba_8325_0e37_b89b`, which is nonzero |
| SplitMixRng.MaxSeedFirstDraw | tinyrand/src/splitmix/tests.rs:37-39 | the first word from `seed(u64::MAX)` is `0x3a43_c048_36f5_5d89`, which is nonzero |
| SplitMixRng.SplitMix.Default | tinyrand/src/splitmix.rs:7-12 | `default()` has state 1 |
| SplitMixRng.SplitMix.Seed | tinyrand/src/splitmix.rs:25-33 | `seed(s)` has the state of the zero-seed replacement rule |
| SplitMixRng.SplitMix.Construct | tinyrand/src/splitmix/tests.rs:11-17 | the tests' raw constructor stores any state, 0 included |
| SplitMixRng.SplitMix.NextU64 | tinyrand/src/splitmix.rs:16-22 | stores the low half of the first product and returns the second mix, computed from the state before the call; the `k`-th word is `Draw(origin, k)` |
| SplitMixRng.ZeroStateDrawsZero | tinyrand/src/splitmix/tests.rs:19-25 | a generator built in state 0 draws 0 twice |
| WyrandRng.Step | tinyrand/src/wyrand.rs:11 | `wrapping_add(0xA076_1D64_78BD_642F)`: the plain sum when it fits, the sum minus 2^64 when it wraps |
| WyrandRng.IterateClosedForm | tinyrand/src/wyrand.rs:10-11 | after `k` draws from `s`, the state is `(s + k * INC) mod 2^64` |
| WyrandRng.SeedsStayApart | tinyrand/src/wyrand.rs:17-24 | two generators are in the same state after `k` draws exactly when they were seeded alike |
| WyrandRng.OddIncrementCancels | tinyrand/src/wyrand.rs:11 | since the increment is odd, `k * INC` is a multiple of 2^64 only when `k` is |
| WyrandRng.FullPeriod | tinyrand/src/wyrand.rs:11 | the state returns to its start exactly after a multiple of 2^64 draws (both directions), so each period visits every state once |
| WyrandRng.DrawShift | tinyrand/src/wyrand.rs:10-14 | after one draw, the generator yields what the original would have yielded next |
| WyrandRng.ZeroSeedFirstDraw | tinyrand/src/wyrand/tests.rs:13-15 | from `seed(0)` (and `default()`) the first state is the increment and the first word is `0x111c_b3a7_8f59_a58e`, which is nonzero |
| WyrandRng.OneSeedFirstDraw | tinyrand/src/wyrand/tests.rs:17-19 | the first word from `seed(1)` is `0xcdef_1695_e1f8_ed2c`, which is nonzero |
| WyrandRng.MaxSeedFirstDraw | tinyrand/src/wyrand/tests.rs:21-23 | from `seed(u64::MAX)` the step wraps and the first word is `0xba1d_c814_e82d_5d44`, which is nonzero |
| WyrandRng.Wyrand.Default | src/wyrand.rs:7-12 | `default()` has state 0 (written out in the older revision, derived in the current one) |
| WyrandRng.Wyrand.Seed | tinyrand/src/wyrand.rs:17-24 | `seed(s)` stores `s` unchanged, 0 included |
| WyrandRng.Wyrand.NextU64 | tinyrand/src/wyrand.rs:10-14 | adds the increment once with wrap-around, then returns the low half xor the high half of `s' * (s' ^ MIX)` for the new state `s'`; the `k`-th word is `Draw(origin, k)` |
| Mocks.Cell.New | src/mock.rs:103-105 | `U64Cell::new(v)` holds `v` |
| Mocks.Cell.Default | src/mock.rs:95-99 | `U64Cell::default()` (and `RefCell::<u64>::default()`) holds 0 |
| Mocks.Cell.Get | src/mock.rs:127-129 | `get()` returns the value held and changes nothing |
| Mocks.Cell.Set | src/mock.rs:135-137 | `set(v)` replaces the value held by `v` |
| Mocks.SetThenGet | tinyrand/src/mock.rs:124-132 | `set(v)` followed by `get()` returns `v` |
| Mocks.CounterAt | tinyrand/src/mock.rs:73-84 | the `k`-th word of `counter(start..end)` lies in `[start, end)` |
| Mocks.CounterFirstLap | tinyrand/src/mock.rs:73-84 | the first lap is `start, start + 1, ..., end - 1` |
| Mocks.CounterPeriod | tinyrand/src/mock.rs:81 | the counter repeats with period `end - start` |
| Mocks.CounterSucc | tinyrand/src/mock.rs:79-82 | the closure's update (`current + 1`, back to `start` on reaching `end`) moves from the `k`-th word to the `k + 1`-th |
| Mocks.StreamAt | tinyrand/src/mock.rs:113-115 | `fixed(v)` yields `v` on every call, and a counter's words lie in its range |
| Mocks.MatchesSource | tinyrand/src/mock.rs:52-57 | a mock whose delegate reads nothing outside it and the word source `Stream(delegate)`, driven from the same count, return the same word and stay in step |
| Mocks.Invoke | tinyrand/src/mock.rs:53-54 | one delegate call with the current state: an echo returns the cell's value now, and any other delegate returns its word for this count; the counter's `current` moves on with the count |
| Mocks.Mock.constructor | src/mock.rs:29-34 | `Mock::new(delegate)` starts with the count at 0 |
| Mocks.Mock.NextU64 | tinyrand/src/mock.rs:52-57 | calls the delegate with the count before the call, then increments the count by exactly one |
| Mocks.CounterFiveToEight | src/mock.rs:54-66 | `counter(5..8)` gives 5, 6, 7, 5 with the count rising 1, 2, 3, 4 |
| Mocks.FixedFortyTwo | tinyrand/src/mock.rs:103-112 | `fixed(42)` gives 42 twice |
| Mocks.EchoFollowsCell | src/mock.rs:140-151 | `echo(&cell)` gives 0 from a default cell, then 42 after `set(42)`, and the cell still holds 42 |
| Mocks.SeesCountBeforeCall | tinyrand/src/mock/tests.rs:42-62 | a delegate computing `count * 100` gives 0, then 100, and the count ends at 2 |
| TestMocks.TestMock.constructor | tinyrand/src/test_mock.rs:29-34 | `TestMock::new(delegate)` starts with the count at 0 |
| TestMocks.TestMock.NextU64 | tinyrand/src/test_mock.rs:53-58 | calls the delegate with the count before the call, then increments the count by one |
| TestMocks.TestMock.NextU16 | tinyrand/src/test_mock.rs:43-45 | the low 16 bits of one delegate word; the count rises by exactly one |
| TestMocks.TestMock.NextU32 | tinyrand/src/test_mock.rs:47-49 | the low 32 bits of one delegate word; the count rises by exactly one |
| TestMocks.TestMock.NextU128 | tinyrand/src/test_mock.rs:60-62 | two delegate words spliced, the first in the high half; the count rises by exactly two |
| TestMocks.WidthsConsumeDraws | tinyrand/src/test_mock.rs:42-63 | with `counter(1..4)`, `next_u16`, `next_u32` and `next_u64` give 1, 2, 3 and `next_u128` gives the splice of 1 and 2, leaving the count at 5 |
| LibraryCases.Gen128FromCounter | tinyrand/src/tests.rs:6-11 | a mock counting over `1..3` gives `0x0000_0000_0000_0001__0000_0000_0000_0002` from `next_u128`, in two draws |
| LibraryCases.ZeroLimitPanics | tinyrand/src/tests.rs:37-47 | `next_lim(0)` fails with "zero limit" for `u64` and `u128`, and nothing is drawn |
| LibraryCases.EmptyRangePanics | tinyrand/src/tests.rs:49-61 | `0..0` over `u64` and `u128` fails with "empty range", and nothing is drawn |
| LibraryCases.EmptyDurationRangePanics | tinyrand/src/duration/tests.rs:105-110 | `ZERO..ZERO` over durations fails with "empty range", and nothing is drawn |
| LibraryCases.InvertedRangePanics | tinyrand/src/lib.rs:162-179 | the inverted `101..100` over `u64` and `u128` fails with "empty range", and nothing is drawn |
| LibraryCases.LegacyEmptyRangeReturnsStart | src/tests.rs:92-117 | in the older revision `0..0`, `100..100` and `101..100` return their start (0, 100, 101), and nothing is drawn |

## Left out

- The closure-delegate mocks of `tinyrand-alloc` (`mock.rs` and `adv_mock.rs`) are not modelled. They are boxed `FnMut` delegates that re-enter each other, and their accounting is the same as that of the mocks modelled here.
- The statistical test harnesses, the command-line tool, clock and thread-local seeding (`tinyrand-std`), examples, benchmarks and `mock_support.rs` are not modelled. They are float hypothesis tests, I/O, clocks or thin duplicates.
- Uniformity and the expected number of draws are probabilities. They are stated instead as counting facts (`AcceptedRun`, `AcceptedBlocks`): every result has the same number of accepted draws.
- IEEE-754 arithmetic is not modelled. An `f64` is a real or NaN. The only float operation is the `next_bool` cutoff, which is exact because it multiplies by a power of two.
- Bounded.Sample64: requires that an acceptable draw lies ahead on the stream. The source's loop ends only with probability 1, so termination becomes this precondition.
- Bounded.Sample128: the same termination precondition.
- Bounded.SampleWide: the same termination precondition.
- Bounded.DrawAtMost: the same termination precondition.
- TinyRand.NextLimU64: requires an acceptable draw ahead when `lim > 0`; termination is otherwise probabilistic.
- TinyRand.NextLimU128: the same termination precondition when `lim > 0`.
- TinyRand.NextRangeU64: the same termination precondition for a non-empty range.
- TinyRand.NextRangeU128: the same termination precondition for a non-empty range.
- LegacyRand.NextLimU64: the same termination precondition when `lim > 0`.
- LegacyRand.NextLimU128: the same termination precondition when `lim > 0`.
- LegacyRand.NextRangeU64: the same termination precondition for a non-empty range.
- LegacyRand.NextRangeU128: the same termination precondition for a non-empty range.
- Durations.NextRange: the same termination precondition for a non-empty range.
- Durations.Sub: only for `end >= start`; the standard library's underflow panic is not modelled, and `next_range` never reaches it.
- Durations.Add: only when the sum fits a `Duration`; the overflow panic is not modelled, and `next_range` never reaches it.
- Words.Low16: the contract pins only values that already fit. For wider values it is the definition, the value modulo 2^16.
- Words.Low32: as for `Low16`, with 2^32.
- Words.Low64: as for `Low16`, with 2^64.
- Mocks.Mock.constructor: requires a counter delegate over a non-empty range. `counter(a..a)` never meets `end` and counts until `u64` overflows, which is a panic or a wrap depending on the build.
- TestMocks.TestMock.constructor: the same non-empty range requirement for a counter delegate.
- Mocks.Mock.NextU64: the invocation count is unbounded. The source's `u64` count would overflow after 2^64 calls.
- TestMocks.TestMock.NextU64: the same unbounded count.
- Delegates with side effects outside the mock, such as the test closure that stores the count into an `AtomicU64`, are modelled only by the word they return.
- The generic `counter` over `u128` (`Next for u128`) is not modelled. Mocks return `u64` words, so only the `u64` instance feeds a mock.
- `U64Cell::borrow` and `borrow_mut` and their "already borrowed" panics are not modelled. The cell is read and written directly, and no model operation holds a borrow across a call.
- The `Seeded` trait is not modelled as a trait. Each generator's `seed` is its `Seed` constructor. The current crate's trait declares `type R`, but `counter.rs` and `wyrand.rs` implement `type Rng`. This name mismatch does not affect behaviour.
- Tests that name items the shown sources do not declare are modelled by what they check. `src/mock/tests.rs` uses `constant` where `src/mock.rs` has `fixed`. The current crate's tests use `U64Cell` and `state.invocations`, where `tinyrand/src/mock.rs` has `RefCell` and `next_u64_invocations`.

## Findings

| source | as written | input that shows it | evidently intended | confidence | as-written member | corrected member |
|---|---|---|---|---|---|---|
| src/lib.rs:111-125 | `next_lim` has no zero check: with `lim == 0` the product is 0, `low < 0` never holds, and 0 is returned after one draw | `next_lim(0u64)` on any generator returns 0, which is not in `0..0` | a zero limit is refused before drawing, as the current revision's `assert_ne!(0, lim, "zero limit")` does | not executed | LegacyRand.ZeroLimitEscapes | TinyRand.NextLimU64 |
