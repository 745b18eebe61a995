/** The library's own worked cases for sampling, stated on the model with mock
    generators as the word sources. */
module LibraryCases {
  import opened Words
  import opened Outcome
  import opened Rand
  import Mocks
  import TinyRand
  import LegacyRand
  import Durations

  /** `gen_128_bit_from_64`: a mock counting over `1..3` spliced by the default
      `next_u128` gives `0x0000_0000_0000_0001__0000_0000_0000_0002` in two draws. */
  method Gen128FromCounter() returns (r: u128, n: nat)
    ensures r == 0x0000_0000_0000_0001_0000_0000_0000_0002 && n == 2
  {
    var rand := new Source64(Mocks.Stream(Mocks.Counter(1, 3)));
    Mocks.CounterFirstLap(1, 3, 0);
    Mocks.CounterFirstLap(1, 3, 1);
    r := rand.NextU128();
    n := rand.drawn;
    SpliceOneTwo();
  }

  /** `zero_lim_64` and `zero_lim_128`: a zero limit panics with "zero limit" before
      anything is drawn. */
  method ZeroLimitPanics() returns (a: Result<u64>, b: Result<u128>, n: nat)
    ensures a.Err? && a.panic.Message() == "zero limit"
    ensures b.Err? && b.panic.Message() == "zero limit"
    ensures n == 0
  {
    var rand := new Source64(Mocks.Stream(Mocks.Fixed(0)));
    a := TinyRand.NextLimU64(rand, 0);
    b := TinyRand.NextLimU128(rand, 0);
    n := rand.drawn;
  }

  /** `empty_u64_range` and `empty_u128_range`: `0..0` panics with "empty range" before
      anything is drawn. */
  method EmptyRangePanics() returns (a: Result<u64>, b: Result<u128>, n: nat)
    ensures a.Err? && a.panic.Message() == "empty range"
    ensures b.Err? && b.panic.Message() == "empty range"
    ensures n == 0
  {
    var rand := new Source64(Mocks.Stream(Mocks.Fixed(0)));
    a := TinyRand.NextRangeU64(rand, 0, 0);
    b := TinyRand.NextRangeU128(rand, 0, 0);
    n := rand.drawn;
  }

  /** `empty_duration_range`: `ZERO..ZERO` panics with "empty range" before anything is
      drawn. */
  method EmptyDurationRangePanics() returns (c: Result<Durations.Duration>, n: nat)
    ensures c.Err? && c.panic.Message() == "empty range" && n == 0
  {
    var rand := new Source64(Mocks.Stream(Mocks.Fixed(0)));
    c := Durations.NextRange(rand, Durations.ZERO, Durations.ZERO);
    n := rand.drawn;
  }

  /** The current revision's `assert!(!range.is_empty(), "empty range")` also refuses an
      inverted range: `101..100` panics over `u64` and `u128` before anything is drawn. */
  method InvertedRangePanics() returns (a: Result<u64>, b: Result<u128>, n: nat)
    ensures a.Err? && a.panic.Message() == "empty range"
    ensures b.Err? && b.panic.Message() == "empty range"
    ensures n == 0
  {
    var rand := new Source64(Mocks.Stream(Mocks.Fixed(0)));
    a := TinyRand.NextRangeU64(rand, 101, 100);
    b := TinyRand.NextRangeU128(rand, 101, 100);
    n := rand.drawn;
  }

  /** The older revision's empty and inverted ranges: `0..0`, `100..100` and `101..100`
      return their start without drawing. */
  method LegacyEmptyRangeReturnsStart() returns (z: u64, a: u64, b: u64, w: u128, n: nat)
    ensures z == 0 && a == 100 && b == 101 && w == 101 && n == 0
  {
    var rand := new Source64(Mocks.Stream(Mocks.Fixed(0)));
    z := LegacyRand.NextRangeU64(rand, 0, 0);
    a := LegacyRand.NextRangeU64(rand, 100, 100);
    b := LegacyRand.NextRangeU64(rand, 101, 100);
    w := LegacyRand.NextRangeU128(rand, 101, 100);
    n := rand.drawn;
  }
}
