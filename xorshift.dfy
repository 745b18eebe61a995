/** `Xorshift`: Marsaglia's 64-bit xorshift with shifts 13, 7 and 17. The stored state
    takes the first two shifts; the output applies the third without storing it. State
    0 is a fixed point, so seeding replaces a zero seed. Words are bit-vectors here. */
module XorshiftRng {
  /** `u64::MAX >> 1`, the state used for a zero seed. */
  const ZERO_SEED_STATE: bv64 := 0x7FFF_FFFF_FFFF_FFFF

  /** The stored part of a step: `s ^= s << 13; s ^= s >> 7`. */
  function Step(s: bv64): bv64
  {
    var t := s ^ (s << 13);
    t ^ (t >> 7)
  }

  /** The output of a step from the new state: `s ^ (s << 17)`. */
  function Output(s: bv64): bv64
  {
    s ^ (s << 17)
  }

  /** `Seeded::seed`: a zero seed becomes `u64::MAX >> 1`, any other is kept. */
  function SeedState(seed: bv64): (s: bv64)
    ensures s != 0
    ensures seed != 0 ==> s == seed
  {
    if seed == 0 then ZERO_SEED_STATE else seed
  }

  /** The state after `k` draws from `s`. */
  function Iterate(s: bv64, k: nat): bv64
  {
    if k == 0 then s else Step(Iterate(s, k - 1))
  }

  /** The `k`-th word drawn from a generator that started in state `s`. */
  function Draw(s: bv64, k: nat): bv64
  {
    Output(Iterate(s, k + 1))
  }

  /** Every part of the step is invertible, so it maps only 0 to 0, and so does the output. */
  lemma StepZeroIff(s: bv64)
    ensures Step(s) == 0 <==> s == 0
    ensures Output(s) == 0 <==> s == 0
  {
  }

  /** State 0 is a fixed point: it stays 0 and every draw is 0. */
  lemma {:induction false} ZeroStaysZero(k: nat)
    ensures Iterate(0, k) == 0 && Draw(0, k) == 0
  {
    if k > 0 {
      ZeroStaysZero(k - 1);
    }
    StepZeroIff(Iterate(0, k));
  }

  /** A nonzero state never reaches 0, so it never produces a zero word. */
  lemma {:induction false} NonzeroStaysNonzero(s: bv64, k: nat)
    requires s != 0
    ensures Iterate(s, k) != 0 && Draw(s, k) != 0
  {
    if k > 0 {
      NonzeroStaysNonzero(s, k - 1);
    }
    StepZeroIff(Iterate(s, k));
    StepZeroIff(Iterate(s, k + 1));
  }

  /** `struct Xorshift(u64)`. The ghost fields record the starting state and the number
      of draws, so that the state is always `Iterate(origin, drawn)`. */
  class Xorshift {
    var state: bv64
    ghost const origin: bv64
    ghost var drawn: nat

    ghost predicate Valid()
      reads this
    {
      state == Iterate(origin, drawn)
    }

    /** `Xorshift::default()`: state 1. */
    constructor Default()
      ensures Valid() && origin == 1 && drawn == 0 && state == 1
    {
      state := 1;
      origin := 1;
      drawn := 0;
    }

    /** `Seeded::seed(seed)`. */
    constructor Seed(seed: bv64)
      ensures Valid() && origin == SeedState(seed) && drawn == 0 && state == SeedState(seed)
    {
      state := SeedState(seed);
      origin := SeedState(seed);
      drawn := 0;
    }

    /** A generator in an arbitrary state, as only the crate's own tests can build. */
    constructor Construct(s: bv64)
      ensures Valid() && origin == s && drawn == 0 && state == s
    {
      state := s;
      origin := s;
      drawn := 0;
    }

    /** `next_u64`: store the stepped state and return its output. */
    method NextU64() returns (x: bv64)
      requires Valid()
      modifies this
      ensures Valid() && drawn == old(drawn) + 1
      ensures state == Step(old(state)) && x == Output(state)
      ensures x == Draw(origin, old(drawn))
    {
      state := Step(state);
      drawn := drawn + 1;
      x := Output(state);
    }
  }

  /** Every generator built by `default()` or `seed()` starts nonzero, so none of its
      draws is ever 0; in particular the first draw of `default()`, `seed(0)`, `seed(1)` and
      `seed(u64::MAX)` is nonzero. */
  lemma SeededNeverZero(seed: bv64, k: nat)
    ensures Draw(1, k) != 0
    ensures Draw(SeedState(seed), k) != 0
  {
    NonzeroStaysNonzero(1, k);
    NonzeroStaysNonzero(SeedState(seed), k);
  }

  /** The source's seeding cases: `seed(0)` stores `u64::MAX >> 1`, `seed(1)` stores 1 and
      `seed(u64::MAX)` stores `u64::MAX`. */
  lemma SeedCases()
    ensures SeedState(0) == 0xFFFF_FFFF_FFFF_FFFF >> 1
    ensures SeedState(1) == 1 && SeedState(0xFFFF_FFFF_FFFF_FFFF) == 0xFFFF_FFFF_FFFF_FFFF
  {
  }

  /** The source's zero-state case: a generator built in state 0 draws 0 twice. */
  method ZeroStateDrawsZero() returns (a: bv64, b: bv64)
    ensures a == 0 && b == 0
  {
    var rng := new Xorshift.Construct(0);
    a := rng.NextU64();
    b := rng.NextU64();
    ZeroStaysZero(0);
    ZeroStaysZero(1);
  }
}
