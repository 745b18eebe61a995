/** `SplitMix`: a two-multiply mixer over 128-bit products. The stored state is the low
    half of the first product; the output mixes the first product's bits 0..95 and
    multiplies again. State 0 is a fixed point, so seeding replaces a zero seed. Words
    are bit-vectors here. */
module SplitMixRng {
  const MUL1: bv128 := 0xff51_afd7_ed55_8ccd
  const MUL2: bv128 := 0xc4ce_b9fe_1a85_ec53
  const LOW_MASK: bv128 := 0xFFFF_FFFF_FFFF_FFFF

  /** `u64::MAX >> 1`, the state used for a zero seed. */
  const ZERO_SEED_STATE: bv64 := 0x7FFF_FFFF_FFFF_FFFF

  /** `p as u64`: the low half of a 128-bit word. */
  function Low(p: bv128): bv64
  {
    (p & LOW_MASK) as bv64
  }

  /** `((p ^ (p >> 32)) as u64)` on a 128-bit word. */
  function Fold(p: bv128): bv64
  {
    Low(p ^ (p >> 32))
  }

  /** The first product, `u128::from(fold(s)) * 0xff51_afd7_ed55_8ccd`. */
  function Product(s: bv64): bv128
  {
    (Fold(s as bv128) as bv128) * MUL1
  }

  /** The stored state after a step: the low half of the first product. */
  function Step(s: bv64): bv64
  {
    Low(Product(s))
  }

  /** The word returned by a step from state `s`. */
  function Output(s: bv64): bv64
  {
    Low((Fold(Product(s)) as bv128) * MUL2)
  }

  /** `Seeded::seed`: a zero seed becomes `u64::MAX >> 1`, any other is kept. */
  function SeedState(seed: bv64): (s: bv64)
    ensures s != 0
    ensures seed != 0 ==> s == seed
  {
    if seed == 0 then ZERO_SEED_STATE else seed
  }

  /** The state after `k` draws from `s`. */
  function Iterate(s: bv64, k: nat): bv64
  {
    if k == 0 then s else Step(Iterate(s, k - 1))
  }

  /** The `k`-th word drawn from a generator that started in state `s`. */
  function Draw(s: bv64, k: nat): bv64
  {
    Output(Iterate(s, k))
  }

  /** The fold `s ^ (s >> 32)` is invertible, so only 0 folds to 0. */
  lemma FoldZeroIff(s: bv64)
    ensures Fold(s as bv128) == 0 <==> s == 0
  {
  }

  /** The first multiplier is odd, so the low half of its product with a nonzero 64-bit
      word is nonzero. */
  lemma LowProductNonzero(f: bv64)
    requires f != 0
    ensures Low((f as bv128) * MUL1) != 0
  {
  }

  /** Hence a step maps only 0 to 0. */
  lemma StepZeroIff(s: bv64)
    ensures Step(s) == 0 <==> s == 0
  {
    FoldZeroIff(s);
    if s != 0 {
      LowProductNonzero(Fold(s as bv128));
    }
  }

  /** State 0 is a fixed point: it stays 0 and every draw is 0. */
  lemma {:induction false} ZeroStaysZero(k: nat)
    ensures Iterate(0, k) == 0 && Draw(0, k) == 0
  {
    if k > 0 {
      ZeroStaysZero(k - 1);
      StepZeroIff(0);
    }
  }

  /** A nonzero state never reaches 0. */
  lemma {:induction false} NonzeroStaysNonzero(s: bv64, k: nat)
    requires s != 0
    ensures Iterate(s, k) != 0
  {
    if k > 0 {
      NonzeroStaysNonzero(s, k - 1);
      StepZeroIff(Iterate(s, k - 1));
    }
  }

  /** Hence a generator built by `default()` or `seed()` never falls into the zero state. */
  lemma SeededStateNeverZero(seed: bv64, k: nat)
    ensures Iterate(1, k) != 0
    ensures Iterate(SeedState(seed), k) != 0
  {
    NonzeroStaysNonzero(1, k);
    NonzeroStaysNonzero(SeedState(seed), k);
  }

  /** The source's seeding cases: `seed(0)` stores `u64::MAX >> 1`, `seed(1)` stores 1 and
      `seed(u64::MAX)` stores `u64::MAX`. */
  lemma SeedCases()
    ensures SeedState(0) == 0xFFFF_FFFF_FFFF_FFFF >> 1
    ensures SeedState(1) == 1 && SeedState(0xFFFF_FFFF_FFFF_FFFF) == 0xFFFF_FFFF_FFFF_FFFF
  {
  }

  /** The first word from `default()` (state 1), worked out: nonzero. */
  lemma DefaultFirstDraw()
    ensures Step(1) == 0xff51_afd7_ed55_8ccd
    ensures Draw(1, 0) == 0x4c8b_acd9_8835_596e
  {
  }

  /** The first word from `seed(0)` (state `u64::MAX >> 1`), worked out: nonzero. */
  lemma ZeroSeedFirstDraw()
    ensures Step(SeedState(0)) == 0x8955_3999_8000_0000
    ensures Draw(SeedState(0), 0) == 0x3aba_8325_0e37_b89b
  {
  }

  /** The first word from `seed(u64::MAX)`, worked out: nonzero. */
  lemma MaxSeedFirstDraw()
    ensures Step(SeedState(0xFFFF_FFFF_FFFF_FFFF)) == 0x12aa_7333_0000_0000
    ensures Draw(SeedState(0xFFFF_FFFF_FFFF_FFFF), 0) == 0x3a43_c048_36f5_5d89
  {
  }

  /** `struct SplitMix(u64)`. The ghost fields record the starting state and the number
      of draws, so that the state is always `Iterate(origin, drawn)`. */
  class SplitMix {
    var state: bv64
    ghost const origin: bv64
    ghost var drawn: nat

    ghost predicate Valid()
      reads this
    {
      state == Iterate(origin, drawn)
    }

    /** `SplitMix::default()`: state 1. */
    constructor Default()
      ensures Valid() && origin == 1 && drawn == 0 && state == 1
    {
      state := 1;
      origin := 1;
      drawn := 0;
    }

    /** `Seeded::seed(seed)`. */
    constructor Seed(seed: bv64)
      ensures Valid() && origin == SeedState(seed) && drawn == 0 && state == SeedState(seed)
    {
      state := SeedState(seed);
      origin := SeedState(seed);
      drawn := 0;
    }

    /** A generator in an arbitrary state, as only the crate's own tests can build. */
    constructor Construct(s: bv64)
      ensures Valid() && origin == s && drawn == 0 && state == s
    {
      state := s;
      origin := s;
      drawn := 0;
    }

    /** `next_u64`: form the first product, store its low half, return the second mix. */
    method NextU64() returns (x: bv64)
      requires Valid()
      modifies this
      ensures Valid() && drawn == old(drawn) + 1
      ensures state == Step(old(state)) && x == Output(old(state))
      ensures x == Draw(origin, old(drawn))
    {
      x := Output(state);
      state := Step(state);
      drawn := drawn + 1;
    }
  }

  /** The source's zero-state case: a generator built in state 0 draws 0 twice. */
  method ZeroStateDrawsZero() returns (a: bv64, b: bv64)
    ensures a == 0 && b == 0
  {
    var rng := new SplitMix.Construct(0);
    a := rng.NextU64();
    b := rng.NextU64();
    ZeroStaysZero(0);
    ZeroStaysZero(1);
  }
}
