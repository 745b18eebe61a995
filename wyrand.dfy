/** `Wyrand`: a Weyl sequence (the state advances by a fixed odd increment, wrapping)
    whose output is the "mum" mix of the new state: the two halves of a 128-bit product,
    xored. Both revisions of the library have the same generator, starting from state 0
    by default. The state is an integer word; the mix works on bit-vectors. */
module WyrandRng {
  import opened Words

  const INC: u64 := 0xA076_1D64_78BD_642F
  /** The inverse of `INC` modulo 2^64: `INC * INC_INVERSE == 1 + INC_CARRY * 2^64`. */
  const INC_INVERSE: u64 := 0x939c_72e4_af1e_62cf
  const INC_CARRY: nat := 6666984268827920654
  const MIX: bv64 := 0xE703_7ED1_A0B4_28DB
  const LOW_MASK: bv128 := 0xFFFF_FFFF_FFFF_FFFF

  /** The stored part of a step: `s.wrapping_add(0xA076_1D64_78BD_642F)`. */
  function Step(s: u64): (t: u64)
    ensures s + INC < TWO_64 ==> t == s + INC
    ensures s + INC >= TWO_64 ==> t == s + INC - TWO_64
  {
    (s + INC) % TWO_64
  }

  /** `(r as u64) ^ (r >> 64) as u64` for `r = u128::from(t) * u128::from(t ^ MIX)`. */
  function Output(t: u64): bv64
  {
    var b := t as bv64;
    var r := (b as bv128) * ((b ^ MIX) as bv128);
    ((r & LOW_MASK) as bv64) ^ ((r >> 64) as bv64)
  }

  /** The state after `k` draws from `s`. */
  function Iterate(s: u64, k: nat): u64
  {
    if k == 0 then s else Step(Iterate(s, k - 1))
  }

  /** The `k`-th word drawn from a generator that started in state `s`: the output of the
      state after the step. */
  function Draw(s: u64, k: nat): bv64
  {
    Output(Iterate(s, k + 1))
  }

  /** Reducing modulo 2^64 before an addition does not change the sum modulo 2^64. */
  lemma ModAdd(a: nat, b: nat)
    ensures (a % TWO_64 + b) % TWO_64 == (a + b) % TWO_64
  {
    ModOfMultiplePlus(a / TWO_64, TWO_64, a % TWO_64 + b);
  }

  /** Closed form: after `k` draws the state is `(s + k * INC) mod 2^64`. */
  lemma {:induction false} IterateClosedForm(s: u64, k: nat)
    ensures Iterate(s, k) == (s + k * INC) % TWO_64
  {
    if k > 0 {
      IterateClosedForm(s, k - 1);
      ModAdd(s + (k - 1) * INC, INC);
    }
  }

  /** Seeding is injective at every step: two generators seeded differently are in
      different states after any number of draws. */
  lemma SeedsStayApart(s: u64, t: u64, k: nat)
    ensures Iterate(s, k) == Iterate(t, k) <==> s == t
  {
    IterateClosedForm(s, k);
    IterateClosedForm(t, k);
    var c := k * INC;
    ModAdd(c, s);
    ModAdd(c, t);
  }

  /** `k * INC` is a multiple of 2^64 only when `k` is: `INC` is odd, so it has an inverse
      modulo 2^64. */
  lemma {:induction false} OddIncrementCancels(k: nat)
    requires (k * INC) % TWO_64 == 0
    ensures k % TWO_64 == 0
  {
    var q := (k * INC) / TWO_64;
    assert k * INC == q * TWO_64;
    calc {
      k + k * INC_CARRY * TWO_64;
      k * (1 + INC_CARRY * TWO_64);
      k * (INC * INC_INVERSE);
      (k * INC) * INC_INVERSE;
      (q * TWO_64) * INC_INVERSE;
    }
    assert k == (q * INC_INVERSE - k * INC_CARRY) * TWO_64;
    assert q * INC_INVERSE - k * INC_CARRY >= 0;
    ModOfMultiplePlus(q * INC_INVERSE - k * INC_CARRY, TWO_64, 0);
  }

  /** The generator has full period: it returns to its starting state exactly after a
      multiple of 2^64 draws, so it passes through every 64-bit state once per period. */
  lemma FullPeriod(s: u64, k: nat)
    ensures Iterate(s, k) == s <==> k % TWO_64 == 0
  {
    IterateClosedForm(s, k);
    ModAdd(k * INC, s);
    if k % TWO_64 == 0 {
      ModOfMultiplePlus((k / TWO_64) * INC, TWO_64, 0);
      assert k * INC == (k / TWO_64) * INC * TWO_64;
    } else if Iterate(s, k) == s {
      OddIncrementCancels(k);
    }
  }

  /** After a draw, the generator draws what the original would have drawn next. */
  lemma {:induction false} DrawShift(s: u64, k: nat)
    ensures Iterate(Step(s), k) == Iterate(s, k + 1)
    ensures Draw(Step(s), k) == Draw(s, k + 1)
  {
    if k > 0 {
      DrawShift(s, k - 1);
    }
  }

  /** The source's first-draw cases, worked out: unlike the xorshift generators, state 0
      is not a trap, and the first word from `seed(0)` (also `default()`) is nonzero. */
  lemma ZeroSeedFirstDraw()
    ensures Iterate(0, 1) == 0xA076_1D64_78BD_642F
    ensures Draw(0, 0) == 0x111c_b3a7_8f59_a58e
  {
  }

  /** The first word from `seed(1)`, worked out: nonzero. */
  lemma OneSeedFirstDraw()
    ensures Iterate(1, 1) == 0xA076_1D64_78BD_6430
    ensures Draw(1, 0) == 0xcdef_1695_e1f8_ed2c
  {
  }

  /** The first word from `seed(u64::MAX)`, worked out: the step wraps, and the word is
      nonzero. */
  lemma MaxSeedFirstDraw()
    ensures Iterate(MAX_64, 1) == 0xA076_1D64_78BD_642E
    ensures Draw(MAX_64, 0) == 0xba1d_c814_e82d_5d44
  {
  }

  /** `struct Wyrand(u64)`. The ghost fields record the starting state and the number of
      draws, so that the state is always `Iterate(origin, drawn)`. */
  class Wyrand {
    var state: u64
    ghost const origin: u64
    ghost var drawn: nat

    ghost predicate Valid()
      reads this
    {
      state == Iterate(origin, drawn)
    }

    /** `Wyrand::default()`: state 0. */
    constructor Default()
      ensures Valid() && origin == 0 && drawn == 0 && state == 0
    {
      state := 0;
      origin := 0;
      drawn := 0;
    }

    /** `Seeded::seed(seed)`: the seed is the state, zero included. */
    constructor Seed(seed: u64)
      ensures Valid() && origin == seed && drawn == 0 && state == seed
    {
      state := seed;
      origin := seed;
      drawn := 0;
    }

    /** `next_u64`: advance the state by the increment and return the mix of the new
        state. */
    method NextU64() returns (x: bv64)
      requires Valid()
      modifies this
      ensures Valid() && drawn == old(drawn) + 1
      ensures state == Step(old(state)) && x == Output(state)
      ensures x == Draw(origin, old(drawn))
    {
      state := Step(state);
      drawn := drawn + 1;
      assert Valid();
      x := Output(state);
    }
  }
}
