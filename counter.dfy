/** `Counter`: a wrap-around 64-bit counter, useful for seeding and testing. Each draw
    returns the current value and advances it by one modulo 2^64. */
module CounterRng {
  import opened Words

  /** One step of the counter: `current.wrapping_add(1)`. */
  function Step(s: u64): (t: u64)
    ensures s < MAX_64 ==> t == s + 1
    ensures s == MAX_64 ==> t == 0
  {
    (s + 1) % TWO_64
  }

  /** The state after `k` draws from `s`. */
  function Iterate(s: u64, k: nat): u64
  {
    if k == 0 then s else Step(Iterate(s, k - 1))
  }

  /** Closed form: the `k`-th draw after seeding with `s` is `(s + k) mod 2^64`. */
  lemma {:induction false} IterateClosedForm(s: u64, k: nat)
    ensures Iterate(s, k) == (s + k) % TWO_64
  {
    if k > 0 {
      IterateClosedForm(s, k - 1);
      var q := (s + k - 1) / TWO_64;
      assert s + k - 1 == q * TWO_64 + (s + k - 1) % TWO_64;
      ModOfMultiplePlus(q, TWO_64, (s + k - 1) % TWO_64 + 1);
    }
  }

  /** The counter has period 2^64: after 2^64 draws it is back where it started. */
  lemma CounterPeriod(s: u64)
    ensures Iterate(s, TWO_64) == s
  {
    IterateClosedForm(s, TWO_64);
    ModOfMultiplePlus(1, TWO_64, s);
  }

  /** The source's wrap-around case: from `u64::MAX - 3` the draws are
      `MAX - 3, MAX - 2, MAX - 1, MAX, 0, 1`. */
  lemma WrapCases()
    ensures Iterate(MAX_64 - 3, 0) == MAX_64 - 3
    ensures Iterate(MAX_64 - 3, 1) == MAX_64 - 2
    ensures Iterate(MAX_64 - 3, 2) == MAX_64 - 1
    ensures Iterate(MAX_64 - 3, 3) == MAX_64
    ensures Iterate(MAX_64 - 3, 4) == 0
    ensures Iterate(MAX_64 - 3, 5) == 1
  {
    IterateClosedForm(MAX_64 - 3, 3);
    IterateClosedForm(MAX_64 - 3, 4);
    IterateClosedForm(MAX_64 - 3, 5);
  }

  /** `struct Counter(u64)`. The ghost fields record the starting value and the number of
      draws, so that the state is always `Iterate(origin, drawn)`. */
  class Counter {
    var state: u64
    ghost const origin: u64
    ghost var drawn: nat

    ghost predicate Valid()
      reads this
    {
      state == Iterate(origin, drawn)
    }

    /** `Counter::new(seed)` and `Seeded::seed(seed)`: start at `seed`. */
    constructor New(seed: u64)
      ensures Valid() && origin == seed && drawn == 0 && state == seed
    {
      state := seed;
      origin := seed;
      drawn := 0;
    }

    /** `Counter::default()`: start at 0. */
    constructor Default()
      ensures Valid() && origin == 0 && drawn == 0 && state == 0
    {
      state := 0;
      origin := 0;
      drawn := 0;
    }

    /** `next_u64`: return the current value and store its wrapping successor; the
        returned value is `(origin + drawn) mod 2^64`. */
    method NextU64() returns (x: u64)
      requires Valid()
      modifies this
      ensures Valid() && drawn == old(drawn) + 1
      ensures x == old(state) && state == Step(old(state))
      ensures x == (origin + old(drawn)) % TWO_64
    {
      x := state;
      state := Step(state);
      drawn := drawn + 1;
      IterateClosedForm(origin, old(drawn));
    }
  }

  /** The source's `counter_from_zero` case: the default counter draws 0, 1, 2, 3. */
  method FromZero() returns (xs: seq<u64>)
    ensures xs == [0, 1, 2, 3]
  {
    var c := new Counter.Default();
    var a := c.NextU64();
    var b := c.NextU64();
    var d := c.NextU64();
    var e := c.NextU64();
    xs := [a, b, d, e];
  }
}
